/** What every run of checkouts, cart edits and transitions keeps. */
module OrderSafety {
  import opened Outcomes
  import opened OrderStates
  import opened Orders
  import opened CartPricing
  import opened Decimals
  import Phone
  import Pricing
  import Money

  // -- One order's record --------------------------------------------------------------

  /** The history is an unbroken legal path from the checkout status to the current one. */
  predicate LegalPath(history: seq<Entry>, start: OrderStatus, end: OrderStatus, orderType: OrderType) {
    && history != []
    && history[0] == Entry(None, start)
    && history[|history| - 1].to == end
    && forall i :: 0 < i < |history| ==> LegalEntry(history, i, orderType)
  }

  predicate LegalEntry(history: seq<Entry>, i: nat, orderType: OrderType)
    requires 0 < i < |history|
  {
    history[i].from == Some(history[i - 1].to) && CanTransition(history[i - 1].to, history[i].to, orderType)
  }

  /** Cash and card on delivery are paid exactly on handover; an online order is never touched here. */
  predicate PaidOnHandover(order: Order) {
    if order.payment == Online then order.paymentStatus == PENDING
    else order.paymentStatus == if IsHandover(order.status) then PAID else UNPAID
  }

  predicate RightKind(status: OrderStatus, orderType: OrderType) {
    if orderType == Delivery then status != Completed else !OnTheRoad(status)
  }

  /** Which stage times a status implies; a cancelled order keeps those of the stages it had reached. */
  predicate StagesCovered(order: Order) {
    var s := order.stamps;
    && (s.acceptedAt.Some? ==> s.confirmedAt.Some?)
    && (s.preparingAt.Some? ==> s.acceptedAt.Some?)
    && (s.readyAt.Some? ==> s.preparingAt.Some?)
    && (s.dispatchedAt.Some? ==> s.readyAt.Some? && order.orderType == Delivery)
    && (s.completedAt.Some? ==> s.readyAt.Some? && (order.orderType == Delivery ==> s.dispatchedAt.Some?))
    && (s.completedAt.Some? <==> IsHandover(order.status))
    && (s.cancelledAt.Some? <==> IsCancellation(order.status))
    && (!IsCancellation(order.status) ==>
          && (s.confirmedAt.Some? <==> Progress(order.status) >= 2)
          && (s.acceptedAt.Some? <==> Progress(order.status) >= 3)
          && (s.preparingAt.Some? <==> Progress(order.status) >= 4)
          && (s.readyAt.Some? <==> Progress(order.status) >= 5)
          && (s.dispatchedAt.Some? <==> OnTheRoad(order.status)))
  }

  predicate SoundOrder(order: Order) {
    && LegalPath(order.history, StatusAfterCheckout(order.payment), order.status, order.orderType)
    && order.status != Draft
    && PaidOnHandover(order)
    && StagesCovered(order)
    && forall i :: 0 <= i < |order.history| ==> RightKind(order.history[i].to, order.orderType)
  }

  lemma MoveKeepsPath(order: Order, to: OrderStatus, now: int)
    requires SoundOrder(order) && CanTransition(order.status, to, order.orderType)
    ensures LegalPath(Moved(order, to, now).history, StatusAfterCheckout(order.payment), to, order.orderType)
    ensures forall i :: 0 <= i <= |order.history| ==> RightKind(Moved(order, to, now).history[i].to, order.orderType)
  {
    hide CanTransition, PaidOnHandover, StagesCovered, RightKind, Stamp;
    var before, after := order.history, Moved(order, to, now).history;
    assert RightKind(order.status, order.orderType) by { assert RightKind(before[|before| - 1].to, order.orderType); }
    assert RightKind(to, order.orderType) by { KindStaysRight(order.status, to, order.orderType); }
    forall i | 0 < i < |after|
      ensures LegalEntry(after, i, order.orderType)
    {
      if i < |before| {
        assert LegalEntry(before, i, order.orderType);
      }
    }
  }

  lemma KindStaysRight(from: OrderStatus, to: OrderStatus, orderType: OrderType)
    requires RightKind(from, orderType) && CanTransition(from, to, orderType)
    ensures RightKind(to, orderType)
  {
  }

  lemma MoveKeepsPayment(order: Order, to: OrderStatus, now: int)
    requires PaidOnHandover(order) && CanTransition(order.status, to, order.orderType)
    ensures PaidOnHandover(Moved(order, to, now))
  {
    hide Stamp;
  }

  lemma MoveKeepsStages(order: Order, to: OrderStatus, now: int)
    requires StagesCovered(order) && CanTransition(order.status, to, order.orderType) && order.status != Draft
    requires RightKind(order.status, order.orderType)
    ensures StagesCovered(Moved(order, to, now)) && to != Draft
  {
  }

  lemma MoveKeepsOrder(order: Order, to: OrderStatus, now: int)
    requires SoundOrder(order) && CanTransition(order.status, to, order.orderType)
    ensures SoundOrder(Moved(order, to, now))
  {
    hide CanTransition, LegalPath, PaidOnHandover, StagesCovered, RightKind, Stamp;
    MoveKeepsPath(order, to, now);
    MoveKeepsPayment(order, to, now);
    assert RightKind(order.status, order.orderType) by {
      assert LegalPath(order.history, StatusAfterCheckout(order.payment), order.status, order.orderType);
      LastEntry(order);
    }
    MoveKeepsStages(order, to, now);
  }

  lemma LastEntry(order: Order)
    requires SoundOrder(order)
    ensures RightKind(order.status, order.orderType)
  {
    assert RightKind(order.history[|order.history| - 1].to, order.orderType);
  }

  lemma NewOrderIsSound(shop: Shop, input: CheckoutInput, ready: Cleared)
    requires input.cart in shop.carts
    ensures SoundOrder(NewOrder(shop, input, ready))
  {
    hide CounterAt, PrintNumber;
  }

  /** No status comes back, except that a failed delivery may go out again. */
  lemma {:induction false} HistoryClimbs(history: seq<Entry>, start: OrderStatus, end: OrderStatus, orderType: OrderType, i: nat, j: nat)
    requires LegalPath(history, start, end, orderType) && i < j < |history|
    ensures Progress(history[i].to) < Progress(history[j].to)
      || (Progress(history[i].to) == Progress(history[j].to) == 6)
    decreases j - i
  {
    hide CanTransition, Progress;
    assert LegalEntry(history, j, orderType);
    OneStepClimbs(history[j - 1].to, history[j].to, orderType);
    if i < j - 1 {
      HistoryClimbs(history, start, end, orderType, i, j - 1);
    }
  }

  lemma OneStepClimbs(from: OrderStatus, to: OrderStatus, orderType: OrderType)
    requires CanTransition(from, to, orderType)
    ensures Progress(from) < Progress(to) || (Progress(from) == Progress(to) == 6)
    ensures Progress(from) <= 6
  {
  }

  lemma NoStatusComesBack(order: Order, i: nat, j: nat)
    requires SoundOrder(order) && i < j < |order.history| && order.history[i].to == order.history[j].to
    ensures order.history[i].to in {OutForDelivery, DeliveryFailed}
  {
    hide CanTransition, PaidOnHandover, StagesCovered, RightKind;
    HistoryClimbs(order.history, StatusAfterCheckout(order.payment), order.status, order.orderType, i, j);
  }

  // -- The whole shop --------------------------------------------------------------------

  /** A checked-out cart is one that some order came from; no other order did. */
  predicate CartsMatch(shop: Shop) {
    && (forall i :: 0 <= i < |shop.orders| ==> FromCheckedOutCart(shop, shop.orders[i]))
    && (forall i, j :: 0 <= i < j < |shop.orders| ==> shop.orders[i].cart != shop.orders[j].cart)
    && (forall c :: c in shop.carts && shop.carts[c].status == CHECKED_OUT ==> HasOrder(shop.orders, c))
  }

  predicate FromCheckedOutCart(shop: Shop, order: Order) {
    && order.cart in shop.carts && shop.carts[order.cart].status == CHECKED_OUT
    && shop.carts[order.cart].branch == order.branch && shop.carts[order.cart].orderType == order.orderType
  }

  predicate HasOrder(orders: seq<Order>, cart: nat) {
    exists i :: 0 <= i < |orders| && orders[i].cart == cart
  }

  function KeyOf(order: Order): (nat, int) {
    (order.branch, order.date)
  }

  predicate Taken(orders: seq<Order>, key: (nat, int), number: nat) {
    exists i :: 0 <= i < |orders| && KeyOf(orders[i]) == key && orders[i].number == number
  }

  ghost predicate PrintsItsNumber(order: Order) {
    exists slug :: order.printed == PrintNumber(slug, order.number)
  }

  /** The numbers given out at a branch on a day are 1 to the counter, each once. */
  ghost predicate NumbersGapFree(shop: Shop) {
    && (forall i :: 0 <= i < |shop.orders| ==> 1 <= shop.orders[i].number <= CounterAt(shop.counters, KeyOf(shop.orders[i])))
    && (forall i, j :: 0 <= i < j < |shop.orders| && KeyOf(shop.orders[i]) == KeyOf(shop.orders[j]) ==>
          shop.orders[i].number < shop.orders[j].number)
    && (forall key: (nat, int), n: nat :: 1 <= n <= CounterAt(shop.counters, key) ==> Taken(shop.orders, key, n))
    && (forall i :: 0 <= i < |shop.orders| ==> PrintsItsNumber(shop.orders[i]))
  }

  predicate Received(order: Order, customer: nat) {
    order.customer == customer && IsHandover(order.status)
  }

  function CountReceived(orders: seq<Order>, customer: nat): nat {
    if orders == [] then 0
    else CountReceived(orders[..|orders| - 1], customer) + if Received(orders[|orders| - 1], customer) then 1 else 0
  }

  function SpendReceived(orders: seq<Order>, customer: nat): int {
    if orders == [] then 0
    else
      SpendReceived(orders[..|orders| - 1], customer)
      + if Received(orders[|orders| - 1], customer) then orders[|orders| - 1].total else 0
  }

  /** Lifetime figures are those of the orders the customer received. */
  predicate LifetimeFigures(shop: Shop) {
    && (forall i :: 0 <= i < |shop.orders| ==> shop.orders[i].customer < |shop.customers|)
    && (forall c :: 0 <= c < |shop.customers| ==>
          && shop.customers[c].totalOrders == CountReceived(shop.orders, c)
          && shop.customers[c].totalSpend == SpendReceived(shop.orders, c))
  }

  predicate OneCustomerPerNumber(shop: Shop) {
    forall c, d :: 0 <= c < d < |shop.customers| ==> shop.customers[c].phone != shop.customers[d].phone
  }

  /** The status changes published about one order, in order. */
  function ChangesOf(outbox: seq<OrderEvent>, order: nat): seq<Entry> {
    if outbox == [] then []
    else
      ChangesOf(outbox[..|outbox| - 1], order)
      + match outbox[|outbox| - 1]
        case StatusChanged(o, from, to) => if o == order then [Entry(from, to)] else []
        case _ => []
  }

  /** The creations published about one order: its status when it was placed. */
  function CreationsOf(outbox: seq<OrderEvent>, order: nat): seq<OrderStatus> {
    if outbox == [] then []
    else
      CreationsOf(outbox[..|outbox| - 1], order)
      + match outbox[|outbox| - 1]
        case OrderCreated(o, status) => if o == order then [status] else []
        case _ => []
  }

  /** Publishing starts at confirmation: an order still awaiting payment has had no status change. */
  function Publishable(history: seq<Entry>): seq<Entry> {
    if history != [] && history[0] == Entry(None, PendingPayment) then history[1..] else history
  }

  /** Placed once, and every change since, in order; nothing about orders there are not. */
  predicate Told(shop: Shop, i: nat) {
    && ChangesOf(shop.outbox, i) == (if i < |shop.orders| then Publishable(shop.orders[i].history) else [])
    && CreationsOf(shop.outbox, i) == (if i < |shop.orders| && shop.orders[i].history != [] then [shop.orders[i].history[0].to] else [])
  }

  ghost predicate OutboxTellsTheHistory(shop: Shop) {
    forall i: nat :: Told(shop, i)
  }

  ghost predicate Sound(shop: Shop) {
    && (forall i :: 0 <= i < |shop.orders| ==> SoundOrder(shop.orders[i]))
    && CartsMatch(shop)
    && NumbersGapFree(shop)
    && LifetimeFigures(shop)
    && OneCustomerPerNumber(shop)
    && OutboxTellsTheHistory(shop)
  }

  // -- Placing an order keeps it -----------------------------------------------------------

  lemma PreparedFacts(shop: Shop, input: CheckoutInput)
    requires Prepare(shop, input).Ok?
    ensures input.cart in shop.carts && shop.carts[input.cart].status == ACTIVE
    ensures var ready := Prepare(shop, input).value;
      && FindOrCreate(shop.customers, input.phone) == Ok((ready.customers, ready.customer))
      && ready.priced.blockers == []
  {
    hide PriceCart, ResolveDelivery, Phone.NormalizePhone, FindCustomer;
  }

  lemma FoundOrCreated(customers: seq<Customer>, phone: string)
    requires FindOrCreate(customers, phone).Ok?
    ensures var (after, id) := FindOrCreate(customers, phone).value;
      && id < |after| && Phone.NormalizePhone(phone) == Ok(after[id].phone)
      && (after == customers || (after == customers + [NewCustomer(after[id].phone)]
            && id == |customers| && forall i :: 0 <= i < |customers| ==> customers[i].phone != after[id].phone))
  {
    hide Phone.NormalizePhone, FindCustomer;
  }

  lemma PlaceKeepsCarts(shop: Shop, input: CheckoutInput, ready: Cleared)
    requires CartsMatch(shop) && input.cart in shop.carts && shop.carts[input.cart].status == ACTIVE
    requires ready.customer < |ready.customers|
    ensures CartsMatch(Place(shop, input, ready))
  {
    hide CheckoutEvents, PrintNumber, CounterAt, HasOrder;
    var after := Place(shop, input, ready);
    var n := |shop.orders|;
    forall i | 0 <= i < |after.orders|
      ensures FromCheckedOutCart(after, after.orders[i])
    {
      if i < n { assert FromCheckedOutCart(shop, shop.orders[i]); }
    }
    forall c | c in after.carts && after.carts[c].status == CHECKED_OUT
      ensures HasOrder(after.orders, c)
    {
      if c == input.cart {
        HasOrderAt(after.orders, n);
      } else {
        HasOrderStays(shop.orders, after.orders, c);
      }
    }
  }

  lemma HasOrderAt(orders: seq<Order>, i: nat)
    requires i < |orders|
    ensures HasOrder(orders, orders[i].cart)
  {
  }

  lemma HasOrderStays(before: seq<Order>, after: seq<Order>, cart: nat)
    requires HasOrder(before, cart) && |before| <= |after|
    requires forall i :: 0 <= i < |before| ==> after[i].cart == before[i].cart
    ensures HasOrder(after, cart)
  {
    var i :| 0 <= i < |before| && before[i].cart == cart;
    assert after[i].cart == cart;
  }

  lemma TakenStays(before: seq<Order>, after: seq<Order>, key: (nat, int), n: nat)
    requires Taken(before, key, n) && |before| <= |after|
    requires forall i :: 0 <= i < |before| ==> KeyOf(after[i]) == KeyOf(before[i]) && after[i].number == before[i].number
    ensures Taken(after, key, n)
  {
    var i :| 0 <= i < |before| && KeyOf(before[i]) == key && before[i].number == n;
    assert KeyOf(after[i]) == key && after[i].number == n;
  }

  lemma PlaceKeepsNumbers(shop: Shop, input: CheckoutInput, ready: Cleared)
    requires NumbersGapFree(shop) && input.cart in shop.carts && ready.customer < |ready.customers|
    ensures NumbersGapFree(Place(shop, input, ready))
  {
    hide CheckoutEvents, PrintNumber, Taken;
    var after := Place(shop, input, ready);
    var n := |shop.orders|;
    var order := after.orders[n];
    assert PrintsItsNumber(order) by { assert order.printed == PrintNumber(input.slug, order.number); }
    forall i | 0 <= i < n
      ensures PrintsItsNumber(after.orders[i])
    {
      assert PrintsItsNumber(shop.orders[i]);
    }
    forall key: (nat, int), k: nat | 1 <= k <= CounterAt(after.counters, key)
      ensures Taken(after.orders, key, k)
    {
      if key == KeyOf(order) && k == order.number {
        TakenAt(after.orders, n);
      } else {
        TakenStays(shop.orders, after.orders, key, k);
      }
    }
  }

  lemma TakenAt(orders: seq<Order>, i: nat)
    requires i < |orders|
    ensures Taken(orders, KeyOf(orders[i]), orders[i].number)
  {
  }

  lemma {:induction false} NothingReceived(orders: seq<Order>, customer: nat)
    requires forall i :: 0 <= i < |orders| ==> orders[i].customer != customer
    ensures CountReceived(orders, customer) == 0 && SpendReceived(orders, customer) == 0
  {
    if orders != [] {
      NothingReceived(orders[..|orders| - 1], customer);
    }
  }

  lemma PlaceKeepsFigures(shop: Shop, input: CheckoutInput, ready: Cleared)
    requires LifetimeFigures(shop) && input.cart in shop.carts
    requires FindOrCreate(shop.customers, input.phone) == Ok((ready.customers, ready.customer))
    requires ready.customer < |ready.customers|
    ensures LifetimeFigures(Place(shop, input, ready))
  {
    hide CheckoutEvents, PrintNumber, CounterAt, FindOrCreate;
    FoundOrCreated(shop.customers, input.phone);
    var after := Place(shop, input, ready);
    assert after.orders[..|shop.orders|] == shop.orders;
    forall c | 0 <= c < |after.customers|
      ensures after.customers[c].totalOrders == CountReceived(after.orders, c)
      ensures after.customers[c].totalSpend == SpendReceived(after.orders, c)
    {
      if c == |shop.customers| {
        NothingReceived(shop.orders, c);
      }
    }
  }

  lemma PlaceKeepsPhones(shop: Shop, input: CheckoutInput, ready: Cleared)
    requires OneCustomerPerNumber(shop) && input.cart in shop.carts
    requires FindOrCreate(shop.customers, input.phone) == Ok((ready.customers, ready.customer))
    requires ready.customer < |ready.customers|
    ensures OneCustomerPerNumber(Place(shop, input, ready))
  {
    hide CheckoutEvents, PrintNumber, CounterAt, FindOrCreate;
    FoundOrCreated(shop.customers, input.phone);
    assert forall c :: 0 <= c < |ready.customers| ==> Place(shop, input, ready).customers[c].phone == ready.customers[c].phone;
  }

  lemma OneMoreEvent(outbox: seq<OrderEvent>, event: OrderEvent, order: nat)
    ensures ChangesOf(outbox + [event], order)
         == ChangesOf(outbox, order)
            + if event.StatusChanged? && event.order == order then [Entry(event.from, event.to)] else []
    ensures CreationsOf(outbox + [event], order)
         == CreationsOf(outbox, order) + if event.OrderCreated? && event.order == order then [event.status] else []
  {
    assert (outbox + [event])[..|outbox|] == outbox;
  }

  lemma PlaceKeepsOutbox(shop: Shop, input: CheckoutInput, ready: Cleared)
    requires OutboxTellsTheHistory(shop) && input.cart in shop.carts && ready.customer < |ready.customers|
    ensures OutboxTellsTheHistory(Place(shop, input, ready))
  {
    hide PrintNumber, CounterAt, ChangesOf, CreationsOf;
    var after := Place(shop, input, ready);
    var n := |shop.orders|;
    var created := shop.outbox + [OrderCreated(n, after.orders[n].status)];
    assert after.orders[n].status == Confirmed ==> after.outbox == created + [StatusChanged(n, None, Confirmed)];
    assert after.orders[n].status != Confirmed ==> after.outbox == created;
    forall i: nat
      ensures Told(after, i)
    {
      assert Told(shop, i);
      OneMoreEvent(shop.outbox, OrderCreated(n, after.orders[n].status), i);
      OneMoreEvent(created, StatusChanged(n, None, Confirmed), i);
    }
  }

  lemma CheckoutKeepsSound(shop: Shop, input: CheckoutInput)
    requires Sound(shop) && Checkout(shop, input).Ok?
    ensures Sound(Checkout(shop, input).value)
  {
    hide Prepare, FindOrCreate, SoundOrder, CartsMatch, NumbersGapFree, LifetimeFigures, OneCustomerPerNumber, OutboxTellsTheHistory;
    var ready := Prepare(shop, input).value;
    PreparedFacts(shop, input);
    NewOrderIsSound(shop, input, ready);
    PlaceKeepsCarts(shop, input, ready);
    PlaceKeepsNumbers(shop, input, ready);
    PlaceKeepsFigures(shop, input, ready);
    PlaceKeepsPhones(shop, input, ready);
    PlaceKeepsOutbox(shop, input, ready);
  }

  // -- Moving an order keeps it -----------------------------------------------------------------

  lemma {:induction false} OneOrderChanged(orders: seq<Order>, i: nat, moved: Order, customer: nat)
    requires i < |orders| && moved.total == orders[i].total
    requires Received(orders[i], customer) ==> Received(moved, customer)
    ensures CountReceived(orders[i := moved], customer)
         == CountReceived(orders, customer) + if Received(moved, customer) && !Received(orders[i], customer) then 1 else 0
    ensures SpendReceived(orders[i := moved], customer)
         == SpendReceived(orders, customer) + if Received(moved, customer) && !Received(orders[i], customer) then moved.total else 0
  {
    hide Received;
    var after := orders[i := moved];
    var last := |orders| - 1;
    if i == last {
      assert after[..last] == orders[..last];
    } else {
      assert after[..last] == orders[..last][i := moved];
      OneOrderChanged(orders[..last], i, moved, customer);
    }
  }

  lemma MoveFacts(shop: Shop, input: MoveInput)
    requires TransitionOrder(shop, input).Ok?
    ensures input.order < |shop.orders|
    ensures var order := shop.orders[input.order];
      && CanTransition(order.status, input.to, order.orderType)
      && !IsHandover(order.status)
  {
    var order := shop.orders[input.order];
    TableDecides(order.status, input.to, order.orderType);
  }

  lemma MoveKeepsFigures(shop: Shop, input: MoveInput)
    requires LifetimeFigures(shop) && TransitionOrder(shop, input).Ok?
    ensures LifetimeFigures(TransitionOrder(shop, input).value)
  {
    MoveFacts(shop, input);
    hide MoveRefusal, Stamp, ShouldMarkPaid, CanTransition, CountReceived, SpendReceived;
    var after := TransitionOrder(shop, input).value;
    forall c: nat | c < |after.customers|
      ensures after.customers[c].totalOrders == CountReceived(after.orders, c)
      ensures after.customers[c].totalSpend == SpendReceived(after.orders, c)
    {
      OneOrderChanged(shop.orders, input.order, after.orders[input.order], c);
    }
  }

  /** What an order was when it was placed, and stays. */
  predicate SameReceipt(before: Order, after: Order) {
    && after.cart == before.cart && after.branch == before.branch && after.date == before.date
    && after.number == before.number && after.printed == before.printed && after.customer == before.customer
    && after.orderType == before.orderType && after.payment == before.payment
    && after.lines == before.lines && after.total == before.total
  }

  predicate SameReceipts(before: seq<Order>, after: seq<Order>) {
    |after| >= |before| && forall i :: 0 <= i < |before| ==> SameReceipt(before[i], after[i])
  }

  lemma MoveKeepsReceipts(shop: Shop, input: MoveInput)
    requires TransitionOrder(shop, input).Ok?
    ensures var after := TransitionOrder(shop, input).value;
      && SameReceipts(shop.orders, after.orders) && |after.orders| == |shop.orders|
      && after.carts == shop.carts && after.counters == shop.counters
  {
    MoveFacts(shop, input);
    hide MoveRefusal, Stamp, ShouldMarkPaid;
  }

  lemma ReceiptsKeepCarts(shop: Shop, after: Shop)
    requires CartsMatch(shop) && SameReceipts(shop.orders, after.orders) && |after.orders| == |shop.orders|
    requires after.carts == shop.carts
    ensures CartsMatch(after)
  {
    hide HasOrder;
    forall i | 0 <= i < |after.orders|
      ensures FromCheckedOutCart(after, after.orders[i])
    {
      assert FromCheckedOutCart(shop, shop.orders[i]) && SameReceipt(shop.orders[i], after.orders[i]);
    }
    forall c | c in after.carts && after.carts[c].status == CHECKED_OUT
      ensures HasOrder(after.orders, c)
    {
      HasOrderStays(shop.orders, after.orders, c);
    }
  }

  lemma ReceiptsKeepNumbers(shop: Shop, after: Shop)
    requires NumbersGapFree(shop) && SameReceipts(shop.orders, after.orders) && |after.orders| == |shop.orders|
    requires after.counters == shop.counters
    ensures NumbersGapFree(after)
  {
    hide Taken;
    forall i | 0 <= i < |after.orders|
      ensures PrintsItsNumber(after.orders[i]) && after.orders[i].number == shop.orders[i].number && KeyOf(after.orders[i]) == KeyOf(shop.orders[i])
    {
      assert PrintsItsNumber(shop.orders[i]) && SameReceipt(shop.orders[i], after.orders[i]);
      PrintsTheSame(shop.orders[i], after.orders[i]);
    }
    forall key: (nat, int), k: nat | 1 <= k <= CounterAt(after.counters, key)
      ensures Taken(after.orders, key, k)
    {
      TakenStays(shop.orders, after.orders, key, k);
    }
  }

  lemma MoveKeepsPhones(shop: Shop, input: MoveInput)
    requires OneCustomerPerNumber(shop) && TransitionOrder(shop, input).Ok?
    ensures OneCustomerPerNumber(TransitionOrder(shop, input).value)
  {
    hide MoveRefusal, Stamp, ShouldMarkPaid;
  }

  lemma PrintsTheSame(before: Order, after: Order)
    requires PrintsItsNumber(before) && after.printed == before.printed && after.number == before.number
    ensures PrintsItsNumber(after)
  {
    var slug :| before.printed == PrintNumber(slug, before.number);
    assert after.printed == PrintNumber(slug, after.number);
  }

  lemma PublishableGrows(history: seq<Entry>, entry: Entry)
    requires history != []
    ensures Publishable(history + [entry]) == Publishable(history) + [entry]
    ensures (history + [entry])[0] == history[0]
  {
  }

  lemma MoveKeepsOutbox(shop: Shop, input: MoveInput)
    requires OutboxTellsTheHistory(shop) && TransitionOrder(shop, input).Ok?
    requires shop.orders[input.order].history != []
    ensures OutboxTellsTheHistory(TransitionOrder(shop, input).value)
  {
    MoveFacts(shop, input);
    hide MoveRefusal, Stamp, ShouldMarkPaid, CanTransition, ChangesOf, CreationsOf, Publishable;
    var after := TransitionOrder(shop, input).value;
    var event := StatusChanged(input.order, Some(shop.orders[input.order].status), input.to);
    PublishableGrows(shop.orders[input.order].history, Entry(Some(shop.orders[input.order].status), input.to));
    forall i: nat
      ensures Told(after, i)
    {
      assert Told(shop, i);
      OneMoreEvent(shop.outbox, event, i);
    }
  }

  lemma TransitionKeepsSound(shop: Shop, input: MoveInput)
    requires Sound(shop) && TransitionOrder(shop, input).Ok?
    ensures Sound(TransitionOrder(shop, input).value)
  {
    MoveFacts(shop, input);
    hide MoveRefusal, CartsMatch, NumbersGapFree, LifetimeFigures, OneCustomerPerNumber, OutboxTellsTheHistory, CanTransition,
         PaidOnHandover, StagesCovered, RightKind;
    var order := shop.orders[input.order];
    assert SoundOrder(order);
    MoveKeepsOrder(order, input.to, input.now);
    MoveKeepsFigures(shop, input);
    MoveKeepsReceipts(shop, input);
    ReceiptsKeepCarts(shop, TransitionOrder(shop, input).value);
    ReceiptsKeepNumbers(shop, TransitionOrder(shop, input).value);
    MoveKeepsPhones(shop, input);
    MoveKeepsOutbox(shop, input);
    hide SoundOrder;
    var after := TransitionOrder(shop, input).value;
    assert after.orders == shop.orders[input.order := Moved(order, input.to, input.now)];
  }

  // -- Every run keeps it --------------------------------------------------------------------

  lemma EditKeepsSound(shop: Shop, cart: nat, edit: CartEdit, prices: Prices, zones: Option<seq<Zone>>)
    requires Sound(shop)
    ensures Sound(Apply(shop, Edit(cart, edit, prices, zones)))
  {
    hide SoundOrder, NumbersGapFree, LifetimeFigures, OneCustomerPerNumber, OutboxTellsTheHistory, EditItems, PriceCart, HasOrder;
    EditStaysActive(shop, cart, edit, prices, zones);
    var after := Apply(shop, Edit(cart, edit, prices, zones));
    SameOtherTables(shop, after);
    forall i | 0 <= i < |after.orders|
      ensures FromCheckedOutCart(after, after.orders[i])
    {
      assert FromCheckedOutCart(shop, shop.orders[i]);
    }
  }

  lemma EditStaysActive(shop: Shop, cart: nat, edit: CartEdit, prices: Prices, zones: Option<seq<Zone>>)
    ensures var after := Apply(shop, Edit(cart, edit, prices, zones));
      && after == shop.(carts := after.carts)
      && (after == shop || (cart in shop.carts && shop.carts[cart].status == ACTIVE
           && exists c: Cart :: c.status == ACTIVE && c.branch == shop.carts[cart].branch && after.carts == shop.carts[cart := c]))
  {
    hide PriceCart, ChoicesFor;
  }

  lemma SameOtherTables(shop: Shop, after: Shop)
    requires Sound(shop) && after == shop.(carts := after.carts)
    ensures NumbersGapFree(after) && LifetimeFigures(after) && OneCustomerPerNumber(after) && OutboxTellsTheHistory(after)
    ensures forall i :: 0 <= i < |after.orders| ==> SoundOrder(after.orders[i])
  {
    hide SoundOrder, CartsMatch;
    forall i: nat
      ensures Told(after, i)
    {
      assert Told(shop, i);
    }
  }

  lemma CustomerStepKeepsSound(shop: Shop, step: Step)
    requires Sound(shop) && (step.Register? || step.ChangePhone? || step.SetBlocked?)
    ensures Sound(Apply(shop, step))
  {
    hide SoundOrder, CartsMatch, NumbersGapFree, OutboxTellsTheHistory, FindOrCreate, CountReceived, SpendReceived, Phone.NormalizePhone, FindCustomer;
    var after := Apply(shop, step);
    assert after == shop.(customers := after.customers);
    SameCustomerFreeTables(shop, after);
    if step.Register? && FindOrCreate(shop.customers, step.phone).Ok? {
      FoundOrCreated(shop.customers, step.phone);
      NothingReceived(shop.orders, |shop.customers|);
    }
  }

  lemma SameCustomerFreeTables(shop: Shop, after: Shop)
    requires Sound(shop) && after == shop.(customers := after.customers)
    ensures CartsMatch(after) && NumbersGapFree(after) && OutboxTellsTheHistory(after)
    ensures forall i :: 0 <= i < |after.orders| ==> SoundOrder(after.orders[i])
  {
    hide SoundOrder, LifetimeFigures, OneCustomerPerNumber;
    forall i: nat
      ensures Told(after, i)
    {
      assert Told(shop, i);
    }
    forall i | 0 <= i < |after.orders|
      ensures FromCheckedOutCart(after, after.orders[i])
    {
      assert FromCheckedOutCart(shop, shop.orders[i]);
    }
  }

  lemma StepKeepsSound(shop: Shop, step: Step)
    requires Sound(shop)
    ensures Sound(Apply(shop, step))
  {
    hide SoundOrder, NumbersGapFree, LifetimeFigures, OneCustomerPerNumber, OutboxTellsTheHistory, Checkout, TransitionOrder, EditCart, HasOrder, Sound;
    match step
    case CreateCart(cart, branch, orderType) =>
      CreateKeepsSound(shop, cart, branch, orderType);
    case Edit(cart, edit, prices, zones) => EditKeepsSound(shop, cart, edit, prices, zones);
    case PlaceOrder(input) => if Checkout(shop, input).Ok? { CheckoutKeepsSound(shop, input); }
    case MoveOrder(input) => if TransitionOrder(shop, input).Ok? { TransitionKeepsSound(shop, input); }
    case _ => CustomerStepKeepsSound(shop, step);
  }

  lemma CreateKeepsSound(shop: Shop, cart: nat, branch: nat, orderType: OrderType)
    requires Sound(shop)
    ensures Sound(Apply(shop, CreateCart(cart, branch, orderType)))
  {
    hide SoundOrder, NumbersGapFree, LifetimeFigures, OneCustomerPerNumber, OutboxTellsTheHistory, HasOrder;
    var after := Apply(shop, CreateCart(cart, branch, orderType));
    SameOtherTables(shop, after);
    forall i | 0 <= i < |after.orders|
      ensures FromCheckedOutCart(after, after.orders[i])
    {
      assert FromCheckedOutCart(shop, shop.orders[i]);
    }
  }

  lemma {:induction false} RunKeepsSound(shop: Shop, steps: seq<Step>)
    requires Sound(shop)
    ensures Sound(Run(shop, steps))
    decreases steps
  {
    hide Sound, Apply;
    if steps != [] {
      StepKeepsSound(shop, steps[0]);
      RunKeepsSound(Apply(shop, steps[0]), steps[1..]);
    }
  }

  /** In every reachable state all of the above holds. */
  lemma EveryRunIsSound(steps: seq<Step>)
    ensures Sound(Run(EMPTY, steps))
  {
    RunKeepsSound(EMPTY, steps);
  }

  // -- What follows ---------------------------------------------------------------------------

  lemma StepKeepsReceipts(shop: Shop, step: Step)
    ensures SameReceipts(shop.orders, Apply(shop, step).orders)
  {
    hide Prepare, TransitionOrder, EditItems, PriceCart, FindOrCreate, WithPhone, PrintNumber, CounterAt;
    match step
    case MoveOrder(input) => if TransitionOrder(shop, input).Ok? { MoveKeepsReceipts(shop, input); }
    case _ =>
  }

  /** Nothing that happens later rewrites a receipt. */
  lemma {:induction false} ReceiptsAreForever(shop: Shop, steps: seq<Step>)
    ensures SameReceipts(shop.orders, Run(shop, steps).orders)
    decreases steps
  {
    hide Apply, SameReceipt;
    if steps == [] {
      forall i | 0 <= i < |shop.orders|
        ensures SameReceipt(shop.orders[i], shop.orders[i])
      {
        SameReceiptIsOrder(shop.orders[i], shop.orders[i], shop.orders[i]);
      }
    } else {
      var next := Apply(shop, steps[0]);
      StepKeepsReceipts(shop, steps[0]);
      ReceiptsAreForever(next, steps[1..]);
      forall i | 0 <= i < |shop.orders|
        ensures SameReceipt(shop.orders[i], Run(shop, steps).orders[i])
      {
        SameReceiptIsOrder(shop.orders[i], next.orders[i], Run(shop, steps).orders[i]);
      }
    }
  }

  lemma SameReceiptIsOrder(a: Order, b: Order, c: Order)
    ensures SameReceipt(a, a)
    ensures SameReceipt(a, b) && SameReceipt(b, c) ==> SameReceipt(a, c)
  {
  }

  lemma StepFreezes(shop: Shop, step: Step, cart: nat)
    requires cart in shop.carts && shop.carts[cart].status == CHECKED_OUT
    ensures var after := Apply(shop, step); cart in after.carts && after.carts[cart] == shop.carts[cart]
  {
    hide EditItems, PriceCart, FindOrCreate, ResolveDelivery, WithPhone, MoveRefusal, PrintNumber;
  }

  /** A checked-out cart never changes again. */
  lemma {:induction false} CheckedOutCartIsFrozen(shop: Shop, steps: seq<Step>, cart: nat)
    requires cart in shop.carts && shop.carts[cart].status == CHECKED_OUT
    ensures var after := Run(shop, steps); cart in after.carts && after.carts[cart] == shop.carts[cart]
    decreases steps
  {
    hide Apply;
    if steps != [] {
      StepFreezes(shop, steps[0], cart);
      CheckedOutCartIsFrozen(Apply(shop, steps[0]), steps[1..], cart);
    }
  }

  /**
   * A checkout tried again for the same cart, whatever happened in between and
   * under whatever key, is refused: so a crash after the order was placed and
   * before the conversation was saved cannot place it twice.
   */
  lemma RetryPlacesNothing(shop: Shop, input: CheckoutInput, steps: seq<Step>, again: CheckoutInput)
    requires Checkout(shop, input).Ok? && again.cart == input.cart
    ensures Checkout(Run(Checkout(shop, input).value, steps), again) == Err(AlreadyCheckedOut)
  {
    hide FindOrCreate, ResolveDelivery, PriceCart, NewOrder;
    CheckedOutCartIsFrozen(Checkout(shop, input).value, steps, input.cart);
  }

  /** The cart as it was when it was checked out is what its one order is for, at every later time. */
  lemma CartBecomesOneOrder(before: seq<Step>, input: CheckoutInput, steps: seq<Step>)
    requires Checkout(Run(EMPTY, before), input).Ok?
    ensures var shop := Run(EMPTY, before);
      var end := Run(Checkout(shop, input).value, steps);
      && |shop.orders| < |end.orders|
      && forall i :: 0 <= i < |end.orders| ==> (end.orders[i].cart == input.cart <==> i == |shop.orders|)
  {
    hide Sound, NewOrder, Prepare;
    var shop := Run(EMPTY, before);
    var placed := Checkout(shop, input).value;
    EveryRunIsSound(before);
    CheckoutKeepsSound(shop, input);
    RunKeepsSound(placed, steps);
    ReceiptsAreForever(placed, steps);
    OneOrderEach(Run(placed, steps));
    assert placed.orders[|shop.orders|].cart == input.cart by { PreparedFacts(shop, input); NewOrderFromCart(shop, input); }
    assert SameReceipt(placed.orders[|shop.orders|], Run(placed, steps).orders[|shop.orders|]);
  }

  lemma NewOrderFromCart(shop: Shop, input: CheckoutInput)
    requires Checkout(shop, input).Ok?
    ensures Checkout(shop, input).value.orders[|shop.orders|].cart == input.cart
  {
    hide Prepare;
  }

  lemma OneOrderEach(shop: Shop)
    requires Sound(shop)
    ensures forall i, j :: 0 <= i < |shop.orders| && 0 <= j < |shop.orders| && shop.orders[i].cart == shop.orders[j].cart ==> i == j
  {
    hide SoundOrder, NumbersGapFree, LifetimeFigures, OneCustomerPerNumber, OutboxTellsTheHistory, HasOrder;
  }

  lemma {:induction false} LastDash(prefix: string, digits: string, otherPrefix: string, otherDigits: string)
    requires AllDigits(digits) && AllDigits(otherDigits)
    requires prefix + "-" + digits == otherPrefix + "-" + otherDigits
    ensures digits == otherDigits
  {
    var s := prefix + "-" + digits;
    var dash, otherDash := |s| - |digits| - 1, |s| - |otherDigits| - 1;
    assert s[dash] == '-' && s[otherDash] == '-';
    assert forall i :: dash < i < |s| ==> IsDigit(s[i]);
    assert forall i :: otherDash < i < |s| ==> IsDigit((otherPrefix + "-" + otherDigits)[i]);
    assert digits == s[dash + 1..] && otherDigits == s[otherDash + 1..];
  }

  lemma PrintedNumbersTell(slug: string, number: nat, otherSlug: string, otherNumber: nat)
    requires PrintNumber(slug, number) == PrintNumber(otherSlug, otherNumber)
    ensures number == otherNumber
  {
    PadStartKeepsValue(number, 4);
    PadStartKeepsValue(otherNumber, 4);
    hide PadStart, UpperCase;
    LastDash(UpperCase(if |slug| > 6 then slug[..6] else slug), PadStart(Digits(number), 4),
             UpperCase(if |otherSlug| > 6 then otherSlug[..6] else otherSlug), PadStart(Digits(otherNumber), 4));
  }

  /** Two orders of one branch and day never print alike, even if the branch's slug has changed in between. */
  lemma PrintedNumbersDiffer(steps: seq<Step>, i: nat, j: nat)
    requires var orders := Run(EMPTY, steps).orders;
      i < j < |orders| && KeyOf(orders[i]) == KeyOf(orders[j])
    ensures Run(EMPTY, steps).orders[i].printed != Run(EMPTY, steps).orders[j].printed
  {
    var shop := Run(EMPTY, steps);
    EveryRunIsSound(steps);
    hide SoundOrder, CartsMatch, LifetimeFigures, OneCustomerPerNumber, OutboxTellsTheHistory, PrintNumber, Taken;
    var a, b := shop.orders[i], shop.orders[j];
    assert PrintsItsNumber(a) && PrintsItsNumber(b);
    var slug :| a.printed == PrintNumber(slug, a.number);
    var other :| b.printed == PrintNumber(other, b.number);
    if a.printed == b.printed {
      PrintedNumbersTell(slug, a.number, other, b.number);
    }
  }

  /** Where an order can go: anywhere if it is not delivered, else to a saved address of the customer's own or to one written out. */
  predicate CanGoTo(orderType: OrderType, customer: nat, address: Address) {
    || orderType != Delivery
    || (address.Saved? && address.owner == Some(customer))
    || (address.Inline? && address.text != [])
  }

  /** The zones as seen from where a delivery goes, when that is a place on the map. */
  function SeenFrom(orderType: OrderType, address: Address, zones: seq<Zone>): Option<seq<Zone>> {
    if orderType == Delivery && !address.NoAddress? && address.located then Some(zones) else None
  }

  /** The cart as its customer would see it priced for delivery there. */
  function PreviewFor(cart: Cart, input: CheckoutInput): Result<PricedCart, CartError> {
    PriceCart(PriceRequest(cart.items, input.prices.menu, input.prices.currency, input.prices.settings, cart.orderType,
                           SeenFrom(cart.orderType, input.address, input.zones), Money.Zero(input.prices.currency)), false)
  }

  /**
   * When a cart may be checked out: exactly when it is still active, the customer
   * and the address are usable, and its preview shows no blocker. Then it charges
   * what the preview showed.
   */
  lemma CheckoutChargesThePreview(shop: Shop, input: CheckoutInput)
    ensures Checkout(shop, input).Ok? <==>
      && input.cart in shop.carts && shop.carts[input.cart].status == ACTIVE
      && FindOrCreate(shop.customers, input.phone).Ok?
      && var cart, (customers, id) := shop.carts[input.cart], FindOrCreate(shop.customers, input.phone).value;
         && !customers[id].isBlocked
         && CanGoTo(cart.orderType, id, input.address)
         && PreviewFor(cart, input).Ok? && PreviewFor(cart, input).value.blockers == []
    ensures Checkout(shop, input).Ok? ==>
      var preview := PreviewFor(shop.carts[input.cart], input).value;
      var orders := Checkout(shop, input).value.orders;
      && orders[..|shop.orders|] == shop.orders && |orders| == |shop.orders| + 1
      && orders[|shop.orders|].lines == preview.lines
      && orders[|shop.orders|].total == preview.totals.total.minor
  {
    hide PriceCart, FindOrCreate, PrintNumber, CounterAt;
    if LoadActiveCart(shop, input.cart).Ok? {
      var cart := shop.carts[input.cart];
      StrictAgreesWithPreview(RequestFor(cart, input.prices, SeenFrom(cart.orderType, input.address, input.zones)));
    }
  }

  /** The number as printed: the start of the branch's name in capitals, a dash, and the number in at least four digits. */
  predicate Prints(printed: string, slug: string, number: nat) {
    var n := if |slug| < 6 then |slug| else 6;
    && |printed| >= n + 5 && printed[n] == '-'
    && (forall i :: 0 <= i < n ==>
          printed[i] == if 'a' <= slug[i] <= 'z' then (slug[i] as int - 'a' as int + 'A' as int) as char else slug[i])
    && AllDigits(printed[n + 1..]) && Value(printed[n + 1..]) == number
    && (|printed| > n + 5 ==> printed[n + 1] != '0')
  }

  lemma PrintedSays(slug: string, number: nat)
    ensures Prints(PrintNumber(slug, number), slug, number)
  {
    hide Digits, Value, UpperCase, PadStart;
    var start, numeral := UpperCase(if |slug| > 6 then slug[..6] else slug), PadStart(Digits(number), 4);
    PadStartKeepsValue(number, 4);
    PaddedLength(number);
    assert PrintNumber(slug, number)[|start| + 1..] == numeral;
    CapitalsOf(if |slug| > 6 then slug[..6] else slug);
  }

  lemma CapitalsOf(s: string)
    ensures forall i :: 0 <= i < |s| ==>
      UpperCase(s)[i] == if 'a' <= s[i] <= 'z' then (s[i] as int - 'a' as int + 'A' as int) as char else s[i]
  {
  }

  lemma PaddedLength(number: nat)
    ensures |PadStart(Digits(number), 4)| >= 4
    ensures |PadStart(Digits(number), 4)| > 4 ==> PadStart(Digits(number), 4)[0] != '0'
  {
    hide Digits;
  }

  /** What a checkout writes: the order, the cart it came from, its number, and the events. */
  lemma CheckoutWrites(shop: Shop, input: CheckoutInput)
    requires Checkout(shop, input).Ok?
    ensures var after := Checkout(shop, input).value;
      var cart, order := shop.carts[input.cart], after.orders[|shop.orders|];
      var key := (cart.branch, input.date);
      && order.cart == input.cart && order.branch == cart.branch && order.orderType == cart.orderType && order.date == input.date
      && order.payment == input.payment
      && order.status == (if input.payment == Online then PendingPayment else Confirmed)
      && order.paymentStatus == (if input.payment == Online then PENDING else UNPAID)
      && order.history == [Entry(None, order.status)]
      && order.number == (if key in shop.counters then shop.counters[key] else 0) + 1
      && Prints(order.printed, input.slug, order.number)
      && after.counters == shop.counters[key := order.number]
      && after.carts == shop.carts[input.cart := cart.(status := CHECKED_OUT)]
      && after.outbox == shop.outbox + [OrderCreated(|shop.orders|, order.status)]
           + (if input.payment == Online then [] else [StatusChanged(|shop.orders|, None, Confirmed)])
  {
    hide PriceCart, FindOrCreate, PrintNumber, ResolveDelivery, Prints;
    var order := Checkout(shop, input).value.orders[|shop.orders|];
    PrintedSays(input.slug, order.number);
  }

  /** Who may move an order where: the table decides; cancelling takes a reason, and the right to cancel once the kitchen has started. */
  lemma MoveAllowedIff(shop: Shop, input: MoveInput)
    ensures TransitionOrder(shop, input).Ok? <==>
      && input.order < |shop.orders|
      && var order := shop.orders[input.order];
         && CanTransition(order.status, input.to, order.orderType)
         && (input.to == Cancelled || input.to == Rejected ==>
               input.hasReason && (input.mayCancel || order.status in {Draft, PendingPayment, Confirmed}))
  {
    if input.order < |shop.orders| {
      TableDecides(shop.orders[input.order].status, input.to, shop.orders[input.order].orderType);
    }
    hide CanTransition, AssertTransition;
  }

  lemma NothingBlocksNothing(request: PriceRequest)
    requires PriceCart(request, true).Ok? && PriceCart(request, true).value.blockers == []
    ensures PriceCart(request, true).value.lines != []
  {
    hide PriceLines, Pricing.ComputeOrderTotals, PricedLines, Threshold, ResolveDeliveryFee;
    var priced := PriceLines(request.items, request.menu, request.currency, true).value;
    assert Finish(request, priced).value.lines == priced.lines;
  }

  /** An order placed is for something, by a customer who may order, to an address of their own. */
  lemma CheckoutIsWarranted(shop: Shop, input: CheckoutInput)
    requires Checkout(shop, input).Ok?
    ensures var after := Checkout(shop, input).value;
      var order := after.orders[|shop.orders|];
      && order.lines != [] && order.orderType == shop.carts[input.cart].orderType
      && order.customer < |after.customers|
      && var customer := after.customers[order.customer];
         && Phone.NormalizePhone(input.phone) == Ok(customer.phone)
         && !customer.isBlocked && customer.lastOrderAt == Some(input.now)
         && (if order.customer < |shop.customers|
             then var before := shop.customers[order.customer];
               && customer == before.(lastOrderAt := customer.lastOrderAt, firstOrderAt := customer.firstOrderAt)
               && customer.firstOrderAt == if before.firstOrderAt.Some? then before.firstOrderAt else Some(input.now)
             else customer == Customer(customer.phone, false, 0, 0, Some(input.now), Some(input.now)))
         && (order.orderType == Delivery ==>
               (input.address.Saved? && input.address.owner == Some(order.customer))
               || (input.address.Inline? && input.address.text != []))
         && forall i :: 0 <= i < |shop.customers| && i != order.customer ==>
              i < |after.customers| && after.customers[i] == shop.customers[i]
  {
    hide PriceCart, FindOrCreate, PrintNumber, CounterAt;
    var cart, found := shop.carts[input.cart], FindOrCreate(shop.customers, input.phone).value;
    FoundOrCreated(shop.customers, input.phone);
    var located := ResolveDelivery(cart.orderType, found.1, input.address).value;
    NothingBlocksNothing(RequestFor(cart, input.prices, ZonesSeen(located, input.zones)));
  }

  /** A customer's number is changed to any readable one that nobody has, and nothing else of anybody's is. */
  lemma PhoneChangedIff(shop: Shop, customer: nat, input: string)
    requires customer < |shop.customers|
    ensures var after := Apply(shop, ChangePhone(customer, input));
      var phone := Phone.NormalizePhone(input);
      after == if phone.Ok? && (forall i :: 0 <= i < |shop.customers| ==> shop.customers[i].phone != phone.value)
               then shop.(customers := shop.customers[customer := shop.customers[customer].(phone := phone.value)])
               else shop
  {
    hide Phone.NormalizePhone;
  }

  lemma StepKeepsFirstOrder(shop: Shop, step: Step, customer: nat)
    requires customer < |shop.customers| && shop.customers[customer].firstOrderAt.Some?
    ensures var after := Apply(shop, step);
      customer < |after.customers| && after.customers[customer].firstOrderAt == shop.customers[customer].firstOrderAt
  {
    hide PriceCart, EditItems, FindOrCreate, ResolveDelivery, MoveRefusal, NewOrder, CheckoutEvents, Phone.NormalizePhone, FindCustomer;
    match step
    case PlaceOrder(input) => if FindOrCreate(shop.customers, input.phone).Ok? { FoundOrCreated(shop.customers, input.phone); }
    case Register(phone) => if FindOrCreate(shop.customers, phone).Ok? { FoundOrCreated(shop.customers, phone); }
    case _ =>
  }

  /** When a customer first ordered is written once. */
  lemma {:induction false} FirstOrderIsForever(shop: Shop, steps: seq<Step>, customer: nat)
    requires customer < |shop.customers| && shop.customers[customer].firstOrderAt.Some?
    ensures var after := Run(shop, steps);
      customer < |after.customers| && after.customers[customer].firstOrderAt == shop.customers[customer].firstOrderAt
    decreases steps
  {
    hide Apply;
    if steps != [] {
      StepKeepsFirstOrder(shop, steps[0], customer);
      FirstOrderIsForever(Apply(shop, steps[0]), steps[1..], customer);
    }
  }

  // -- Stage times -----------------------------------------------------------------------------

  predicate NotAfter(a: Option<int>, b: Option<int>) {
    a.Some? && b.Some? ==> a.value <= b.value
  }

  predicate StampsInOrder(s: Stamps) {
    && NotAfter(s.confirmedAt, s.acceptedAt) && NotAfter(s.acceptedAt, s.preparingAt) && NotAfter(s.preparingAt, s.readyAt)
    && NotAfter(s.readyAt, s.dispatchedAt) && NotAfter(s.readyAt, s.completedAt) && NotAfter(s.dispatchedAt, s.completedAt)
    && NotAfter(s.confirmedAt, s.cancelledAt) && NotAfter(s.acceptedAt, s.cancelledAt)
    && NotAfter(s.preparingAt, s.cancelledAt) && NotAfter(s.readyAt, s.cancelledAt)
  }

  predicate StampedBy(s: Stamps, now: int) {
    && NotAfter(s.confirmedAt, Some(now)) && NotAfter(s.acceptedAt, Some(now)) && NotAfter(s.preparingAt, Some(now))
    && NotAfter(s.readyAt, Some(now)) && NotAfter(s.dispatchedAt, Some(now)) && NotAfter(s.completedAt, Some(now))
    && NotAfter(s.cancelledAt, Some(now))
  }

  predicate Timely(shop: Shop, now: int) {
    forall i :: 0 <= i < |shop.orders| ==>
      SoundOrder(shop.orders[i]) && StampsInOrder(shop.orders[i].stamps) && StampedBy(shop.orders[i].stamps, now)
  }

  function ClockOf(step: Step, before: int): int {
    match step
    case PlaceOrder(input) => input.now
    case MoveOrder(input) => input.now
    case _ => before
  }

  predicate ClockNeverGoesBack(steps: seq<Step>, now: int) {
    steps == [] || (now <= ClockOf(steps[0], now) && ClockNeverGoesBack(steps[1..], ClockOf(steps[0], now)))
  }

  lemma MoveKeepsTimes(order: Order, to: OrderStatus, before: int, now: int)
    requires StagesCovered(order) && CanTransition(order.status, to, order.orderType)
    requires RightKind(order.status, order.orderType)
    requires StampsInOrder(order.stamps) && StampedBy(order.stamps, before) && before <= now
    ensures StampsInOrder(Moved(order, to, now).stamps) && StampedBy(Moved(order, to, now).stamps, now)
  {
  }

  lemma MoveStepKeepsTimes(shop: Shop, input: MoveInput, now: int)
    requires Timely(shop, now) && now <= input.now && TransitionOrder(shop, input).Ok?
    ensures Timely(TransitionOrder(shop, input).value, input.now)
  {
    MoveFacts(shop, input);
    hide MoveRefusal, SoundOrder, Stamp, ShouldMarkPaid, CanTransition, StagesCovered, RightKind, StampsInOrder, StampedBy;
    var order := shop.orders[input.order];
    assert SoundOrder(order);
    MoveKeepsOrder(order, input.to, input.now);
    LastEntry(order);
    SoundIsCovered(order);
    MoveKeepsTimes(order, input.to, now, input.now);
    LaterIsLater(shop, now, input.now);
  }

  lemma PlaceStepKeepsTimes(shop: Shop, input: CheckoutInput, now: int)
    requires Timely(shop, now) && now <= input.now && Checkout(shop, input).Ok?
    ensures Timely(Checkout(shop, input).value, input.now)
  {
    hide Prepare, SoundOrder, PrintNumber, CounterAt;
    LaterIsLater(shop, now, input.now);
    PreparedFacts(shop, input);
    NewOrderIsSound(shop, input, Prepare(shop, input).value);
  }

  lemma StepKeepsTimes(shop: Shop, step: Step, now: int)
    requires Timely(shop, now) && now <= ClockOf(step, now)
    ensures Timely(Apply(shop, step), ClockOf(step, now))
  {
    hide TransitionOrder, Checkout, EditCart, FindOrCreate, WithPhone, SoundOrder, StampsInOrder, StampedBy;
    LaterIsLater(shop, now, ClockOf(step, now));
    match step
    case MoveOrder(input) => if TransitionOrder(shop, input).Ok? { MoveStepKeepsTimes(shop, input, now); }
    case PlaceOrder(input) => if Checkout(shop, input).Ok? { PlaceStepKeepsTimes(shop, input, now); }
    case _ => EditLeavesOrders(shop, step);
  }

  lemma SoundIsCovered(order: Order)
    requires SoundOrder(order)
    ensures StagesCovered(order)
  {
  }

  lemma LaterIsLater(shop: Shop, now: int, later: int)
    requires Timely(shop, now) && now <= later
    ensures Timely(shop, later)
  {
    hide SoundOrder, StampsInOrder;
  }

  lemma EditLeavesOrders(shop: Shop, step: Step)
    requires !step.PlaceOrder? && !step.MoveOrder?
    ensures Apply(shop, step).orders == shop.orders
  {
    hide EditItems, PriceCart, FindOrCreate, WithPhone;
  }

  lemma {:induction false} RunKeepsTimes(shop: Shop, steps: seq<Step>, now: int)
    requires Timely(shop, now) && ClockNeverGoesBack(steps, now)
    ensures exists later :: Timely(Run(shop, steps), later)
    decreases steps
  {
    hide Timely, Apply;
    if steps != [] {
      StepKeepsTimes(shop, steps[0], now);
      RunKeepsTimes(Apply(shop, steps[0]), steps[1..], ClockOf(steps[0], now));
      var later :| Timely(Run(Apply(shop, steps[0]), steps[1..]), later);
      assert Timely(Run(shop, steps), later);
    } else {
      assert Timely(Run(shop, steps), now);
    }
  }

  /** Under a clock that does not go back, the stage times present are in order, and cover every earlier stage. */
  lemma StageTimesAreOrdered(steps: seq<Step>, start: int)
    requires ClockNeverGoesBack(steps, start)
    ensures forall i :: 0 <= i < |Run(EMPTY, steps).orders| ==>
      StampsInOrder(Run(EMPTY, steps).orders[i].stamps) && StagesCovered(Run(EMPTY, steps).orders[i])
  {
    hide StampsInOrder, StagesCovered, StampedBy;
    RunKeepsTimes(EMPTY, steps, start);
    var later :| Timely(Run(EMPTY, steps), later);
    forall i | 0 <= i < |Run(EMPTY, steps).orders|
      ensures StagesCovered(Run(EMPTY, steps).orders[i])
    {
      SoundIsCovered(Run(EMPTY, steps).orders[i]);
    }
  }
}
