/**
 * The shop's tables as one state machine: carts being filled, checked out into
 * orders, and orders moved from status to status. Each transaction is one step,
 * and one that fails leaves the shop as it was.
 */
module Orders {
  import opened Outcomes
  import opened OrderStates
  import opened Decimals
  import opened Money
  import opened CartPricing
  import Phone

  datatype CartStatus = ACTIVE | CHECKED_OUT | ABANDONED

  datatype Cart = Cart(branch: nat, orderType: OrderType, status: CartStatus, items: seq<CartItem>)

  datatype PaymentStatus = UNPAID | PENDING | PAID

  datatype Stamps = Stamps(
    confirmedAt: Option<int>, acceptedAt: Option<int>, preparingAt: Option<int>, readyAt: Option<int>,
    dispatchedAt: Option<int>, completedAt: Option<int>, cancelledAt: Option<int>)

  const UNSTAMPED := Stamps(None, None, None, None, None, None, None)

  datatype Entry = Entry(from: Option<OrderStatus>, to: OrderStatus)

  datatype Order = Order(
    cart: nat, branch: nat, date: int, number: nat, printed: string,
    customer: nat, orderType: OrderType, status: OrderStatus,
    payment: PaymentMethod, paymentStatus: PaymentStatus,
    lines: seq<CartLine>, total: int, stamps: Stamps, history: seq<Entry>)

  datatype Customer = Customer(
    phone: string, isBlocked: bool, totalOrders: nat, totalSpend: int,
    firstOrderAt: Option<int>, lastOrderAt: Option<int>)

  datatype OrderEvent =
    | OrderCreated(order: nat, status: OrderStatus)
    | StatusChanged(order: nat, from: Option<OrderStatus>, to: OrderStatus)

  /** Order and customer ids are positions in their tables. */
  datatype Shop = Shop(
    carts: map<nat, Cart>, orders: seq<Order>, counters: map<(nat, int), nat>,
    customers: seq<Customer>, outbox: seq<OrderEvent>)

  const EMPTY := Shop(map[], [], map[], [], [])

  datatype OrderError =
    | CartNotFound
    | AlreadyCheckedOut
    | BadPhone(phoneError: Phone.PhoneError)
    | CustomerBlocked
    | AddressNotFound
    | AddressMissing
    | Unpriceable(cartError: CartError)
    | HasBlocker(blocker: Blocker)
    | OrderNotFound
    | CancelForbidden
    | IllegalMove(moveError: TransitionError)
    | ReasonMissing
    | ItemNotFound
    | ItemUnavailable
    | VariantNotFound
    | OptionNotOffered
    | TypeNotOffered

  type Outcome<T> = Result<T, OrderError>

  /** The menu and settings as they are when a cart is priced. */
  datatype Prices = Prices(menu: map<nat, MenuItem>, currency: string, settings: Settings)

  function RequestFor(cart: Cart, prices: Prices, zones: Option<seq<Zone>>): PriceRequest {
    PriceRequest(cart.items, prices.menu, prices.currency, prices.settings, cart.orderType, zones, Zero(prices.currency))
  }

  // -- Cart edits ------------------------------------------------------------------

  datatype CartEdit =
    | ChangeType(orderType: OrderType, offered: bool)
    | AddItem(line: nat, menuItem: nat, variant: Option<nat>, quantity: int, options: seq<nat>)
    | UpdateQuantity(line: nat, quantity: int)
    | RemoveItem(line: nat)
    | Clear

  predicate HasLine(items: seq<CartItem>, line: nat) {
    exists i :: 0 <= i < |items| && items[i].id == line
  }

  function Without(items: seq<CartItem>, line: nat): seq<CartItem> {
    if items == [] then []
    else (if items[0].id == line then [] else [items[0]]) + Without(items[1..], line)
  }

  function WithQuantity(items: seq<CartItem>, line: nat, quantity: int): (r: seq<CartItem>)
    ensures |r| == |items|
  {
    seq(|items|, i requires 0 <= i < |items| => if items[i].id == line then items[i].(quantity := quantity) else items[i])
  }

  /** The group of an item's that offers an option, switched on or not. */
  function Offering(groups: seq<Group>, option: nat): Option<nat> {
    if groups == [] then None
    else if FindOption(groups[0].options, option).Some? then Some(groups[0].id)
    else Offering(groups[1..], option)
  }

  /** Each option once, with the group it belongs to; fails on one the item does not offer. */
  function ChoicesFor(groups: seq<Group>, options: seq<nat>): Outcome<seq<Choice>> {
    if options == [] then Ok([])
    else
      var front, last := options[..|options| - 1], options[|options| - 1];
      var choices :- ChoicesFor(groups, front);
      if last in front then Ok(choices)
      else match Offering(groups, last)
        case None => Err(OptionNotOffered)
        case Some(group) => Ok(choices + [Choice(group, last)])
  }

  function EditItems(cart: Cart, edit: CartEdit, menu: map<nat, MenuItem>): Outcome<Cart> {
    match edit
    case ChangeType(orderType, offered) => if offered then Ok(cart.(orderType := orderType)) else Err(TypeNotOffered)
    case AddItem(line, menuItem, variant, quantity, options) =>
      if menuItem !in menu then Err(ItemNotFound)
      else if !IsOrderable(menu[menuItem]) then Err(ItemUnavailable)
      else if variant.Some? && FindVariant(menu[menuItem].variants, variant.value).None? then Err(VariantNotFound)
      else
        var choices :- ChoicesFor(menu[menuItem].groups, options);
        Ok(cart.(items := cart.items + [CartItem(line, menuItem, variant, quantity, choices)]))
    case UpdateQuantity(line, quantity) =>
      if !HasLine(cart.items, line) then Err(ItemNotFound)
      else Ok(cart.(items := if quantity == 0 then Without(cart.items, line) else WithQuantity(cart.items, line, quantity)))
    case RemoveItem(line) =>
      if !HasLine(cart.items, line) then Err(ItemNotFound) else Ok(cart.(items := Without(cart.items, line)))
    case Clear => Ok(cart.(items := []))
  }

  function LoadActiveCart(shop: Shop, cart: nat): Outcome<Cart> {
    if cart !in shop.carts then Err(CartNotFound)
    else if shop.carts[cart].status != ACTIVE then Err(AlreadyCheckedOut)
    else Ok(shop.carts[cart])
  }

  /** An edit ends by pricing the cart, and is rolled back if that fails. */
  function EditCart(shop: Shop, cart: nat, edit: CartEdit, prices: Prices, zones: Option<seq<Zone>>): Outcome<(Shop, PricedCart)> {
    var before :- LoadActiveCart(shop, cart);
    var after :- EditItems(before, edit, prices.menu);
    match PriceCart(RequestFor(after, prices, zones), false)
    case Err(error) => Err(Unpriceable(error))
    case Ok(priced) => Ok((shop.(carts := shop.carts[cart := after]), priced))
  }

  // -- Checkout ----------------------------------------------------------------------

  /** Where a delivery goes: a saved address (with the customer it belongs to, if it exists) or one written out. */
  datatype Address = Saved(owner: Option<nat>, located: bool) | Inline(text: string, located: bool) | NoAddress

  datatype CheckoutInput = CheckoutInput(
    cart: nat, phone: string, payment: PaymentMethod, address: Address,
    prices: Prices, zones: seq<Zone>, slug: string, date: int, now: int)

  function FindCustomer(customers: seq<Customer>, phone: string): (r: Option<nat>)
    ensures r.Some? ==> r.value < |customers| && customers[r.value].phone == phone
    ensures r.None? ==> forall i :: 0 <= i < |customers| ==> customers[i].phone != phone
  {
    if customers == [] then None
    else if customers[|customers| - 1].phone == phone then Some(|customers| - 1)
    else FindCustomer(customers[..|customers| - 1], phone)
  }

  function NewCustomer(phone: string): Customer {
    Customer(phone, false, 0, 0, None, None)
  }

  /** The customer with that number, added if there is none. */
  function FindOrCreate(customers: seq<Customer>, input: string): Outcome<(seq<Customer>, nat)> {
    match Phone.NormalizePhone(input)
    case Err(error) => Err(BadPhone(error))
    case Ok(phone) =>
      match FindCustomer(customers, phone)
      case Some(id) => Ok((customers, id))
      case None => Ok((customers + [NewCustomer(phone)], |customers|))
  }

  /** Whether there is a point to deliver to. */
  function ResolveDelivery(orderType: OrderType, customer: nat, address: Address): Outcome<bool> {
    if orderType != Delivery then Ok(false)
    else match address
      case Saved(owner, located) => if owner == Some(customer) then Ok(located) else Err(AddressNotFound)
      case Inline(text, located) => if text == [] then Err(AddressMissing) else Ok(located)
      case NoAddress => Err(AddressMissing)
  }

  function ZonesSeen(located: bool, zones: seq<Zone>): Option<seq<Zone>> {
    if located then Some(zones) else None
  }

  datatype Cleared = Cleared(customers: seq<Customer>, customer: nat, priced: PricedCart)

  /** Everything that can refuse a checkout, in the order it is tried. */
  function Prepare(shop: Shop, input: CheckoutInput): (r: Outcome<Cleared>)
    ensures r.Ok? ==> r.value.customer < |r.value.customers|
  {
    var cart :- LoadActiveCart(shop, input.cart);
    var found :- FindOrCreate(shop.customers, input.phone);
    if found.0[found.1].isBlocked then Err(CustomerBlocked)
    else
      var located :- ResolveDelivery(cart.orderType, found.1, input.address);
      match PriceCart(RequestFor(cart, input.prices, ZonesSeen(located, input.zones)), true)
      case Err(error) => Err(Unpriceable(error))
      case Ok(priced) =>
        if priced.blockers != [] then Err(HasBlocker(priced.blockers[0]))
        else Ok(Cleared(found.0, found.1, priced))
  }

  function CounterAt(counters: map<(nat, int), nat>, key: (nat, int)): nat {
    if key in counters then counters[key] else 0
  }

  function UpperCase(s: string): (r: string)
    ensures |r| == |s|
  {
    seq(|s|, i requires 0 <= i < |s| => if 'a' <= s[i] <= 'z' then (s[i] as int - 32) as char else s[i])
  }

  function PrintNumber(slug: string, number: nat): string {
    UpperCase(if |slug| > 6 then slug[..6] else slug) + "-" + PadStart(Digits(number), 4)
  }

  function PaymentAtCheckout(payment: PaymentMethod): PaymentStatus {
    if payment == Online then PENDING else UNPAID
  }

  function NewOrder(shop: Shop, input: CheckoutInput, ready: Cleared): Order
    requires input.cart in shop.carts
  {
    var cart := shop.carts[input.cart];
    var number := CounterAt(shop.counters, (cart.branch, input.date)) + 1;
    var status := StatusAfterCheckout(input.payment);
    Order(input.cart, cart.branch, input.date, number, PrintNumber(input.slug, number),
          ready.customer, cart.orderType, status, input.payment, PaymentAtCheckout(input.payment),
          ready.priced.lines, ready.priced.totals.total.minor,
          if status == Confirmed then UNSTAMPED.(confirmedAt := Some(input.now)) else UNSTAMPED,
          [Entry(None, status)])
  }

  function Visited(customer: Customer, now: int): Customer {
    customer.(lastOrderAt := Some(now), firstOrderAt := if customer.firstOrderAt.Some? then customer.firstOrderAt else Some(now))
  }

  function CheckoutEvents(id: nat, status: OrderStatus): seq<OrderEvent> {
    [OrderCreated(id, status)] + if status == Confirmed then [StatusChanged(id, None, Confirmed)] else []
  }

  function Place(shop: Shop, input: CheckoutInput, ready: Cleared): Shop
    requires input.cart in shop.carts && ready.customer < |ready.customers|
  {
    var order := NewOrder(shop, input, ready);
    Shop(shop.carts[input.cart := shop.carts[input.cart].(status := CHECKED_OUT)],
         shop.orders + [order],
         shop.counters[(order.branch, order.date) := order.number],
         ready.customers[ready.customer := Visited(ready.customers[ready.customer], input.now)],
         shop.outbox + CheckoutEvents(|shop.orders|, order.status))
  }

  function Checkout(shop: Shop, input: CheckoutInput): Outcome<Shop> {
    var ready :- Prepare(shop, input);
    Ok(Place(shop, input, ready))
  }

  // -- Transition ------------------------------------------------------------------------

  datatype MoveInput = MoveInput(order: nat, to: OrderStatus, mayCancel: bool, hasReason: bool, now: int)

  predicate IsCancellation(to: OrderStatus) {
    to == Cancelled || to == Rejected
  }

  predicate IsHandover(to: OrderStatus) {
    to == Delivered || to == Completed
  }

  function Stamp(stamps: Stamps, to: OrderStatus, now: int): Stamps {
    match to
    case Confirmed => stamps.(confirmedAt := Some(now))
    case Accepted => stamps.(acceptedAt := Some(now))
    case Preparing => stamps.(preparingAt := Some(now))
    case Ready => stamps.(readyAt := Some(now))
    case OutForDelivery => stamps.(dispatchedAt := Some(now))
    case Delivered => stamps.(completedAt := Some(now))
    case Completed => stamps.(completedAt := Some(now))
    case Cancelled => stamps.(cancelledAt := Some(now))
    case Rejected => stamps.(cancelledAt := Some(now))
    case _ => stamps
  }

  predicate ShouldMarkPaid(order: Order, to: OrderStatus) {
    IsHandover(to) && (order.payment == Cash || order.payment == CardOnDelivery) && order.paymentStatus == UNPAID
  }

  function Moved(order: Order, to: OrderStatus, now: int): Order {
    order.(
      status := to,
      stamps := Stamp(order.stamps, to, now),
      paymentStatus := if ShouldMarkPaid(order, to) then PAID else order.paymentStatus,
      history := order.history + [Entry(Some(order.status), to)])
  }

  /** What refuses a transition, in the order it is tried. */
  function MoveRefusal(shop: Shop, input: MoveInput): Option<OrderError> {
    if input.order >= |shop.orders| then Some(OrderNotFound)
    else
      var order := shop.orders[input.order];
      if IsCancellation(input.to) && !input.mayCancel && !CustomerMayCancel(order.status) then Some(CancelForbidden)
      else match AssertTransition(order.status, input.to, order.orderType)
        case Illegal(error) => Some(IllegalMove(error))
        case Legal => if IsCancellation(input.to) && !input.hasReason then Some(ReasonMissing) else None
  }

  function Served(customers: seq<Customer>, id: nat, total: int): seq<Customer> {
    if id < |customers| then
      customers[id := customers[id].(totalOrders := customers[id].totalOrders + 1, totalSpend := customers[id].totalSpend + total)]
    else customers
  }

  function TransitionOrder(shop: Shop, input: MoveInput): Outcome<Shop> {
    var refusal := MoveRefusal(shop, input);
    if refusal.Some? then Err(refusal.value)
    else
      var order := shop.orders[input.order];
      Ok(shop.(
        orders := shop.orders[input.order := Moved(order, input.to, input.now)],
        customers := if IsHandover(input.to) then Served(shop.customers, order.customer, order.total) else shop.customers,
        outbox := shop.outbox + [StatusChanged(input.order, Some(order.status), input.to)]))
  }

  // -- Runs ---------------------------------------------------------------------------------

  datatype Step =
    | CreateCart(cart: nat, branch: nat, orderType: OrderType)
    | Edit(cart: nat, edit: CartEdit, prices: Prices, zones: Option<seq<Zone>>)
    | PlaceOrder(checkout: CheckoutInput)
    | MoveOrder(move: MoveInput)
    | Register(phone: string)
    | ChangePhone(customer: nat, phone: string)
    | SetBlocked(customer: nat, blocked: bool)

  /** Staff may change a customer's number to any that nobody else has. */
  function WithPhone(customers: seq<Customer>, id: nat, input: string): seq<Customer> {
    match Phone.NormalizePhone(input)
    case Err(_) => customers
    case Ok(phone) =>
      if id < |customers| && FindCustomer(customers, phone).None? then customers[id := customers[id].(phone := phone)] else customers
  }

  function OrElse(outcome: Outcome<Shop>, shop: Shop): Shop {
    match outcome
    case Ok(after) => after
    case Err(_) => shop
  }

  function Apply(shop: Shop, step: Step): Shop {
    match step
    case CreateCart(cart, branch, orderType) =>
      if cart in shop.carts then shop else shop.(carts := shop.carts[cart := Cart(branch, orderType, ACTIVE, [])])
    case Edit(cart, edit, prices, zones) =>
      (match EditCart(shop, cart, edit, prices, zones)
       case Ok((after, _)) => after
       case Err(_) => shop)
    case PlaceOrder(checkout) => OrElse(Checkout(shop, checkout), shop)
    case MoveOrder(move) => OrElse(TransitionOrder(shop, move), shop)
    case Register(phone) =>
      (match FindOrCreate(shop.customers, phone)
       case Ok((customers, _)) => shop.(customers := customers)
       case Err(_) => shop)
    case ChangePhone(customer, phone) => shop.(customers := WithPhone(shop.customers, customer, phone))
    case SetBlocked(customer, blocked) =>
      if customer < |shop.customers| then
        shop.(customers := shop.customers[customer := shop.customers[customer].(isBlocked := blocked)])
      else shop
  }

  function Run(shop: Shop, steps: seq<Step>): Shop
    decreases steps
  {
    if steps == [] then shop else Run(Apply(shop, steps[0]), steps[1..])
  }
}
