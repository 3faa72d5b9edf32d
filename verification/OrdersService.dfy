/**
 * Checkout, transitions and cart edits as they run: transactions that update the
 * tables one after another. Each is tied to the step of Orders it stands for, so
 * whatever holds of that machine's runs holds of them.
 */
module OrdersService {
  import opened Outcomes
  import opened OrderStates
  import opened CartPricing
  import opened Orders
  import opened OrderSafety
  import CartPricingService
  import Phone

  class ShopDatabase {
    var carts: map<nat, Cart>
    var orders: seq<Order>
    var counters: map<(nat, int), nat>
    var customers: seq<Customer>
    var outbox: seq<OrderEvent>

    constructor ()
      ensures View() == EMPTY
    {
      carts, orders, counters, customers, outbox := map[], [], map[], [], [];
    }

    function View(): Shop
      reads this
    {
      Shop(carts, orders, counters, customers, outbox)
    }

    method Emit(event: OrderEvent)
      modifies this`outbox
      ensures outbox == old(outbox) + [event]
    {
      outbox := outbox + [event];
    }
  }

  class OrdersService {
    const db: ShopDatabase

    constructor (db: ShopDatabase)
      ensures this.db == db
    {
      this.db := db;
    }

    method FindOrCreateCustomer(input: string) returns (r: Outcome<nat>)
      modifies db`customers
      ensures match FindOrCreate(old(db.customers), input)
        case Ok((customers, id)) => r == Ok(id) && db.customers == customers
        case Err(error) => r == Err(error) && db.customers == old(db.customers)
    {
      match Phone.NormalizePhone(input) {
        case Err(error) => return Err(BadPhone(error));
        case Ok(phone) =>
          var existing := FindCustomer(db.customers, phone);
          if existing.Some? { return Ok(existing.value); }
          db.customers := db.customers + [NewCustomer(phone)];
          return Ok(|db.customers| - 1);
      }
    }

    /** The counter row's upsert: 1 on the first order of the day, one more on each after. */
    method AllocateOrderNumber(branch: nat, slug: string, date: int) returns (number: nat, printed: string)
      modifies db`counters
      ensures number == CounterAt(old(db.counters), (branch, date)) + 1
      ensures db.counters == old(db.counters)[(branch, date) := number]
      ensures printed == PrintNumber(slug, number)
    {
      var key := (branch, date);
      if key in db.counters {
        db.counters := db.counters[key := db.counters[key] + 1];
      } else {
        db.counters := db.counters[key := 1];
      }
      number := db.counters[key];
      printed := PrintNumber(slug, number);
    }

    /** The refusals of a checkout; on success the customer exists and the cart is priced. */
    method Admit(input: CheckoutInput) returns (r: Outcome<(nat, PricedCart)>)
      modifies db`customers
      ensures match Prepare(old(db.View()), input)
        case Ok(ready) => r == Ok((ready.customer, ready.priced)) && db.customers == ready.customers
        case Err(error) => r == Err(error)
    {
      hide PriceCart, FindOrCreate;
      var loaded := LoadActiveCart(db.View(), input.cart);
      if loaded.Err? { return Err(loaded.error); }
      var cart := loaded.value;
      var found := FindOrCreateCustomer(input.phone);
      if found.Err? { return Err(found.error); }
      FoundOrCreated(old(db.customers), input.phone);
      var customer := found.value;
      if db.customers[customer].isBlocked { return Err(CustomerBlocked); }
      var delivery := ResolveDelivery(cart.orderType, customer, input.address);
      if delivery.Err? { return Err(delivery.error); }
      var request := RequestFor(cart, input.prices, ZonesSeen(delivery.value, input.zones));
      var priced := CartPricingService.PriceTheCart(request, true);
      if priced.Err? { return Err(Unpriceable(priced.error)); }
      if priced.value.blockers != [] { return Err(HasBlocker(priced.value.blockers[0])); }
      return Ok((customer, priced.value));
    }

    /** One transaction: a cart becomes an order, or nothing has happened. */
    method Checkout(input: CheckoutInput) returns (r: Outcome<nat>)
      modifies db
      ensures match Orders.Checkout(old(db.View()), input)
        case Ok(after) => r == Ok(|old(db.orders)|) && db.View() == after
        case Err(error) => r == Err(error) && db.View() == old(db.View())
      ensures Sound(old(db.View())) ==> Sound(db.View())
    {
      hide PriceCart, FindOrCreate, ResolveDelivery, PrintNumber, CounterAt, Sound;
      ghost var before := db.View();
      var customers := db.customers;
      var admitted := Admit(input);
      if admitted.Err? {
        db.customers := customers;
        return Err(admitted.error);
      }
      PreparedFacts(before, input);
      var (customer, priced) := admitted.value;
      var cart := db.carts[input.cart];
      var number, printed := AllocateOrderNumber(cart.branch, input.slug, input.date);
      var status := StatusAfterCheckout(input.payment);
      var id := |db.orders|;
      var confirmedAt := if status == Confirmed then Some(input.now) else None;
      var order := Order(input.cart, cart.branch, input.date, number, printed, customer, cart.orderType, status,
                         input.payment, PaymentAtCheckout(input.payment), priced.lines, priced.totals.total.minor,
                         UNSTAMPED.(confirmedAt := confirmedAt), []);
      db.orders := db.orders + [order];
      db.orders := db.orders[id := order.(history := [Entry(None, status)])];
      db.carts := db.carts[input.cart := cart.(status := CHECKED_OUT)];
      var owner := db.customers[customer];
      db.customers := db.customers[customer := owner.(lastOrderAt := Some(input.now))];
      if owner.firstOrderAt.None? {
        db.customers := db.customers[customer := db.customers[customer].(firstOrderAt := Some(input.now))];
      }
      db.Emit(OrderCreated(id, status));
      if status == Confirmed {
        db.Emit(StatusChanged(id, None, Confirmed));
      }
      ghost var ready := Prepare(before, input).value;
      assert db.orders == before.orders + [NewOrder(before, input, ready)];
      assert db.customers == ready.customers[customer := Visited(ready.customers[customer], input.now)];
      assert db.View() == Place(before, input, ready);
      if Sound(before) {
        CheckoutKeepsSound(before, input);
      }
      return Ok(id);
    }

    /** The only way a status changes. */
    method TransitionOrder(input: MoveInput) returns (r: Outcome<()>)
      modifies db
      ensures match Orders.TransitionOrder(old(db.View()), input)
        case Ok(after) => r == Ok(()) && db.View() == after
        case Err(error) => r == Err(error) && db.View() == old(db.View())
      ensures Sound(old(db.View())) ==> Sound(db.View())
    {
      hide Sound, CanTransition;
      ghost var before := db.View();
      if input.order >= |db.orders| { return Err(OrderNotFound); }
      var order := db.orders[input.order];
      if IsCancellation(input.to) && !input.mayCancel && !CustomerMayCancel(order.status) {
        return Err(CancelForbidden);
      }
      var verdict := AssertTransition(order.status, input.to, order.orderType);
      if verdict.Illegal? { return Err(IllegalMove(verdict.error)); }
      if IsCancellation(input.to) && !input.hasReason { return Err(ReasonMissing); }
      var updated := order.(status := input.to, stamps := Stamp(order.stamps, input.to, input.now));
      if ShouldMarkPaid(order, input.to) {
        updated := updated.(paymentStatus := PAID);
      }
      db.orders := db.orders[input.order := updated];
      db.orders := db.orders[input.order := updated.(history := updated.history + [Entry(Some(order.status), input.to)])];
      db.Emit(StatusChanged(input.order, Some(order.status), updated.status));
      if IsHandover(updated.status) && updated.customer < |db.customers| {
        var customer := db.customers[updated.customer];
        db.customers := db.customers[updated.customer :=
          customer.(totalOrders := customer.totalOrders + 1, totalSpend := customer.totalSpend + updated.total)];
      }
      assert db.orders == before.orders[input.order := Moved(order, input.to, input.now)];
      if Sound(before) {
        TransitionKeepsSound(before, input);
      }
      return Ok(());
    }
  }

  class CartService {
    const db: ShopDatabase

    constructor (db: ShopDatabase)
      ensures this.db == db
    {
      this.db := db;
    }

    /** The options of a new line, each once; refused if the item does not offer one. */
    method ChooseOptions(groups: seq<Group>, options: seq<nat>) returns (r: Outcome<seq<Choice>>)
      ensures r == ChoicesFor(groups, options)
    {
      var choices: seq<Choice> := [];
      for i := 0 to |options|
        invariant ChoicesFor(groups, options[..i]) == Ok(choices)
      {
        assert options[..i + 1][..i] == options[..i];
        if options[i] !in options[..i] {
          var group := Offering(groups, options[i]);
          if group.None? {
            RefusedOnce(groups, options, i + 1);
            return Err(OptionNotOffered);
          }
          choices := choices + [Choice(group.value, options[i])];
        }
      }
      assert options[..|options|] == options;
      return Ok(choices);
    }

    /** Writes the changed cart back and prices it; a cart that cannot be priced is put back as it was. */
    method PriceAndPresent(id: nat, cart: Cart, prices: Prices, zones: Option<seq<Zone>>) returns (r: Outcome<PricedCart>)
      modifies db`carts
      ensures match PriceCart(RequestFor(cart, prices, zones), false)
        case Ok(priced) => r == Ok(priced) && db.carts == old(db.carts)[id := cart]
        case Err(error) => r == Err(Unpriceable(error)) && db.carts == old(db.carts)
    {
      hide PriceCart;
      var before := db.carts;
      db.carts := db.carts[id := cart];
      var priced := CartPricingService.PriceTheCart(RequestFor(cart, prices, zones), false);
      if priced.Err? {
        db.carts := before;
        return Err(Unpriceable(priced.error));
      }
      return Ok(priced.value);
    }

    /** One edit of a cart, only ever of an active one. */
    method Change(id: nat, edit: CartEdit, prices: Prices, zones: Option<seq<Zone>>) returns (r: Outcome<PricedCart>)
      modifies db
      ensures match EditCart(old(db.View()), id, edit, prices, zones)
        case Ok((after, priced)) => r == Ok(priced) && db.View() == after
        case Err(error) => r == Err(error) && db.View() == old(db.View())
    {
      hide PriceCart, Without, WithQuantity, ChoicesFor, HasLine;
      var loaded := LoadActiveCart(db.View(), id);
      if loaded.Err? { return Err(loaded.error); }
      var cart := loaded.value;
      match edit {
        case ChangeType(orderType, offered) =>
          if !offered { return Err(TypeNotOffered); }
          cart := cart.(orderType := orderType);
        case AddItem(line, menuItem, variant, quantity, options) =>
          if menuItem !in prices.menu { return Err(ItemNotFound); }
          var item := prices.menu[menuItem];
          if !IsOrderable(item) { return Err(ItemUnavailable); }
          if variant.Some? && FindVariant(item.variants, variant.value).None? { return Err(VariantNotFound); }
          var choices := ChooseOptions(item.groups, options);
          if choices.Err? { return Err(choices.error); }
          cart := cart.(items := cart.items + [CartItem(line, menuItem, variant, quantity, choices.value)]);
        case UpdateQuantity(line, quantity) =>
          if !HasLine(cart.items, line) { return Err(ItemNotFound); }
          if quantity == 0 {
            cart := cart.(items := Without(cart.items, line));
          } else {
            cart := cart.(items := WithQuantity(cart.items, line, quantity));
          }
        case RemoveItem(line) =>
          if !HasLine(cart.items, line) { return Err(ItemNotFound); }
          cart := cart.(items := Without(cart.items, line));
        case Clear =>
          cart := cart.(items := []);
      }
      r := PriceAndPresent(id, cart, prices, zones);
    }
  }

  lemma {:induction false} RefusedOnce(groups: seq<Group>, options: seq<nat>, i: nat)
    requires i <= |options| && ChoicesFor(groups, options[..i]) == Err(OptionNotOffered)
    ensures ChoicesFor(groups, options) == Err(OptionNotOffered)
  {
    if i < |options| {
      assert options[..|options| - 1][..i] == options[..i];
      RefusedOnce(groups, options[..|options| - 1], i);
    } else {
      assert options[..i] == options;
    }
  }
}
