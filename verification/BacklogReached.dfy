/**
 * That such a backlog comes about: two orders are placed and wait, a sweep raises a
 * long ladder for both, and one of them is accepted.
 */
module BacklogReached {
  import opened Outcomes
  import opened OrderStates
  import opened EscalationLadder
  import opened Escalation
  import opened EscalationBacklog
  import opened Money
  import opened Pricing
  import opened CartPricing
  import Orders
  import OrderSafety
  import EscalationMonitor
  import Phone

  // -- Placing an order ----------------------------------------------------------------

  const DISH := MenuItem(100, "PKR", AVAILABLE, true, [], [], None)

  const PRICES := Orders.Prices(
    map[0 := DISH], "PKR", Settings(PricingRules(0.0, 0.0, false), Money(0, "PKR"), Money(0, "PKR"), None))

  const ONE_DISH := CartItem(0, 0, None, 1, [])

  const PHONE := "3001234567"

  function Filled(): Orders.Cart {
    Orders.Cart(0, Pickup, Orders.ACTIVE, [ONE_DISH])
  }

  lemma DishLine()
    ensures PriceLine(ONE_DISH, PRICES.menu, "PKR")
         == Ok(Line(CartLine(0, 0, None, 1, Money(100, "PKR"), Money(0, "PKR"), Money(100, "PKR"), [])))
  {
    assert Deltas([]) == [];
  }

  lemma DishTotals()
    ensures var priced := ComputeOrderTotals([PricedLine(Money(100, "PKR"), 1)], PRICES.settings.rules, Money(0, "PKR"), Money(0, "PKR"), "PKR");
      priced.Ok?
  {
    assert [PricedLine(Money(100, "PKR"), 1)][1..] == [];
  }

  /** One dish, to be picked up, prices without a blocker. */
  lemma DishPrices()
    ensures var priced := PriceCart(Orders.RequestFor(Filled(), PRICES, None), true);
      priced.Ok? && priced.value.blockers == []
    ensures PriceCart(Orders.RequestFor(Filled(), PRICES, None), false).Ok?
  {
    var request := Orders.RequestFor(Filled(), PRICES, None);
    var line := CartLine(0, 0, None, 1, Money(100, "PKR"), Money(0, "PKR"), Money(100, "PKR"), []);
    DishLine();
    DishTotals();
    hide PriceLine, ComputeOrderTotals;
    assert request.items[1..] == [];
    assert request.items[0] == ONE_DISH && [line] + [] == [line];
    assert PriceLines(request.items[1..], request.menu, "PKR", true) == Ok(Lines([], []));
    assert PriceLines(request.items, request.menu, "PKR", true) == Ok(Lines([line], []));
    assert LineTotalsOf([line]) == [Money(100, "PKR")];
    assert [Money(100, "PKR")][1..] == [];
    assert Threshold(request, [line]) == Ok(Money(100, "PKR"));
    assert [line][1..] == [];
    assert PricedLines([line][1..]) == Ok([]);
    assert [PricedLine(Money(100, "PKR"), 1)] + [] == [PricedLine(Money(100, "PKR"), 1)];
    assert PricedLines([line]) == Ok([PricedLine(Money(100, "PKR"), 1)]);
    StrictAgreesWithPreview(request);
  }

  function Form(cart: nat): Orders.CheckoutInput {
    Orders.CheckoutInput(cart, PHONE, Cash, Orders.NoAddress, PRICES, [], "dha", 0, 0)
  }

  function Placing(cart: nat): seq<Orders.Step> {
    [Orders.CreateCart(cart, 0, Pickup), Orders.Edit(cart, Orders.AddItem(0, 0, None, 1, []), PRICES, None),
     Orders.PlaceOrder(Form(cart))]
  }

  predicate JustPlaced(order: Orders.Order) {
    order.status == Confirmed && order.stamps.confirmedAt == Some(0) && order.orderType == Pickup
  }

  ghost predicate NobodyBlocked(shop: Orders.Shop) {
    forall i :: 0 <= i < |shop.customers| ==> !shop.customers[i].isBlocked
  }

  lemma CartIsFilled(shop: Orders.Shop, cart: nat)
    requires cart !in shop.carts
    ensures Orders.Apply(Orders.Apply(shop, Orders.CreateCart(cart, 0, Pickup)),
                         Orders.Edit(cart, Orders.AddItem(0, 0, None, 1, []), PRICES, None))
         == shop.(carts := shop.carts[cart := Filled()])
  {
    hide PriceCart;
    DishPrices();
    var w1 := Orders.Apply(shop, Orders.CreateCart(cart, 0, Pickup));
    assert [] + [ONE_DISH] == [ONE_DISH];
    assert Orders.EditItems(w1.carts[cart], Orders.AddItem(0, 0, None, 1, []), PRICES.menu) == Ok(Filled());
  }

  lemma CustomerIsFound(shop: Orders.Shop)
    requires NobodyBlocked(shop)
    ensures var found := Orders.FindOrCreate(shop.customers, PHONE);
      found.Ok? && found.value.1 < |found.value.0|
      && forall i :: 0 <= i < |found.value.0| ==> !found.value.0[i].isBlocked
  {
    Phone.FiveFormsOneNumber(PHONE);
    hide Phone.NormalizePhone, Orders.FindCustomer;
  }

  lemma CartIsPlaced(shop: Orders.Shop, cart: nat)
    requires cart in shop.carts && shop.carts[cart] == Filled() && NobodyBlocked(shop)
    ensures var after := Orders.Apply(shop, Orders.PlaceOrder(Form(cart)));
      && |after.orders| == |shop.orders| + 1 && after.orders[..|shop.orders|] == shop.orders
      && JustPlaced(after.orders[|shop.orders|])
      && after.carts.Keys == shop.carts.Keys && NobodyBlocked(after)
  {
    hide PriceCart, Orders.FindOrCreate, Orders.PrintNumber;
    DishPrices();
    CustomerIsFound(shop);
  }

  lemma OneIsPlaced(shop: Orders.Shop, cart: nat)
    requires cart !in shop.carts && NobodyBlocked(shop)
    ensures var after := Orders.Run(shop, Placing(cart));
      && |after.orders| == |shop.orders| + 1 && after.orders[..|shop.orders|] == shop.orders
      && JustPlaced(after.orders[|shop.orders|])
      && after.carts.Keys == shop.carts.Keys + {cart} && NobodyBlocked(after)
  {
    hide Orders.Apply;
    var create, fill := Orders.CreateCart(cart, 0, Pickup), Orders.Edit(cart, Orders.AddItem(0, 0, None, 1, []), PRICES, None);
    CartIsFilled(shop, cart);
    var filled := shop.(carts := shop.carts[cart := Filled()]);
    CartIsPlaced(filled, cart);
    ThreeSteps(shop, create, fill, Orders.PlaceOrder(Form(cart)));
  }

  lemma ThreeSteps(shop: Orders.Shop, a: Orders.Step, b: Orders.Step, c: Orders.Step)
    ensures Orders.Run(shop, [a, b, c]) == Orders.Apply(Orders.Apply(Orders.Apply(shop, a), b), c)
  {
    hide Orders.Apply;
    assert [a, b, c][1..] == [b, c] && [b, c][1..] == [c] && [c][1..] == [];
    var one, two := Orders.Apply(shop, a), Orders.Apply(Orders.Apply(shop, a), b);
    assert Orders.Run(two, [c]) == Orders.Apply(two, c);
    assert Orders.Run(one, [b, c]) == Orders.Run(two, [c]);
  }

  /** Two orders, both confirmed and waiting. */
  ghost predicate TwoWaiting(shop: Orders.Shop) {
    |shop.orders| == 2
    && forall i :: 0 <= i < 2 ==> JustPlaced(shop.orders[i])
  }

  lemma TwoArePlaced()
    ensures TwoWaiting(Orders.Run(Orders.Run(Orders.EMPTY, Placing(0)), Placing(1)))
  {
    hide Orders.Run, Placing;
    OneIsPlaced(Orders.EMPTY, 0);
    var one := Orders.Run(Orders.EMPTY, Placing(0));
    OneIsPlaced(one, 1);
    var two := Orders.Run(one, Placing(1));
    assert two.orders[0] == two.orders[..1][0] == one.orders[0];
  }

  // -- The sweep ---------------------------------------------------------------------------

  function InTheShop(steps: seq<Orders.Step>): seq<Step> {
    if steps == [] then [] else [ShopStep(steps[0])] + InTheShop(steps[1..])
  }

  lemma {:induction false} ShopRuns(w: World, steps: seq<Orders.Step>)
    ensures Run(w, InTheShop(steps)) == w.(shop := Orders.Run(w.shop, steps))
    decreases steps
  {
    hide Orders.Apply;
    if steps != [] {
      ShopRuns(Apply(w, ShopStep(steps[0])), steps[1..]);
      assert InTheShop(steps)[1..] == InTheShop(steps[1..]);
    }
  }

  /** As many rungs as a batch has rows, a second apart. */
  function LongLadder(): (ladder: seq<Rung>)
    ensures |ladder| == BATCH
    ensures forall i :: 0 <= i < BATCH ==> ladder[i] == Rung(i + 1, i + 1, KITCHEN)
  {
    seq(BATCH, i requires 0 <= i < BATCH => Rung(i + 1, i + 1, KITCHEN))
  }

  const BOTH := [Waiting(0, 0), Waiting(1, 0)]

  lemma BothAreRead(shop: Orders.Shop)
    requires TwoWaiting(shop)
    ensures IsWaitingBatch(shop, 1000 * BATCH, BOTH)
  {
    forall w: Waiting | IsWaiting(shop, 1000 * BATCH, w)
      ensures w in BOTH
    {
      assert w.order == 0 || w.order == 1;
      assert w == BOTH[w.order];
    }
  }

  /** The sweep is at its i-th order. */
  predicate AtOrder(w: World, id: nat, sweep: Sweep, i: nat) {
    id in w.sweeps && w.sweeps[id] == sweep.(next := i, phase := Looking)
  }

  lemma RunOne(w: World, step: Step)
    ensures Run(w, [step]) == Apply(w, step)
  {
    hide Apply;
    assert [step][1..] == [];
  }

  lemma RaiseStep(w: World, id: nat)
    requires id in w.sweeps && w.sweeps[id].phase.Raising? && w.sweeps[id].next < |w.sweeps[id].waiting|
    ensures var sweep, after := w.sweeps[id], Apply(w, RaiseNext(id));
      && after.shop == w.shop && id in after.sweeps
      && after.sweeps[id] == if sweep.phase.due == [] then sweep.(next := sweep.next + 1, phase := Looking)
                             else sweep.(phase := Raising(sweep.phase.due[1..]))
  {
  }

  /** What a sweep has left to raise for an order it raises, and goes on. */
  lemma {:induction false} RaisesTheRest(w: World, id: nat)
    requires id in w.sweeps && w.sweeps[id].phase.Raising? && w.sweeps[id].next < |w.sweeps[id].waiting|
    ensures exists steps :: Run(w, steps).shop == w.shop && AtOrder(Run(w, steps), id, w.sweeps[id], w.sweeps[id].next + 1)
    decreases |w.sweeps[id].phase.due|
  {
    hide Apply, Run;
    var w1 := Apply(w, RaiseNext(id));
    RaiseStep(w, id);
    RunOne(w, RaiseNext(id));
    if w.sweeps[id].phase.due == [] {
      assert Run(w, [RaiseNext(id)]).shop == w.shop && AtOrder(Run(w, [RaiseNext(id)]), id, w.sweeps[id], w.sweeps[id].next + 1);
    } else {
      RaisesTheRest(w1, id);
      var steps :| Run(w1, steps).shop == w1.shop && AtOrder(Run(w1, steps), id, w1.sweeps[id], w1.sweeps[id].next + 1);
      EscalationMonitor.RunAppend(w, [RaiseNext(id)], steps);
      var all := [RaiseNext(id)] + steps;
      assert Run(w, all).shop == w.shop && AtOrder(Run(w, all), id, w.sweeps[id], w.sweeps[id].next + 1);
    }
  }

  lemma LooksUp(w: World, id: nat)
    requires id in w.sweeps && w.sweeps[id].phase == Looking && w.sweeps[id].next < |w.sweeps[id].waiting|
    ensures var after := Apply(w, LookUp(id));
      && after.shop == w.shop && id in after.sweeps && after.sweeps[id].phase.Raising?
      && after.sweeps[id] == w.sweeps[id].(phase := after.sweeps[id].phase)
  {
    hide DueEscalations, Fired, Elapsed;
  }

  lemma OneOrderDone(w: World, id: nat, sweep: Sweep, i: nat)
    requires AtOrder(w, id, sweep, i) && i < |sweep.waiting|
    ensures exists steps :: Run(w, steps).shop == w.shop && AtOrder(Run(w, steps), id, sweep, i + 1)
  {
    hide Apply, Run;
    var w1 := Apply(w, LookUp(id));
    LooksUp(w, id);
    RunOne(w, LookUp(id));
    RaisesTheRest(w1, id);
    var steps :| Run(w1, steps).shop == w1.shop && AtOrder(Run(w1, steps), id, w1.sweeps[id], w1.sweeps[id].next + 1);
    EscalationMonitor.RunAppend(w, [LookUp(id)], steps);
    var all := [LookUp(id)] + steps;
    assert Run(w, all).shop == w.shop && AtOrder(Run(w, all), id, sweep, i + 1);
  }

  function TheSweep(): Sweep {
    Sweep(1000 * BATCH, LongLadder(), BOTH, 0, Looking)
  }

  lemma SweepStarts(w: World)
    requires TwoWaiting(w.shop) && w.sweeps == map[]
    ensures var after := Run(w, [StartSweep(0, 1000 * BATCH, LongLadder(), BOTH)]);
      after.shop == w.shop && AtOrder(after, 0, TheSweep(), 0)
  {
    BothAreRead(w.shop);
    hide IsWaitingBatch, LongLadder;
    RunOne(w, StartSweep(0, 1000 * BATCH, LongLadder(), BOTH));
  }

  /** A run in which both orders wait, and the sweep has been through both. */
  lemma BothAreSwept()
    ensures exists steps :: TwoWaiting(Run(START, steps).shop) && AtOrder(Run(START, steps), 0, TheSweep(), 2)
  {
    hide Run, Orders.Run, Placing, TwoWaiting, TheSweep;
    TwoArePlaced();
    var first, second := InTheShop(Placing(0)), InTheShop(Placing(1));
    ShopRuns(START, Placing(0));
    var w1 := Run(START, first);
    ShopRuns(w1, Placing(1));
    var w2 := Run(w1, second);
    SweepStarts(w2);
    var start := [StartSweep(0, 1000 * BATCH, LongLadder(), BOTH)];
    var w3 := Run(w2, start);
    SweepIsLong();
    OneOrderDone(w3, 0, TheSweep(), 0);
    var one :| Run(w3, one).shop == w3.shop && AtOrder(Run(w3, one), 0, TheSweep(), 1);
    var w4 := Run(w3, one);
    OneOrderDone(w4, 0, TheSweep(), 1);
    var two :| Run(w4, two).shop == w4.shop && AtOrder(Run(w4, two), 0, TheSweep(), 2);
    EscalationMonitor.RunAppend(START, first, second);
    EscalationMonitor.RunAppend(START, first + second, start);
    EscalationMonitor.RunAppend(START, first + second + start, one);
    EscalationMonitor.RunAppend(START, first + second + start + one, two);
    var all := first + second + start + one + two;
    assert TwoWaiting(Run(START, all).shop) && AtOrder(Run(START, all), 0, TheSweep(), 2);
  }

  lemma SweepIsLong()
    ensures |TheSweep().waiting| == 2
  {
  }

  // -- The backlog ---------------------------------------------------------------------------

  /** The rows of the long ladder for one order. */
  function RowsOf(order: nat, n: nat): set<Key> {
    if n == 0 then {} else RowsOf(order, n - 1) + {Key(order, n)}
  }

  lemma {:induction false} CountRows(order: nat, n: nat)
    ensures |RowsOf(order, n)| == n
    ensures forall k :: k in RowsOf(order, n) <==> k.order == order && 1 <= k.level <= n
  {
    if n > 0 {
      CountRows(order, n - 1);
    }
  }

  lemma SweptRowsAreOpen(w: World, order: nat, level: nat)
    requires Escalation.Consistent(w) && TwoWaiting(w.shop) && AtOrder(w, 0, TheSweep(), 2)
    requires order < 2 && 1 <= level <= BATCH
    ensures Key(order, level) in w.resolved && !w.resolved[Key(order, level)]
  {
    hide LongLadder, OneTimeoutEach;
    var sweep := w.sweeps[0];
    assert SweepMakesSense(w, sweep);
    assert DueIsRaised(w, sweep, order, []);
    assert sweep.waiting[order] == Waiting(order, 0) && Elapsed(sweep, order) == BATCH;
    assert sweep.ladder[level - 1] == Rung(level, level, KITCHEN);
  }

  lemma OneIsAccepted(w: World)
    requires TwoWaiting(w.shop)
    ensures var after := Apply(w, ShopStep(Orders.MoveOrder(Orders.MoveInput(1, Accepted, true, false, 0))));
      && after == w.(shop := after.shop) && MovedOn(after.shop, 1) && StillWaiting(after.shop, 0)
  {
    var input := Orders.MoveInput(1, Accepted, true, false, 0);
    OrderSafety.MoveAllowedIff(w.shop, input);
    hide Orders.MoveRefusal;
    assert Orders.TransitionOrder(w.shop, input).Ok?;
  }

  /** A batch of rows of an order still waiting, and one of an order that has moved on. */
  ghost predicate Backlog(w: World, key: Key) {
    && AboutToResolve(w, 0) && |WaitingRows(w)| >= BATCH
    && key in OpenRows(w.resolved) && MovedOn(w.shop, key.order)
  }

  lemma AcceptedLeavesBacklog(w: World, after: World)
    requires Escalation.Consistent(w) && TwoWaiting(w.shop) && AtOrder(w, 0, TheSweep(), 2)
    requires after == w.(shop := after.shop) && MovedOn(after.shop, 1) && StillWaiting(after.shop, 0)
    ensures Backlog(after, Key(1, 1))
  {
    hide Escalation.Consistent, TwoWaiting, TheSweep, MovedOn, StillWaiting;
    SweepIsLong();
    CountRows(0, BATCH);
    forall k | k in RowsOf(0, BATCH)
      ensures k in WaitingRows(after)
    {
      SweptRowsAreOpen(w, 0, k.level);
    }
    SubsetIsSmaller(RowsOf(0, BATCH), WaitingRows(after));
    SweptRowsAreOpen(w, 1, 1);
  }

  lemma BacklogInSomeRun()
    ensures exists steps, key :: Backlog(Run(START, steps), key)
  {
    hide Run, TheSweep, Apply, Escalation.Consistent, Backlog, TwoWaiting;
    BothAreSwept();
    var steps :| TwoWaiting(Run(START, steps).shop) && AtOrder(Run(START, steps), 0, TheSweep(), 2);
    var accept := ShopStep(Orders.MoveOrder(Orders.MoveInput(1, Accepted, true, false, 0)));
    EveryRunIsConsistent(steps);
    OneIsAccepted(Run(START, steps));
    EscalationMonitor.RunSnoc(START, steps, accept);
    AcceptedLeavesBacklog(Run(START, steps), Run(START, steps + [accept]));
  }

  /**
   * A run from the start reaches a backlog: a batch of rows of an order still
   * waiting, open rows of one that has been accepted, and a sweep whose read may
   * return only the first and clear nothing.
   */
  lemma BacklogComesAbout()
    ensures exists steps, key, ending :: (
      && Backlog(Run(START, steps), key)
      && Possible(Run(START, steps), 0, ending) && !ClearsSomething(Run(START, steps), 0, ending))
  {
    BacklogInSomeRun();
    hide Run, Escalation.Consistent, MovedOn, Possible, ClearsSomething;
    var steps, key :| Backlog(Run(START, steps), key);
    EveryRunIsConsistent(steps);
    RowsAreSensible(Run(START, steps));
    SureToClearSomethingIff(Run(START, steps), 0, key);
    hide Backlog;
    var ending :| Possible(Run(START, steps), 0, ending) && !ClearsSomething(Run(START, steps), 0, ending);
  }

  lemma RowsAreSensible(w: World)
    requires Escalation.Consistent(w)
    ensures RowsMakeSense(w)
  {
  }
}
