/**
 * Unacknowledged orders: any number of escalation sweeps interleaved with each
 * other and with the shop, each stopping anywhere. Every query and every
 * transaction is one step.
 */
module Escalation {
  import opened Outcomes
  import opened OrderStates
  import opened EscalationLadder
  import Orders
  import OrderSafety
  import CartPricing

  /** An escalation row; no two share an order and a level. */
  datatype Key = Key(order: nat, level: nat)

  datatype Waiting = Waiting(order: nat, confirmedAt: int)

  datatype Phase = Looking | Raising(due: seq<Rung>) | Opened(open: set<Key>) | Resolvable(keys: set<Key>)

  /** A sweep part-way through: what it read at its start, and the order it is at. */
  datatype Sweep = Sweep(now: int, ladder: seq<Rung>, waiting: seq<Waiting>, next: nat, phase: Phase)

  /** `resolved` holds the escalation rows, with whether each has been resolved. */
  datatype World = World(shop: Orders.Shop, resolved: map<Key, bool>, timeouts: seq<Key>, sweeps: map<nat, Sweep>)

  const START := World(Orders.EMPTY, map[], [], map[])

  const LOOKBACK_MS := 12 * 3_600_000
  const BATCH := 500

  datatype Step =
    | ShopStep(step: Orders.Step)
    | StartSweep(sweep: nat, now: int, ladder: seq<Rung>, waiting: seq<Waiting>)
    | LookUp(sweep: nat)
    | RaiseNext(sweep: nat)
    | ReadOpen(sweep: nat, open: set<Key>)
    | ReadStillWaiting(sweep: nat)
    | Resolve(sweep: nat)
    | Crash(sweep: nat)

  predicate IsWaiting(shop: Orders.Shop, now: int, w: Waiting) {
    && w.order < |shop.orders| && shop.orders[w.order].status == Confirmed
    && shop.orders[w.order].stamps.confirmedAt == Some(w.confirmedAt) && w.confirmedAt >= now - LOOKBACK_MS
  }

  /** A possible answer to the query for waiting orders: the longest waiting first, at most a batch. */
  ghost predicate IsWaitingBatch(shop: Orders.Shop, now: int, waiting: seq<Waiting>) {
    && |waiting| <= BATCH
    && (forall i :: 0 <= i < |waiting| ==> IsWaiting(shop, now, waiting[i]))
    && (forall i, j :: 0 <= i < j < |waiting| ==> waiting[i] != waiting[j] && waiting[i].confirmedAt <= waiting[j].confirmedAt)
    && (forall w :: IsWaiting(shop, now, w) && w !in waiting ==>
          |waiting| == BATCH && forall i :: 0 <= i < |waiting| ==> waiting[i].confirmedAt <= w.confirmedAt)
  }

  predicate IsOpenBatch(resolved: map<Key, bool>, open: set<Key>) {
    && |open| <= BATCH
    && (forall k :: k in open ==> k in resolved && !resolved[k])
    && (forall k :: k in resolved && !resolved[k] && k !in open ==> |open| == BATCH)
  }

  function Elapsed(sweep: Sweep, i: nat): int
    requires i < |sweep.waiting|
  {
    (sweep.now - sweep.waiting[i].confirmedAt) / 1000
  }

  function Fired(resolved: map<Key, bool>, order: nat): set<nat> {
    set k | k in resolved && k.order == order :: k.level
  }

  /** The row and its event are written together; a taken (order, level) writes neither. */
  function Raise(w: World, key: Key): World {
    if key in w.resolved then w
    else w.(resolved := w.resolved[key := false], timeouts := w.timeouts + [key])
  }

  predicate StillWaiting(shop: Orders.Shop, order: nat) {
    order < |shop.orders| && shop.orders[order].status == Confirmed
  }

  function ResolveAll(resolved: map<Key, bool>, keys: set<Key>): map<Key, bool> {
    map k | k in resolved :: resolved[k] || k in keys
  }

  function SweepTo(w: World, id: nat, sweep: Sweep): World {
    w.(sweeps := w.sweeps[id := sweep])
  }

  function SweepStep(w: World, step: Step): World
    requires !step.ShopStep? && !step.StartSweep? && step.sweep in w.sweeps
  {
    var id, sweep := step.sweep, w.sweeps[step.sweep];
    match (step, sweep.phase)
    case (LookUp(_), Looking) =>
      if sweep.next >= |sweep.waiting| then w
      else
        var fired := Fired(w.resolved, sweep.waiting[sweep.next].order);
        SweepTo(w, id, sweep.(phase := Raising(DueEscalations(Elapsed(sweep, sweep.next), sweep.ladder, fired))))
    case (RaiseNext(_), Raising(due)) =>
      if due == [] || sweep.next >= |sweep.waiting| then SweepTo(w, id, sweep.(next := sweep.next + 1, phase := Looking))
      else
        SweepTo(Raise(w, Key(sweep.waiting[sweep.next].order, due[0].level)), id, sweep.(phase := Raising(due[1..])))
    case (ReadOpen(_, open), Looking) =>
      if sweep.next >= |sweep.waiting| && IsOpenBatch(w.resolved, open) then SweepTo(w, id, sweep.(phase := Opened(open))) else w
    case (ReadStillWaiting(_), Opened(open)) =>
      SweepTo(w, id, sweep.(phase := Resolvable(set k | k in open && !StillWaiting(w.shop, k.order))))
    case (Resolve(_), Resolvable(keys)) =>
      w.(resolved := ResolveAll(w.resolved, keys), sweeps := w.sweeps - {id})
    case (Crash(_), _) => w.(sweeps := w.sweeps - {id})
    case _ => w
  }

  ghost function Apply(w: World, step: Step): World {
    match step
    case ShopStep(shopStep) => w.(shop := Orders.Apply(w.shop, shopStep))
    case StartSweep(id, now, ladder, waiting) =>
      if id !in w.sweeps && IsWaitingBatch(w.shop, now, waiting) then SweepTo(w, id, Sweep(now, ladder, waiting, 0, Looking)) else w
    case _ => if step.sweep in w.sweeps then SweepStep(w, step) else w
  }

  ghost function Run(w: World, steps: seq<Step>): World
    decreases steps
  {
    if steps == [] then w else Run(Apply(w, steps[0]), steps[1..])
  }

  // -- Orders only ever move on ----------------------------------------------------------

  predicate BeenConfirmed(shop: Orders.Shop, order: nat) {
    order < |shop.orders| && Progress(shop.orders[order].status) >= 2
  }

  /** Confirmed once and no longer waiting. */
  predicate MovedOn(shop: Orders.Shop, order: nat) {
    BeenConfirmed(shop, order) && shop.orders[order].status != Confirmed
  }

  lemma OrdersMoveOn(shop: Orders.Shop, step: Orders.Step)
    ensures forall o: nat :: BeenConfirmed(shop, o) ==> BeenConfirmed(Orders.Apply(shop, step), o)
    ensures forall o: nat :: MovedOn(shop, o) ==> MovedOn(Orders.Apply(shop, step), o)
  {
    hide Orders.Prepare, Orders.EditItems, CartPricing.PriceCart, Orders.FindOrCreate, Orders.WithPhone, Orders.NewOrder, Progress;
    match step
    case MoveOrder(input) =>
      if Orders.TransitionOrder(shop, input).Ok? {
        OrderSafety.MoveFacts(shop, input);
        hide Orders.MoveRefusal, CanTransition, Orders.Stamp;
        var order := shop.orders[input.order];
        NotBackToConfirmed(order.status, input.to, order.orderType);
      }
    case PlaceOrder(input) =>
    case _ =>
      OrderSafety.EditLeavesOrders(shop, step);
  }

  lemma NotBackToConfirmed(from: OrderStatus, to: OrderStatus, orderType: OrderType)
    requires CanTransition(from, to, orderType)
    ensures Progress(from) >= 2 ==> Progress(to) >= 2 && to != Confirmed
  {
  }

  // -- What every interleaving keeps -------------------------------------------------------

  predicate RowsMakeSense(w: World) {
    forall k :: k in w.resolved ==>
      BeenConfirmed(w.shop, k.order) && (w.resolved[k] ==> MovedOn(w.shop, k.order))
  }

  ghost predicate OneTimeoutEach(w: World) {
    forall k: Key :: multiset(w.timeouts)[k] == if k in w.resolved then 1 else 0
  }

  /** Every rung due to the i-th order of the sweep has been raised, or is about to be. */
  predicate DueIsRaised(w: World, sweep: Sweep, i: nat, pending: seq<Rung>)
    requires i < |sweep.waiting|
  {
    forall r :: 0 <= r < |sweep.ladder| && Elapsed(sweep, i) >= sweep.ladder[r].afterSeconds ==>
      Key(sweep.waiting[i].order, sweep.ladder[r].level) in w.resolved || sweep.ladder[r] in pending
  }

  /** Every rung whose delay has passed has been raised, for every order read. */
  predicate EveryDueRaised(resolved: map<Key, bool>, now: int, ladder: seq<Rung>, waiting: seq<Waiting>) {
    forall i, r :: 0 <= i < |waiting| && 0 <= r < |ladder| ==>
      (now - waiting[i].confirmedAt) / 1000 >= ladder[r].afterSeconds ==> Key(waiting[i].order, ladder[r].level) in resolved
  }

  predicate SweepMakesSense(w: World, sweep: Sweep) {
    && sweep.next <= |sweep.waiting|
    && (forall i :: 0 <= i < |sweep.waiting| ==> BeenConfirmed(w.shop, sweep.waiting[i].order))
    && (forall i :: 0 <= i < sweep.next ==> DueIsRaised(w, sweep, i, []))
    && match sweep.phase
       case Looking => true
       case Raising(due) => sweep.next < |sweep.waiting| && DueIsRaised(w, sweep, sweep.next, due)
       case Opened(open) => sweep.next == |sweep.waiting| && forall k :: k in open ==> k in w.resolved
       case Resolvable(keys) => sweep.next == |sweep.waiting| && forall k :: k in keys ==> MovedOn(w.shop, k.order)
  }

  ghost predicate Consistent(w: World) {
    && RowsMakeSense(w)
    && OneTimeoutEach(w)
    && forall s :: s in w.sweeps ==> SweepMakesSense(w, w.sweeps[s])
  }

  /** A sweep is unmoved by whatever only adds rows and moves orders on. */
  lemma OthersUndisturbed(w: World, after: World, sweep: Sweep)
    requires SweepMakesSense(w, sweep)
    requires forall k :: k in w.resolved ==> k in after.resolved
    requires forall o: nat :: BeenConfirmed(w.shop, o) ==> BeenConfirmed(after.shop, o)
    requires forall o: nat :: MovedOn(w.shop, o) ==> MovedOn(after.shop, o)
    ensures SweepMakesSense(after, sweep)
  {
    hide BeenConfirmed, MovedOn, Elapsed;
    forall i | 0 <= i < sweep.next
      ensures DueIsRaised(after, sweep, i, [])
    {
      assert DueIsRaised(w, sweep, i, []);
    }
  }

  lemma ShopStepKeeps(w: World, step: Orders.Step)
    requires Consistent(w)
    ensures Consistent(Apply(w, ShopStep(step)))
  {
    hide Orders.Apply, BeenConfirmed, MovedOn, SweepMakesSense;
    OrdersMoveOn(w.shop, step);
    var after := Apply(w, ShopStep(step));
    forall s | s in after.sweeps
      ensures SweepMakesSense(after, after.sweeps[s])
    {
      OthersUndisturbed(w, after, w.sweeps[s]);
    }
  }

  /** A step of one sweep that adds rows and leaves this one making sense keeps everything. */
  lemma OneSweepMoved(w: World, after: World, id: nat)
    requires Consistent(w) && after.shop == w.shop
    requires forall s :: s in after.sweeps && s != id ==> s in w.sweeps && after.sweeps[s] == w.sweeps[s]
    requires forall k :: k in w.resolved ==> k in after.resolved
    requires id in after.sweeps ==> SweepMakesSense(after, after.sweeps[id])
    ensures forall s :: s in after.sweeps ==> SweepMakesSense(after, after.sweeps[s])
  {
    hide SweepMakesSense, RowsMakeSense, OneTimeoutEach, BeenConfirmed, MovedOn;
    forall s | s in after.sweeps
      ensures SweepMakesSense(after, after.sweeps[s])
    {
      if s != id { OthersUndisturbed(w, after, w.sweeps[s]); }
    }
  }

  lemma StartKeeps(w: World, id: nat, now: int, ladder: seq<Rung>, waiting: seq<Waiting>)
    requires Consistent(w)
    ensures Consistent(Apply(w, StartSweep(id, now, ladder, waiting)))
  {
    var after := Apply(w, StartSweep(id, now, ladder, waiting));
    if after != w {
      assert SweepMakesSense(after, after.sweeps[id]);
      hide SweepMakesSense;
      OneSweepMoved(w, after, id);
    }
  }

  lemma LookUpKeeps(w: World, id: nat)
    requires Consistent(w) && id in w.sweeps
    ensures Consistent(SweepStep(w, LookUp(id)))
  {
    var sweep := w.sweeps[id];
    var after := SweepStep(w, LookUp(id));
    if after != w {
      var i := sweep.next;
      var order := sweep.waiting[i].order;
      var due := after.sweeps[id].phase.due;
      assert SweepMakesSense(w, sweep);
      forall r | 0 <= r < |sweep.ladder| && Elapsed(sweep, i) >= sweep.ladder[r].afterSeconds
        ensures Key(order, sweep.ladder[r].level) in w.resolved || sweep.ladder[r] in due
      {
        DueIff(Elapsed(sweep, i), sweep.ladder, Fired(w.resolved, order), sweep.ladder[r]);
        FiredIff(w.resolved, order, sweep.ladder[r].level);
      }
      hide DueEscalations, Elapsed;
      assert DueIsRaised(after, after.sweeps[id], i, due);
      SameSweepBut(w, after, sweep, after.sweeps[id]);
      hide SweepMakesSense;
      OneSweepMoved(w, after, id);
    }
  }

  lemma FiredIff(resolved: map<Key, bool>, order: nat, level: nat)
    ensures level in Fired(resolved, order) <==> Key(order, level) in resolved
  {
    if Key(order, level) in resolved {
      var k := Key(order, level);
      assert k in resolved && k.order == order && k.level == level;
    }
  }

  lemma SameSweepBut(w: World, after: World, sweep: Sweep, moved: Sweep)
    requires SweepMakesSense(w, sweep) && after.shop == w.shop
    requires forall k :: k in w.resolved ==> k in after.resolved
    requires moved == sweep.(phase := moved.phase)
    ensures forall i :: 0 <= i < sweep.next ==> DueIsRaised(after, moved, i, [])
  {
    forall i | 0 <= i < sweep.next
      ensures DueIsRaised(after, moved, i, [])
    {
      assert DueIsRaised(w, sweep, i, []);
      assert Elapsed(moved, i) == Elapsed(sweep, i);
    }
  }

  lemma RaiseKeepsRows(w: World, key: Key)
    requires RowsMakeSense(w) && OneTimeoutEach(w) && BeenConfirmed(w.shop, key.order)
    ensures RowsMakeSense(Raise(w, key)) && OneTimeoutEach(Raise(w, key)) && key in Raise(w, key).resolved
  {
    hide BeenConfirmed, MovedOn;
    var after := Raise(w, key);
    if key !in w.resolved {
      assert multiset(after.timeouts) == multiset(w.timeouts) + multiset{key};
    }
  }

  /** With nothing left to raise, the order has been gone through. */
  lemma NextOrderKeeps(w: World, id: nat)
    requires Consistent(w) && id in w.sweeps && w.sweeps[id].phase == Raising([])
    ensures Consistent(SweepStep(w, RaiseNext(id)))
  {
    var sweep, after := w.sweeps[id], SweepStep(w, RaiseNext(id));
    assert SweepMakesSense(w, sweep);
    var moved := sweep.(next := sweep.next + 1, phase := Looking);
    assert after == SweepTo(w, id, moved);
    forall j | 0 <= j < sweep.next + 1
      ensures DueIsRaised(after, moved, j, [])
    {
      assert DueIsRaised(w, sweep, j, []);
      assert Elapsed(moved, j) == Elapsed(sweep, j);
    }
    assert SweepMakesSense(after, moved);
    hide SweepMakesSense, DueIsRaised;
    OneSweepMoved(w, after, id);
  }

  lemma RaiseOneKeeps(w: World, id: nat)
    requires Consistent(w) && id in w.sweeps && w.sweeps[id].phase.Raising? && w.sweeps[id].phase.due != []
    ensures Consistent(SweepStep(w, RaiseNext(id)))
  {
    var sweep, after := w.sweeps[id], SweepStep(w, RaiseNext(id));
    assert SweepMakesSense(w, sweep);
    var due := sweep.phase.due;
    var key, moved := Key(sweep.waiting[sweep.next].order, due[0].level), sweep.(phase := Raising(due[1..]));
    RaiseKeepsRows(w, key);
    assert after == SweepTo(Raise(w, key), id, moved);
    SameSweepBut(w, after, sweep, moved);
    RaisedIsGone(w, after, sweep, due);
    assert SweepMakesSense(after, moved) by { hide DueIsRaised; }
    hide SweepMakesSense, DueIsRaised, OneTimeoutEach, RowsMakeSense, BeenConfirmed;
    OneSweepMoved(w, after, id);
    SameRows(Raise(w, key), after);
  }

  lemma RaiseNextKeeps(w: World, id: nat)
    requires Consistent(w) && id in w.sweeps
    ensures Consistent(SweepStep(w, RaiseNext(id)))
  {
    hide Consistent;
    if w.sweeps[id].phase == Raising([]) {
      NextOrderKeeps(w, id);
    } else if w.sweeps[id].phase.Raising? {
      RaiseOneKeeps(w, id);
    }
  }

  lemma SameRows(w: World, after: World)
    requires RowsMakeSense(w) && OneTimeoutEach(w)
    requires after.shop == w.shop && after.resolved == w.resolved && after.timeouts == w.timeouts
    ensures RowsMakeSense(after) && OneTimeoutEach(after)
  {
  }

  lemma RaisedIsGone(w: World, after: World, sweep: Sweep, due: seq<Rung>)
    requires sweep.next < |sweep.waiting| && due != [] && DueIsRaised(w, sweep, sweep.next, due)
    requires forall k :: k in w.resolved ==> k in after.resolved
    requires Key(sweep.waiting[sweep.next].order, due[0].level) in after.resolved
    ensures DueIsRaised(after, sweep.(phase := Raising(due[1..])), sweep.next, due[1..])
  {
    assert due == [due[0]] + due[1..];
    assert Elapsed(sweep.(phase := Raising(due[1..])), sweep.next) == Elapsed(sweep, sweep.next);
  }

  lemma ReadKeeps(w: World, step: Step)
    requires Consistent(w) && (step.ReadOpen? || step.ReadStillWaiting?) && step.sweep in w.sweeps
    ensures Consistent(SweepStep(w, step))
  {
    var id, sweep := step.sweep, w.sweeps[step.sweep];
    var after := SweepStep(w, step);
    assert SweepMakesSense(w, sweep);
    if after != w {
      SameSweepBut(w, after, sweep, after.sweeps[id]);
      hide DueIsRaised, IsOpenBatch;
      if step.ReadOpen? {
        assert IsOpenBatch(w.resolved, step.open);
        OpenAreRows(w.resolved, step.open);
      }
      assert SweepMakesSense(after, after.sweeps[id]);
      hide SweepMakesSense;
      OneSweepMoved(w, after, id);
    }
  }

  lemma OpenAreRows(resolved: map<Key, bool>, open: set<Key>)
    requires IsOpenBatch(resolved, open)
    ensures forall k :: k in open ==> k in resolved
  {
  }

  lemma ResolveKeeps(w: World, step: Step)
    requires Consistent(w) && (step.Resolve? || step.Crash?) && step.sweep in w.sweeps
    ensures Consistent(SweepStep(w, step))
  {
    var id, sweep := step.sweep, w.sweeps[step.sweep];
    var after := SweepStep(w, step);
    assert SweepMakesSense(w, sweep);
    hide DueIsRaised, BeenConfirmed, MovedOn;
    assert forall k :: k in w.resolved <==> k in after.resolved;
    hide SweepMakesSense;
    if after != w {
      OneSweepMoved(w, after, id);
    }
  }

  lemma StepKeepsConsistent(w: World, step: Step)
    requires Consistent(w)
    ensures Consistent(Apply(w, step))
  {
    hide Consistent, SweepStep;
    match step
    case ShopStep(shopStep) => ShopStepKeeps(w, shopStep);
    case StartSweep(id, now, ladder, waiting) => StartKeeps(w, id, now, ladder, waiting);
    case LookUp(id) => if id in w.sweeps { LookUpKeeps(w, id); }
    case RaiseNext(id) => if id in w.sweeps { RaiseNextKeeps(w, id); }
    case ReadOpen(id, _) => if id in w.sweeps { ReadKeeps(w, step); }
    case ReadStillWaiting(id) => if id in w.sweeps { ReadKeeps(w, step); }
    case Resolve(id) => if id in w.sweeps { ResolveKeeps(w, step); }
    case Crash(id) => if id in w.sweeps { ResolveKeeps(w, step); }
  }

  lemma {:induction false} RunKeepsConsistent(w: World, steps: seq<Step>)
    requires Consistent(w)
    ensures Consistent(Run(w, steps))
    decreases steps
  {
    hide Consistent, Apply;
    if steps != [] {
      StepKeepsConsistent(w, steps[0]);
      RunKeepsConsistent(Apply(w, steps[0]), steps[1..]);
    }
  }

  lemma EveryRunIsConsistent(steps: seq<Step>)
    ensures Consistent(Run(START, steps))
  {
    assert Consistent(START);
    RunKeepsConsistent(START, steps);
  }

  /** A resolved escalation never belongs to an order still waiting to be accepted. */
  lemma ResolvedNeverWaits(steps: seq<Step>)
    ensures var w := Run(START, steps);
      forall k :: k in w.resolved && w.resolved[k] ==> !StillWaiting(w.shop, k.order)
  {
    hide SweepMakesSense, OneTimeoutEach;
    EveryRunIsConsistent(steps);
  }

  /** One timeout event for each row, and none without a row: nobody is alerted twice. */
  lemma OneAlertPerRung(steps: seq<Step>)
    ensures var w := Run(START, steps);
      forall k: Key :: multiset(w.timeouts)[k] == if k in w.resolved then 1 else 0
  {
    hide SweepMakesSense, RowsMakeSense;
    EveryRunIsConsistent(steps);
  }

  /** A sweep that has been through its orders leaves none of them with a due rung unraised. */
  lemma NothingDueIsLeft(steps: seq<Step>, id: nat, i: nat, r: nat)
    requires var w := Run(START, steps);
      && id in w.sweeps && w.sweeps[id].next == |w.sweeps[id].waiting|
      && i < |w.sweeps[id].waiting| && r < |w.sweeps[id].ladder|
      && Elapsed(w.sweeps[id], i) >= w.sweeps[id].ladder[r].afterSeconds
    ensures var w := Run(START, steps);
      var key := Key(w.sweeps[id].waiting[i].order, w.sweeps[id].ladder[r].level);
      key in w.resolved && multiset(w.timeouts)[key] == 1
  {
    hide RowsMakeSense, Elapsed;
    EveryRunIsConsistent(steps);
    var w := Run(START, steps);
    assert SweepMakesSense(w, w.sweeps[id]);
    assert DueIsRaised(w, w.sweeps[id], i, []);
  }

  /** Steps of the shop and of other sweeps. */
  predicate OfOthers(id: nat, steps: seq<Step>) {
    forall i :: 0 <= i < |steps| ==> steps[i].ShopStep? || steps[i].sweep != id
  }

  /** Others leave a sweep where it is, and no row goes or becomes open again. */
  lemma OthersLeaveSweep(w: World, step: Step, id: nat)
    requires id in w.sweeps && (step.ShopStep? || step.sweep != id)
    ensures var after := Apply(w, step);
      && id in after.sweeps && after.sweeps[id] == w.sweeps[id]
      && forall k :: k in w.resolved ==> k in after.resolved && (w.resolved[k] ==> after.resolved[k])
  {
    hide IsWaitingBatch, IsOpenBatch, DueEscalations, Fired, Elapsed, StillWaiting, Orders.Apply;
  }

  lemma {:induction false} OthersRun(w: World, steps: seq<Step>, id: nat)
    requires id in w.sweeps && OfOthers(id, steps)
    ensures var after := Run(w, steps);
      && id in after.sweeps && after.sweeps[id] == w.sweeps[id]
      && forall k :: k in w.resolved ==> k in after.resolved && (w.resolved[k] ==> after.resolved[k])
    decreases steps
  {
    hide Apply;
    if steps != [] {
      OthersLeaveSweep(w, steps[0], id);
      OthersRun(Apply(w, steps[0]), steps[1..], id);
    }
  }

  /** The end of a sweep with others at work in between: after the read of open rows, and after that of waiting orders. */
  ghost function AfterRead(w: World, id: nat, open: set<Key>, others: seq<Step>): World {
    Run(Apply(w, ReadOpen(id, open)), others)
  }

  ghost function AfterCheck(w: World, id: nat, others: seq<Step>): World {
    Run(Apply(w, ReadStillWaiting(id)), others)
  }

  /**
   * The end of a sweep, whatever others do meanwhile, resolves exactly the rows it
   * read open whose orders had moved on when it looked. With fewer open rows than
   * a batch that is every one: the alarm of an acknowledged order goes away by
   * itself, and that of a waiting one does not.
   */
  lemma AcknowledgedAreCleared(w: World, id: nat, open: set<Key>, meanwhile: seq<Step>, later: seq<Step>)
    requires id in w.sweeps && w.sweeps[id].phase == Looking && w.sweeps[id].next == |w.sweeps[id].waiting|
    requires IsOpenBatch(w.resolved, open) && OfOthers(id, meanwhile) && OfOthers(id, later)
    ensures var checked := AfterRead(w, id, open, meanwhile);
      var before := AfterCheck(checked, id, later);
      var after := Apply(before, Resolve(id));
      && after.resolved.Keys == before.resolved.Keys
      && (forall k :: k in before.resolved ==>
            (after.resolved[k] <==> before.resolved[k] || (k in open && !StillWaiting(checked.shop, k.order))))
      && (forall k :: k in open && !StillWaiting(checked.shop, k.order) ==> k in after.resolved && after.resolved[k])
      && (|open| < BATCH ==>
            forall k :: k in w.resolved && !StillWaiting(checked.shop, k.order) ==> k in after.resolved && after.resolved[k])
  {
    hide StillWaiting, Run;
    var read := Apply(w, ReadOpen(id, open));
    assert read == SweepTo(w, id, w.sweeps[id].(phase := Opened(open)));
    OthersRun(read, meanwhile, id);
    var checked := Run(read, meanwhile);
    var told := Apply(checked, ReadStillWaiting(id));
    assert told.resolved == checked.resolved && told.sweeps[id].phase
        == Resolvable(set k | k in open && !StillWaiting(checked.shop, k.order));
    OthersRun(told, later, id);
    var before := Run(told, later);
    assert before.sweeps[id] == told.sweeps[id];
    assert Apply(before, Resolve(id)).resolved
        == ResolveAll(before.resolved, set k | k in open && !StillWaiting(checked.shop, k.order));
  }

  // -- Rungs are climbed in order ------------------------------------------------------------

  predicate FixedLadder(steps: seq<Step>, ladder: seq<Rung>) {
    forall i :: 0 <= i < |steps| && steps[i].StartSweep? ==> steps[i].ladder == ladder
  }

  predicate RungRaised(w: World, order: nat, level: nat) {
    Key(order, level) in w.resolved
  }

  /** The levels raised for any order are those of the first few rungs. */
  predicate Climbed(w: World, ladder: seq<Rung>) {
    && (forall k :: k in w.resolved ==> IsLevel(ladder, k.level))
    && (forall k, i, j :: k in w.resolved && 0 <= i < j < |ladder| && k.level == ladder[j].level ==>
          RungRaised(w, k.order, ladder[i].level))
  }

  predicate IsLevel(ladder: seq<Rung>, level: nat) {
    exists i :: 0 <= i < |ladder| && ladder[i].level == level
  }

  /** The levels of the first `n` rungs. */
  function LevelsTo(ladder: seq<Rung>, n: nat): set<nat>
    requires n <= |ladder|
  {
    set i | 0 <= i < n :: ladder[i].level
  }

  predicate SweepClimbs(sweep: Sweep, ladder: seq<Rung>) {
    && sweep.ladder == ladder
    && (sweep.phase.Raising? && sweep.next < |sweep.waiting| ==>
          && Climbing(sweep.phase.due)
          && forall r :: r in sweep.phase.due ==> r in ladder && Elapsed(sweep, sweep.next) >= r.afterSeconds)
  }

  ghost predicate AllClimb(w: World, ladder: seq<Rung>) {
    Climbed(w, ladder) && forall s :: s in w.sweeps ==> SweepClimbs(w.sweeps[s], ladder)
  }

  /** Every rung below the one about to be raised has been raised. */
  lemma LowerRungsRaised(w: World, sweep: Sweep, ladder: seq<Rung>, top: nat)
    requires WellFormed(ladder) && SweepClimbs(sweep, ladder) && SweepMakesSense(w, sweep)
    requires sweep.phase.Raising? && sweep.phase.due != [] && top < |ladder| && ladder[top] == sweep.phase.due[0]
    ensures forall i :: 0 <= i < top ==> RungRaised(w, sweep.waiting[sweep.next].order, ladder[i].level)
  {
    var due, order := sweep.phase.due, sweep.waiting[sweep.next].order;
    assert DueIsRaised(w, sweep, sweep.next, due);
    hide SweepMakesSense;
    forall i | 0 <= i < top
      ensures RungRaised(w, order, ladder[i].level)
    {
      assert ladder[i].afterSeconds < ladder[top].afterSeconds <= Elapsed(sweep, sweep.next);
      assert ladder[i] !in due;
    }
  }

  lemma RaiseClimbs(w: World, sweep: Sweep, ladder: seq<Rung>)
    requires WellFormed(ladder) && Climbed(w, ladder) && SweepClimbs(sweep, ladder) && SweepMakesSense(w, sweep)
    requires sweep.phase.Raising? && sweep.phase.due != []
    ensures Climbed(Raise(w, Key(sweep.waiting[sweep.next].order, sweep.phase.due[0].level)), ladder)
  {
    var due := sweep.phase.due;
    var key := Key(sweep.waiting[sweep.next].order, due[0].level);
    var after := Raise(w, key);
    assert due[0] in ladder;
    var top: nat :| top < |ladder| && ladder[top] == due[0];
    LowerRungsRaised(w, sweep, ladder, top);
    hide SweepMakesSense, SweepClimbs;
    assert IsLevel(ladder, key.level);
    forall k, i, j | k in after.resolved && 0 <= i < j < |ladder| && k.level == ladder[j].level
      ensures RungRaised(after, k.order, ladder[i].level)
    {
      assert k == key ==> j == top;
      assert RungRaised(w, k.order, ladder[i].level);
    }
  }

  lemma SameRowsClimb(w: World, after: World, ladder: seq<Rung>)
    requires Climbed(w, ladder) && forall k :: k in after.resolved <==> k in w.resolved
    ensures Climbed(after, ladder)
  {
    hide IsLevel;
    forall k, i, j | k in after.resolved && 0 <= i < j < |ladder| && k.level == ladder[j].level
      ensures RungRaised(after, k.order, ladder[i].level)
    {
      assert RungRaised(w, k.order, ladder[i].level);
    }
  }

  lemma RaiseNextClimbs(w: World, id: nat, ladder: seq<Rung>)
    requires WellFormed(ladder) && AllClimb(w, ladder) && id in w.sweeps && SweepMakesSense(w, w.sweeps[id])
    requires w.sweeps[id].phase.Raising? && w.sweeps[id].phase.due != []
    ensures AllClimb(SweepStep(w, RaiseNext(id)), ladder)
  {
    hide SweepMakesSense, Climbed, WellFormed;
    var sweep, after := w.sweeps[id], SweepStep(w, RaiseNext(id));
    var due := sweep.phase.due;
    assert SweepClimbs(sweep, ladder);
    RaiseClimbs(w, sweep, ladder);
    RaisingInRange(w, sweep);
    SameRowsClimb(Raise(w, Key(sweep.waiting[sweep.next].order, due[0].level)), after, ladder);
    TailClimbs(sweep, ladder);
    hide SweepClimbs;
    assert after.sweeps == w.sweeps[id := sweep.(phase := Raising(due[1..]))];
  }

  lemma LookUpClimbs(w: World, id: nat, ladder: seq<Rung>)
    requires WellFormed(ladder) && AllClimb(w, ladder) && id in w.sweeps
    ensures AllClimb(SweepStep(w, LookUp(id)), ladder)
  {
    hide Climbed, DueEscalations, Fired, Elapsed;
    var sweep, after := w.sweeps[id], SweepStep(w, LookUp(id));
    assert SweepClimbs(sweep, ladder);
    if sweep.phase.Looking? && sweep.next < |sweep.waiting| {
      var elapsed, fired := Elapsed(sweep, sweep.next), Fired(w.resolved, sweep.waiting[sweep.next].order);
      var moved := sweep.(phase := Raising(DueEscalations(elapsed, ladder, fired)));
      assert after == SweepTo(w, id, moved);
      assert Climbing(ladder);
      DueClimbs(elapsed, ladder, fired);
      forall rung
        ensures rung in DueEscalations(elapsed, ladder, fired) ==> rung in ladder && elapsed >= rung.afterSeconds
      {
        DueIff(elapsed, ladder, fired, rung);
      }
      assert Elapsed(moved, sweep.next) == elapsed by { SameElapsed(sweep, moved, sweep.next); }
      assert SweepClimbs(moved, ladder);
      SameRowsClimb(w, after, ladder);
      hide SweepClimbs;
    }
  }

  lemma SameElapsed(a: Sweep, b: Sweep, i: nat)
    requires a.now == b.now && a.waiting == b.waiting && i < |a.waiting|
    ensures Elapsed(a, i) == Elapsed(b, i)
  {
  }

  lemma OtherStepClimbs(w: World, step: Step, ladder: seq<Rung>)
    requires AllClimb(w, ladder) && !step.ShopStep? && !step.StartSweep? && step.sweep in w.sweeps && !step.LookUp?
    requires !(step.RaiseNext? && w.sweeps[step.sweep].phase.Raising? && w.sweeps[step.sweep].phase.due != [])
    ensures AllClimb(SweepStep(w, step), ladder)
  {
    hide Climbed, IsOpenBatch, Elapsed;
    assert SweepClimbs(w.sweeps[step.sweep], ladder);
    SameRowsClimb(w, SweepStep(w, step), ladder);
  }

  lemma SweepStepClimbs(w: World, step: Step, ladder: seq<Rung>)
    requires WellFormed(ladder) && Consistent(w) && AllClimb(w, ladder)
    requires !step.ShopStep? && !step.StartSweep? && step.sweep in w.sweeps
    ensures AllClimb(SweepStep(w, step), ladder)
  {
    hide WellFormed, AllClimb, SweepMakesSense, SweepStep, RowsMakeSense, OneTimeoutEach;
    var sweep := w.sweeps[step.sweep];
    assert SweepMakesSense(w, sweep);
    if step.RaiseNext? && sweep.phase.Raising? && sweep.phase.due != [] {
      RaiseNextClimbs(w, step.sweep, ladder);
    } else if step.LookUp? {
      LookUpClimbs(w, step.sweep, ladder);
    } else {
      OtherStepClimbs(w, step, ladder);
    }
  }

  lemma RaisingInRange(w: World, sweep: Sweep)
    requires SweepMakesSense(w, sweep) && sweep.phase.Raising?
    ensures sweep.next < |sweep.waiting|
  {
  }

  lemma TailClimbs(sweep: Sweep, ladder: seq<Rung>)
    requires SweepClimbs(sweep, ladder) && sweep.phase.Raising? && sweep.phase.due != []
    ensures SweepClimbs(sweep.(phase := Raising(sweep.phase.due[1..])), ladder)
  {
  }

  lemma {:induction false} RunClimbs(w: World, steps: seq<Step>, ladder: seq<Rung>)
    requires WellFormed(ladder) && FixedLadder(steps, ladder) && Consistent(w) && AllClimb(w, ladder)
    ensures AllClimb(Run(w, steps), ladder)
    decreases steps
  {
    hide Consistent, WellFormed, SweepStep;
    if steps != [] {
      var step, next := steps[0], Apply(w, steps[0]);
      StepKeepsConsistent(w, step);
      if step.ShopStep? || step.StartSweep? {
        SameRowsClimb(w, next, ladder);
        hide Climbed;
        assert AllClimb(next, ladder);
      } else if step.sweep in w.sweeps {
        SweepStepClimbs(w, step, ladder);
      }
      assert steps == [step] + steps[1..];
      hide Apply, AllClimb;
      RunClimbs(next, steps[1..], ladder);
    }
  }

  /** Under a fixed ladder the owner is never alerted before the manager, nor the manager before the kitchen. */
  lemma RungsRaisedAreAPrefix(steps: seq<Step>, ladder: seq<Rung>, order: nat)
    requires WellFormed(ladder) && FixedLadder(steps, ladder)
    ensures var raised := Fired(Run(START, steps).resolved, order);
      exists n :: 0 <= n <= |ladder| && raised == LevelsTo(ladder, n)
  {
    RunClimbs(START, steps, ladder);
    var w := Run(START, steps);
    hide WellFormed, Run, FixedLadder;
    PrefixOf(w, ladder, order, |ladder|);
  }

  lemma {:induction false} PrefixOf(w: World, ladder: seq<Rung>, order: nat, n: nat)
    requires Climbed(w, ladder) && n <= |ladder|
    requires forall i :: n <= i < |ladder| ==> ladder[i].level !in Fired(w.resolved, order)
    ensures exists m :: 0 <= m <= |ladder| && Fired(w.resolved, order) == LevelsTo(ladder, m)
  {
    var raised := Fired(w.resolved, order);
    if n > 0 && ladder[n - 1].level !in raised {
      PrefixOf(w, ladder, order, n - 1);
    } else {
      forall i | 0 <= i < n
        ensures ladder[i].level in raised
      {
        FiredIff(w.resolved, order, ladder[n - 1].level);
        FiredIff(w.resolved, order, ladder[i].level);
        if i < n - 1 { assert RungRaised(w, order, ladder[i].level); }
      }
      forall level | level in raised
        ensures exists i :: 0 <= i < n && ladder[i].level == level
      {
        FiredIff(w.resolved, order, level);
        assert IsLevel(ladder, level);
      }
      assert raised == LevelsTo(ladder, n);
    }
  }
}
