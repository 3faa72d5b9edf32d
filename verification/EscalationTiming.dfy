/** When the alarm for a waiting order is raised, in the order's own terms: not before a rung's time, and by the next sweep after it. */
module EscalationTiming {
  import opened Outcomes
  import opened OrderStates
  import opened EscalationLadder
  import opened Escalation
  import opened EscalationMonitor
  import Orders

  /** An order nobody has accepted, confirmed then, and within the last twelve hours. */
  predicate Unaccepted(shop: Orders.Shop, now: int, order: nat, confirmedAt: int) {
    && order < |shop.orders| && shop.orders[order].status == Confirmed
    && shop.orders[order].stamps.confirmedAt == Some(confirmedAt) && confirmedAt >= now - 43_200_000
  }

  /** Where in a run a sweep began, with what it read there. */
  ghost predicate Began(steps: seq<Step>, i: nat, sweep: Sweep) {
    && i < |steps| && steps[i].StartSweep?
    && steps[i].now == sweep.now && steps[i].ladder == sweep.ladder && steps[i].waiting == sweep.waiting
    && IsWaitingBatch(Run(START, steps[..i]).shop, sweep.now, sweep.waiting)
  }

  /** A sweep of the run found the order unaccepted and waiting for as long as a rung of its ladder says. */
  ghost predicate Called(steps: seq<Step>, i: nat, order: nat, confirmedAt: int, rung: Rung) {
    && i < |steps| && steps[i].StartSweep? && rung in steps[i].ladder
    && Unaccepted(Run(START, steps[..i]).shop, steps[i].now, order, confirmedAt)
    && steps[i].now - confirmedAt >= 1000 * rung.afterSeconds
  }

  ghost predicate InTime(steps: seq<Step>, key: Key) {
    exists i: nat, confirmedAt: int, rung: Rung :: Called(steps, i, key.order, confirmedAt, rung) && rung.level == key.level
  }

  /** What a sweep is about to raise for the order it is at. */
  ghost predicate OnlyDue(sweep: Sweep) {
    sweep.phase.Raising? && sweep.next < |sweep.waiting| ==>
      forall rung :: rung in sweep.phase.due ==> rung in sweep.ladder && Elapsed(sweep, sweep.next) >= rung.afterSeconds
  }

  ghost predicate Traced(steps: seq<Step>, w: World) {
    && (forall key :: key in w.resolved ==> InTime(steps, key))
    && (forall id :: id in w.sweeps ==> OnlyDue(w.sweeps[id]) && exists i: nat :: Began(steps, i, w.sweeps[id]))
  }

  lemma BeganStays(steps: seq<Step>, step: Step, i: nat, sweep: Sweep)
    requires Began(steps, i, sweep)
    ensures Began(steps + [step], i, sweep)
  {
    assert (steps + [step])[..i] == steps[..i];
  }

  lemma InTimeStays(steps: seq<Step>, step: Step, key: Key)
    requires InTime(steps, key)
    ensures InTime(steps + [step], key)
  {
    hide Run, Unaccepted;
    var i: nat, confirmedAt, rung :| Called(steps, i, key.order, confirmedAt, rung) && rung.level == key.level;
    assert (steps + [step])[..i] == steps[..i];
    assert Called(steps + [step], i, key.order, confirmedAt, rung);
  }

  /** What a sweep raises is called for where it began. */
  lemma RaisedInTime(steps: seq<Step>, i: nat, sweep: Sweep, rung: Rung)
    requires Began(steps, i, sweep) && sweep.next < |sweep.waiting|
    requires rung in sweep.ladder && Elapsed(sweep, sweep.next) >= rung.afterSeconds
    ensures InTime(steps, Key(sweep.waiting[sweep.next].order, rung.level))
  {
    hide Run;
    var waiting := sweep.waiting[sweep.next];
    assert IsWaiting(Run(START, steps[..i]).shop, sweep.now, waiting);
    assert Called(steps, i, waiting.order, waiting.confirmedAt, rung);
  }

  /** A step leaves a sweep with what it began with, and adds at most the row of the first rung due. */
  lemma SweepMoves(w: World, step: Step)
    requires !step.ShopStep? && !step.StartSweep? && step.sweep in w.sweeps && OnlyDue(w.sweeps[step.sweep])
    ensures var sweep, after := w.sweeps[step.sweep], Apply(w, step);
      && (forall id :: id in after.sweeps && id != step.sweep ==> id in w.sweeps && after.sweeps[id] == w.sweeps[id])
      && (step.sweep in after.sweeps ==>
            && OnlyDue(after.sweeps[step.sweep])
            && after.sweeps[step.sweep].(next := sweep.next, phase := sweep.phase) == sweep)
      && (forall key :: key in after.resolved && key !in w.resolved ==>
            && sweep.phase.Raising? && sweep.next < |sweep.waiting| && sweep.phase.due != []
            && key == Key(sweep.waiting[sweep.next].order, sweep.phase.due[0].level))
  {
    hide Fired, Elapsed, StillWaiting, IsOpenBatch;
    var sweep := w.sweeps[step.sweep];
    if step.LookUp? && sweep.phase.Looking? && sweep.next < |sweep.waiting| {
      var elapsed, fired := Elapsed(sweep, sweep.next), Fired(w.resolved, sweep.waiting[sweep.next].order);
      forall rung | rung in DueEscalations(elapsed, sweep.ladder, fired)
        ensures rung in sweep.ladder && elapsed >= rung.afterSeconds
      {
        DueIff(elapsed, sweep.ladder, fired, rung);
      }
      SameElapsed(sweep, sweep.(phase := Raising(DueEscalations(elapsed, sweep.ladder, fired))), sweep.next);
    }
    if step.RaiseNext? && sweep.phase.Raising? && sweep.phase.due != [] && sweep.next < |sweep.waiting| {
      SameElapsed(sweep, sweep.(phase := Raising(sweep.phase.due[1..])), sweep.next);
    }
    hide DueEscalations;
  }

  lemma StepStaysTraced(steps: seq<Step>, step: Step, w: World)
    requires Traced(steps, w) && w == Run(START, steps)
    ensures Traced(steps + [step], Apply(w, step))
  {
    hide Run, Began, InTime, Elapsed;
    var after := Apply(w, step);
    if step.ShopStep? || step.StartSweep? {
      hide OnlyDue;
      assert after.resolved == w.resolved;
    } else if step.sweep in w.sweeps {
      SweepMoves(w, step);
    }
    forall key | key in after.resolved
      ensures InTime(steps + [step], key)
    {
      if key !in w.resolved {
        var sweep := w.sweeps[step.sweep];
        var i: nat :| Began(steps, i, sweep);
        RaisedInTime(steps, i, sweep, sweep.phase.due[0]);
      }
      InTimeStays(steps, step, key);
    }
    hide Apply;
    forall id | id in after.sweeps
      ensures OnlyDue(after.sweeps[id]) && exists i: nat :: Began(steps + [step], i, after.sweeps[id])
    {
      SweepTraced(steps, step, w, id);
    }
  }

  lemma SweepBegins(w: World, step: Step)
    requires step.ShopStep? || step.StartSweep? || step.sweep !in w.sweeps
    ensures var after := Apply(w, step);
      && after.resolved == w.resolved
      && (forall id :: id in w.sweeps ==> id in after.sweeps && after.sweeps[id] == w.sweeps[id])
      && (forall id :: id in after.sweeps && id !in w.sweeps ==>
            && step.StartSweep? && after.sweeps[id] == Sweep(step.now, step.ladder, step.waiting, 0, Looking)
            && IsWaitingBatch(w.shop, step.now, step.waiting))
  {
    hide IsWaitingBatch, Orders.Apply;
  }

  lemma SweepTraced(steps: seq<Step>, step: Step, w: World, id: nat)
    requires Traced(steps, w) && w == Run(START, steps) && id in Apply(w, step).sweeps
    ensures OnlyDue(Apply(w, step).sweeps[id])
    ensures exists i: nat :: Began(steps + [step], i, Apply(w, step).sweeps[id])
  {
    var after := Apply(w, step);
    if step.ShopStep? || step.StartSweep? || step.sweep !in w.sweeps {
      SweepBegins(w, step);
    } else {
      SweepMoves(w, step);
    }
    hide Apply, Run, IsWaitingBatch;
    if id in w.sweeps {
      var i: nat :| Began(steps, i, w.sweeps[id]);
      SameBeginning(steps, i, w.sweeps[id], after.sweeps[id]);
      BeganStays(steps, step, i, after.sweeps[id]);
    } else {
      assert (steps + [step])[..|steps|] == steps;
      assert Began(steps + [step], |steps|, after.sweeps[id]);
    }
  }

  lemma SameBeginning(steps: seq<Step>, i: nat, before: Sweep, after: Sweep)
    requires Began(steps, i, before) && after.(next := before.next, phase := before.phase) == before
    ensures Began(steps, i, after)
  {
  }

  lemma {:induction false} EveryRunIsTraced(steps: seq<Step>)
    ensures Traced(steps, Run(START, steps))
    decreases |steps|
  {
    if steps != [] {
      var front, last := steps[..|steps| - 1], steps[|steps| - 1];
      assert steps == front + [last];
      EveryRunIsTraced(front);
      RunSnoc(START, front, last);
      StepStaysTraced(front, last, Run(START, front));
    }
  }

  /**
   * No alarm comes too early: in every run an order's alarm at a level was raised by
   * a sweep that found the order unaccepted and waiting as long as a rung of that
   * level asks.
   */
  lemma NoAlarmTooEarly(steps: seq<Step>, key: Key)
    requires key in Run(START, steps).resolved
    ensures exists i: nat, confirmedAt: int, rung: Rung :: Called(steps, i, key.order, confirmedAt, rung) && rung.level == key.level
  {
    EveryRunIsTraced(steps);
    hide Run, Called;
  }

  /**
   * And none too late: an order that is unaccepted when a sweep begins, and not kept
   * out of its batch by five hundred others, has the alarm of every rung it had
   * waited for once the sweep has been through its orders.
   */
  lemma NoAlarmTooLate(steps: seq<Step>, i: nat, id: nat, order: nat, confirmedAt: int, rung: Rung)
    requires var w := Run(START, steps);
      && id in w.sweeps && Began(steps, i, w.sweeps[id]) && w.sweeps[id].next == |w.sweeps[id].waiting| < 500
      && Called(steps, i, order, confirmedAt, rung)
    ensures Key(order, rung.level) in Run(START, steps).resolved
  {
    hide Run, DueIsRaised;
    var sweep := Run(START, steps).sweeps[id];
    assert IsWaiting(Run(START, steps[..i]).shop, sweep.now, Waiting(order, confirmedAt));
    var j :| 0 <= j < |sweep.waiting| && sweep.waiting[j] == Waiting(order, confirmedAt);
    var r :| 0 <= r < |sweep.ladder| && sweep.ladder[r] == rung;
    NothingDueIsLeft(steps, id, j, r);
  }
}
