/**
 * The escalation monitor as it runs: one pass over the waiting orders, row by
 * row. A pass is a run of the machine in Escalation, so what holds of every
 * interleaving holds of it.
 */
module EscalationMonitor {
  import opened EscalationLadder
  import opened Escalation
  import Orders

  class EscalationTables {
    var shop: Orders.Shop
    var resolved: map<Key, bool>
    var timeouts: seq<Key>

    constructor (shop: Orders.Shop)
      ensures this.shop == shop && resolved == map[] && timeouts == []
    {
      this.shop, resolved, timeouts := shop, map[], [];
    }

    ghost function View(sweeps: map<nat, Sweep>): World
      reads this
    {
      World(shop, resolved, timeouts, sweeps)
    }
  }

  lemma {:induction false} RunSnoc(w: World, steps: seq<Step>, step: Step)
    ensures Run(w, steps + [step]) == Apply(Run(w, steps), step)
    decreases steps
  {
    hide Apply;
    if steps == [] {
      assert [step] == [step] + [];
      assert ([step])[1..] == [];
    } else {
      RunSnoc(Apply(w, steps[0]), steps[1..], step);
      assert (steps + [step])[1..] == steps[1..] + [step];
    }
  }

  lemma NoneDue(elapsed: int, fired: set<nat>)
    ensures DueEscalations(elapsed, [], fired) == []
  {
  }

  lemma DueFrom(elapsed: int, ladder: seq<Rung>, fired: set<nat>, i: nat)
    requires i < |ladder|
    ensures DueEscalations(elapsed, ladder[i..], fired)
      == (if elapsed >= ladder[i].afterSeconds && ladder[i].level !in fired then [ladder[i]] else [])
         + DueEscalations(elapsed, ladder[i + 1..], fired)
  {
    var left := ladder[i..];
    assert left[0] == ladder[i] && left[1..] == ladder[i + 1..];
  }

  class EscalationMonitor {
    const db: EscalationTables

    constructor (db: EscalationTables)
      ensures this.db == db
    {
      this.db := db;
    }

    /** Records one rung and its event together; false when the row is already there. */
    method Raise(key: Key) returns (created: bool)
      modifies db`resolved, db`timeouts
      ensures forall sweeps :: db.View(sweeps) == Escalation.Raise(old(db.View(sweeps)), key)
      ensures created == (key !in old(db.resolved))
      ensures |db.timeouts| == |old(db.timeouts)| + if created then 1 else 0
    {
      if key in db.resolved { return false; }
      db.resolved := db.resolved[key := false];
      db.timeouts := db.timeouts + [key];
      return true;
    }

    method DueFor(elapsed: int, ladder: seq<Rung>, order: nat) returns (due: seq<Rung>)
      ensures due == DueEscalations(elapsed, ladder, Fired(db.resolved, order))
    {
      hide Fired, DueEscalations;
      var fired := Fired(db.resolved, order);
      due := [];
      assert ladder[0..] == ladder;
      NoneDue(elapsed, fired);
      for i := 0 to |ladder|
        invariant due + DueEscalations(elapsed, ladder[i..], fired) == DueEscalations(elapsed, ladder, fired)
      {
        DueFrom(elapsed, ladder, fired, i);
        if elapsed >= ladder[i].afterSeconds && ladder[i].level !in fired {
          due := due + [ladder[i]];
        }
      }
      assert ladder[|ladder|..] == [];
    }

    /** Raises every rung due to one order, as the machine does step by step. */
    method RaiseAll(id: nat, sweep: Sweep) returns (raised: nat, ghost steps: seq<Step>)
      requires sweep.phase == Looking && sweep.next < |sweep.waiting|
      modifies db`resolved, db`timeouts
      ensures Run(old(db.View(map[id := sweep])), steps) == db.View(map[id := sweep.(next := sweep.next + 1)])
      ensures |db.timeouts| == |old(db.timeouts)| + raised
    {
      hide Apply;
      var order := sweep.waiting[sweep.next].order;
      ghost var w0 := db.View(map[id := sweep]);
      var due := DueFor(Elapsed(sweep, sweep.next), sweep.ladder, order);
      steps := [] + [LookUp(id)];
      RunSnoc(w0, [], LookUp(id));
      LooksUp(w0, id);
      raised := 0;
      for i := 0 to |due|
        invariant Run(w0, steps) == db.View(map[id := sweep.(phase := Raising(due[i..]))])
        invariant |db.timeouts| == |old(db.timeouts)| + raised
      {
        ghost var before := db.View(map[id := sweep.(phase := Raising(due[i..]))]);
        var created := Raise(Key(order, due[i].level));
        if created { raised := raised + 1; }
        RunSnoc(w0, steps, RaiseNext(id));
        RaisesOne(before, id);
        assert due[i..][1..] == due[i + 1..];
        assert due[i..][0] == due[i];
        steps := steps + [RaiseNext(id)];
      }
      RunSnoc(w0, steps, RaiseNext(id));
      RaisedThemAll(db.View(map[id := sweep.(phase := Raising([]))]), id);
      assert due[|due|..] == [];
      steps := steps + [RaiseNext(id)];
    }

    /** A batch of the rows still open. */
    method FindOpen() returns (open: set<Key>)
      ensures IsOpenBatch(db.resolved, open)
    {
      open := {};
      var left := db.resolved.Keys;
      while left != {} && |open| < BATCH
        invariant left <= db.resolved.Keys && |open| <= BATCH && open !! left
        invariant forall k :: k in open ==> k in db.resolved && !db.resolved[k]
        invariant forall k :: k in db.resolved && !db.resolved[k] ==> k in open || k in left
        decreases left
      {
        var k :| k in left;
        left := left - {k};
        if !db.resolved[k] { open := open + {k}; }
      }
    }

    /** Clears the open rows of orders no longer waiting. */
    method ResolveAcknowledged(id: nat, ghost sweep: Sweep) returns (ghost steps: seq<Step>)
      requires sweep.phase == Looking && sweep.next == |sweep.waiting|
      modifies db`resolved
      ensures Run(old(db.View(map[id := sweep])), steps) == db.View(map[])
      ensures db.resolved.Keys == old(db.resolved.Keys)
    {
      hide Apply;
      ghost var w0 := db.View(map[id := sweep]);
      var open := FindOpen();
      var keys := set k | k in open && !StillWaiting(db.shop, k.order);
      db.resolved := ResolveAll(db.resolved, keys);
      steps := ([] + [ReadOpen(id, open)]) + [ReadStillWaiting(id)] + [Resolve(id)];
      RunSnoc(w0, [] + [ReadOpen(id, open)] + [ReadStillWaiting(id)], Resolve(id));
      RunSnoc(w0, [] + [ReadOpen(id, open)], ReadStillWaiting(id));
      RunSnoc(w0, [], ReadOpen(id, open));
      Resolves(w0, id, open);
    }

    /** One pass over the waiting orders; `waiting` is what the query returned. */
    method SweepOnce(id: nat, now: int, rungs: seq<RawRung>, waiting: seq<Waiting>)
      returns (raised: nat, ladder: seq<Rung>, ghost steps: seq<Step>)
      requires IsWaitingBatch(db.shop, now, waiting)
      modifies db`resolved, db`timeouts
      ensures WellFormed(ladder)
      ensures if Acceptable(rungs) then multiset(RawAll(ladder)) == multiset(rungs) else ladder == DEFAULT_LADDER
      ensures Run(old(db.View(map[])), steps) == db.View(map[])
      ensures |db.timeouts| == |old(db.timeouts)| + raised
      ensures Consistent(old(db.View(map[]))) ==> Consistent(db.View(map[]))
      ensures Consistent(old(db.View(map[]))) ==> EveryDueRaised(db.resolved, now, ladder, waiting)
    {
      hide Apply, IsWaitingBatch, Acceptable, WellFormed, Consistent, EveryDueRaised;
      ghost var w0 := db.View(map[]);
      ladder := LadderFor(rungs);
      var sweep := Sweep(now, ladder, waiting, 0, Looking);
      steps := [] + [StartSweep(id, now, ladder, waiting)];
      RunSnoc(w0, [], StartSweep(id, now, ladder, waiting));
      Starts(w0, id, now, ladder, waiting);
      raised := 0;
      for i := 0 to |waiting|
        invariant sweep == Sweep(now, ladder, waiting, i, Looking)
        invariant Run(w0, steps) == db.View(map[id := sweep])
        invariant |db.timeouts| == |old(db.timeouts)| + raised
      {
        var more, raising := RaiseAll(id, sweep);
        RunAppend(w0, steps, raising);
        steps := steps + raising;
        raised := raised + more;
        sweep := sweep.(next := i + 1);
      }
      if Consistent(w0) { AllDueRaised(w0, steps, db.View(map[id := sweep]), id); }
      ghost var raisedRows := db.resolved;
      var resolving := ResolveAcknowledged(id, sweep);
      StillRaised(raisedRows, db.resolved, now, ladder, waiting);
      RunAppend(w0, steps, resolving);
      steps := steps + resolving;
      if Consistent(w0) { RunKeepsConsistent(w0, steps); }
    }
  }

  lemma {:induction false} RunAppend(w: World, first: seq<Step>, second: seq<Step>)
    ensures Run(w, first + second) == Run(Run(w, first), second)
    decreases first
  {
    hide Apply;
    if first == [] {
      assert first + second == second;
    } else {
      RunAppend(Apply(w, first[0]), first[1..], second);
      assert (first + second)[1..] == first[1..] + second;
    }
  }

  /** Once a sweep has been through its orders, each has every rung it was due. */
  lemma AllDueRaised(w: World, steps: seq<Step>, after: World, id: nat)
    requires Consistent(w) && Run(w, steps) == after
    requires id in after.sweeps && after.sweeps[id].next == |after.sweeps[id].waiting|
    ensures var sweep := after.sweeps[id]; EveryDueRaised(after.resolved, sweep.now, sweep.ladder, sweep.waiting)
  {
    hide RowsMakeSense, OneTimeoutEach, Run;
    RunKeepsConsistent(w, steps);
    var sweep := after.sweeps[id];
    assert SweepMakesSense(after, sweep);
    forall i, r | 0 <= i < |sweep.waiting| && 0 <= r < |sweep.ladder| && Elapsed(sweep, i) >= sweep.ladder[r].afterSeconds
      ensures Key(sweep.waiting[i].order, sweep.ladder[r].level) in after.resolved
    {
      assert DueIsRaised(after, sweep, i, []);
    }
  }

  lemma StillRaised(before: map<Key, bool>, after: map<Key, bool>, now: int, ladder: seq<Rung>, waiting: seq<Waiting>)
    requires before.Keys == after.Keys
    ensures EveryDueRaised(before, now, ladder, waiting) ==> EveryDueRaised(after, now, ladder, waiting)
  {
    assert forall k :: k in before <==> k in after;
  }

  // -- The steps a pass takes ---------------------------------------------------------

  lemma Starts(w: World, id: nat, now: int, ladder: seq<Rung>, waiting: seq<Waiting>)
    requires w.sweeps == map[] && IsWaitingBatch(w.shop, now, waiting)
    ensures Apply(w, StartSweep(id, now, ladder, waiting)) == w.(sweeps := map[id := Sweep(now, ladder, waiting, 0, Looking)])
  {
  }

  lemma LooksUp(w: World, id: nat)
    requires id in w.sweeps && w.sweeps == map[id := w.sweeps[id]]
    requires w.sweeps[id].phase == Looking && w.sweeps[id].next < |w.sweeps[id].waiting|
    ensures var sweep := w.sweeps[id];
      var due := DueEscalations(Elapsed(sweep, sweep.next), sweep.ladder, Fired(w.resolved, sweep.waiting[sweep.next].order));
      Apply(w, LookUp(id)) == w.(sweeps := map[id := sweep.(phase := Raising(due))])
  {
    hide DueEscalations, Fired, Elapsed;
  }

  lemma RaisesOne(w: World, id: nat)
    requires id in w.sweeps && w.sweeps == map[id := w.sweeps[id]] && w.sweeps[id].next < |w.sweeps[id].waiting|
    requires w.sweeps[id].phase.Raising? && w.sweeps[id].phase.due != []
    ensures var sweep := w.sweeps[id];
      Apply(w, RaiseNext(id))
      == Escalation.Raise(w, Key(sweep.waiting[sweep.next].order, sweep.phase.due[0].level)).(
           sweeps := map[id := sweep.(phase := Raising(sweep.phase.due[1..]))])
  {
  }

  lemma RaisedThemAll(w: World, id: nat)
    requires id in w.sweeps && w.sweeps == map[id := w.sweeps[id]] && w.sweeps[id].phase == Raising([])
    ensures var sweep := w.sweeps[id];
      Apply(w, RaiseNext(id)) == w.(sweeps := map[id := sweep.(next := sweep.next + 1, phase := Looking)])
  {
  }

  lemma Resolves(w: World, id: nat, open: set<Key>)
    requires id in w.sweeps && w.sweeps == map[id := w.sweeps[id]]
    requires w.sweeps[id].phase == Looking && w.sweeps[id].next == |w.sweeps[id].waiting|
    requires IsOpenBatch(w.resolved, open)
    ensures var keys := set k | k in open && !StillWaiting(w.shop, k.order);
      Apply(Apply(Apply(w, ReadOpen(id, open)), ReadStillWaiting(id)), Resolve(id))
      == w.(resolved := ResolveAll(w.resolved, keys), sweeps := map[])
  {
    hide IsOpenBatch, StillWaiting, ResolveAll;
    var sweep := w.sweeps[id];
    var keys := set k | k in open && !StillWaiting(w.shop, k.order);
    var w1 := Apply(w, ReadOpen(id, open));
    assert w1 == w.(sweeps := map[id := sweep.(phase := Opened(open))]);
    var w2 := Apply(w1, ReadStillWaiting(id));
    assert w2 == w.(sweeps := map[id := sweep.(phase := Resolvable(keys))]);
    assert w2.sweeps - {id} == map[];
  }
}
