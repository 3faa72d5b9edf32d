/**
 * What a backlog does to the end of a sweep: the read of open rows takes a batch
 * in no particular order, so when there are too many, which acknowledged orders
 * have their alarms cleared is left to chance.
 */
module EscalationBacklog {
  import opened EscalationLadder
  import opened Escalation
  import Orders

  function OpenRows(resolved: map<Key, bool>): set<Key> {
    set k | k in resolved && !resolved[k]
  }

  /** The open rows whose orders nobody has accepted yet. */
  function WaitingRows(w: World): set<Key> {
    set k | k in w.resolved && !w.resolved[k] && StillWaiting(w.shop, k.order)
  }

  /** A sweep that has been through its orders and is about to look for rows to resolve. */
  predicate AboutToResolve(w: World, id: nat) {
    id in w.sweeps && w.sweeps[id].phase == Looking && w.sweeps[id].next == |w.sweeps[id].waiting|
  }

  /** How that sweep ends, given what its read returns and what others do meanwhile. */
  datatype Ending = Ending(open: set<Key>, meanwhile: seq<Step>, later: seq<Step>)

  ghost predicate Possible(w: World, id: nat, ending: Ending) {
    IsOpenBatch(w.resolved, ending.open) && OfOthers(id, ending.meanwhile) && OfOthers(id, ending.later)
  }

  ghost function After(w: World, id: nat, ending: Ending): World {
    Apply(AfterCheck(AfterRead(w, id, ending.open, ending.meanwhile), id, ending.later), Resolve(id))
  }

  predicate Resolved(w: World, key: Key) {
    key in w.resolved && w.resolved[key]
  }

  // -- Sizes -------------------------------------------------------------------------

  lemma {:induction false} SubsetOfSize<T>(s: set<T>, n: nat)
    requires n <= |s|
    ensures exists t :: t <= s && |t| == n
  {
    if n == |s| {
      assert s <= s;
    } else {
      var x :| x in s;
      SubsetOfSize(s - {x}, n);
      var t :| t <= s - {x} && |t| == n;
      assert t <= s;
    }
  }

  lemma SubsetIsSmaller<T>(a: set<T>, b: set<T>)
    requires a <= b
    ensures |a| <= |b| && (|a| == |b| ==> a == b)
  {
    assert b == a + (b - a);
  }

  /** The answers to the read that leave a row out. */
  lemma LeftOutIff(resolved: map<Key, bool>, key: Key)
    requires key in OpenRows(resolved)
    ensures (exists open :: IsOpenBatch(resolved, open) && key !in open) <==> |OpenRows(resolved) - {key}| >= BATCH
  {
    var others := OpenRows(resolved) - {key};
    if open :| IsOpenBatch(resolved, open) && key !in open {
      assert |open| == BATCH && open <= others;
      SubsetIsSmaller(open, others);
    }
    if |others| >= BATCH {
      SubsetOfSize(others, BATCH);
      var open :| open <= others && |open| == BATCH;
      assert IsOpenBatch(resolved, open) && key !in open;
    }
  }

  // -- One row -------------------------------------------------------------------------

  lemma {:induction false} MovedOnForGood(w: World, steps: seq<Step>, order: nat)
    requires MovedOn(w.shop, order)
    ensures MovedOn(Run(w, steps).shop, order)
    decreases steps
  {
    hide Apply, MovedOn;
    if steps != [] {
      OneStepMovesOn(w, steps[0], order);
      MovedOnForGood(Apply(w, steps[0]), steps[1..], order);
    }
  }

  lemma OneStepMovesOn(w: World, step: Step, order: nat)
    requires MovedOn(w.shop, order)
    ensures MovedOn(Apply(w, step).shop, order)
  {
    hide IsWaitingBatch, IsOpenBatch, DueEscalations, Fired, Elapsed, StillWaiting, Orders.Apply, MovedOn;
    if step.ShopStep? {
      OrdersMoveOn(w.shop, step.step);
    }
  }

  /** Every ending whose read returned a row of an order that has moved on resolves it. */
  lemma ReadRowIsCleared(w: World, id: nat, ending: Ending, key: Key)
    requires AboutToResolve(w, id) && Possible(w, id, ending) && key in ending.open && MovedOn(w.shop, key.order)
    ensures Resolved(After(w, id, ending), key)
  {
    AcknowledgedAreCleared(w, id, ending.open, ending.meanwhile, ending.later);
    var read := Apply(w, ReadOpen(id, ending.open));
    MovedOnForGood(read, ending.meanwhile, key.order);
    hide Apply, Run, IsOpenBatch, OfOthers;
  }

  /** Undisturbed, a sweep resolves just what its read returned of orders that have moved on. */
  lemma UndisturbedEnding(w: World, id: nat, open: set<Key>)
    requires AboutToResolve(w, id) && IsOpenBatch(w.resolved, open)
    ensures Possible(w, id, Ending(open, [], []))
    ensures var after := After(w, id, Ending(open, [], []));
      && after.resolved.Keys == w.resolved.Keys
      && forall k :: k in w.resolved ==> (after.resolved[k] <==> w.resolved[k] || (k in open && !StillWaiting(w.shop, k.order)))
  {
    hide IsOpenBatch, StillWaiting;
    AcknowledgedAreCleared(w, id, open, [], []);
    assert AfterRead(w, id, open, []) == SweepTo(w, id, w.sweeps[id].(phase := Opened(open)));
    assert AfterCheck(AfterRead(w, id, open, []), id, []).resolved == w.resolved;
  }

  /**
   * The alarm of an acknowledged order is sure to be cleared at the end of a sweep,
   * whatever its read returns and whatever others do meanwhile, exactly when the
   * other open rows are fewer than a batch.
   */
  lemma SureToBeClearedIff(w: World, id: nat, key: Key)
    requires AboutToResolve(w, id) && key in OpenRows(w.resolved) && MovedOn(w.shop, key.order)
    ensures (forall ending :: Possible(w, id, ending) ==> Resolved(After(w, id, ending), key))
       <==> |OpenRows(w.resolved) - {key}| < BATCH
  {
    LeftOutIff(w.resolved, key);
    hide IsOpenBatch, After, OpenRows;
    if |OpenRows(w.resolved) - {key}| < BATCH {
      forall ending | Possible(w, id, ending)
        ensures Resolved(After(w, id, ending), key)
      {
        assert key in ending.open;
        ReadRowIsCleared(w, id, ending, key);
      }
    } else {
      var open :| IsOpenBatch(w.resolved, open) && key !in open;
      UndisturbedEnding(w, id, open);
      assert !w.resolved[key] by { StillOpen(w.resolved, key); }
      assert !Resolved(After(w, id, Ending(open, [], [])), key);
    }
  }

  lemma StillOpen(resolved: map<Key, bool>, key: Key)
    requires key in OpenRows(resolved)
    ensures key in resolved && !resolved[key]
  {
  }

  // -- Any row ---------------------------------------------------------------------------

  ghost predicate ClearsSomething(w: World, id: nat, ending: Ending) {
    exists k :: k in OpenRows(w.resolved) && Resolved(After(w, id, ending), k)
  }

  /** A batch that is not all of waiting orders' rows holds one that is not. */
  lemma SomeRowMovedOn(w: World, open: set<Key>, key: Key)
    requires RowsMakeSense(w) && IsOpenBatch(w.resolved, open) && |WaitingRows(w)| < BATCH
    requires key in OpenRows(w.resolved) && MovedOn(w.shop, key.order)
    ensures exists k :: k in open && MovedOn(w.shop, k.order)
  {
    if open <= WaitingRows(w) {
      SubsetIsSmaller(open, WaitingRows(w));
      assert false;
    }
    var k :| k in open && k !in WaitingRows(w);
    assert MovedOn(w.shop, k.order);
  }

  /**
   * While some open row is of an order that has moved on, a sweep is sure to clear
   * at least one row exactly when the open rows of waiting orders are fewer than a
   * batch. When they are not, it may clear nothing, now and every time.
   */
  lemma SureToClearSomethingIff(w: World, id: nat, key: Key)
    requires RowsMakeSense(w) && AboutToResolve(w, id)
    requires key in OpenRows(w.resolved) && MovedOn(w.shop, key.order)
    ensures (forall ending :: Possible(w, id, ending) ==> ClearsSomething(w, id, ending)) <==> |WaitingRows(w)| < BATCH
  {
    hide After, RowsMakeSense, MovedOn, IsOpenBatch;
    if |WaitingRows(w)| < BATCH {
      forall ending | Possible(w, id, ending)
        ensures ClearsSomething(w, id, ending)
      {
        SomeRowMovedOn(w, ending.open, key);
        var k :| k in ending.open && MovedOn(w.shop, k.order);
        ReadRowIsCleared(w, id, ending, k);
        BatchIsOpen(w.resolved, ending.open);
      }
    } else {
      SubsetOfSize(WaitingRows(w), BATCH);
      var open :| open <= WaitingRows(w) && |open| == BATCH;
      WaitingBatch(w, open);
      UndisturbedEnding(w, id, open);
      assert !ClearsSomething(w, id, Ending(open, [], []));
    }
  }

  lemma BatchIsOpen(resolved: map<Key, bool>, open: set<Key>)
    requires IsOpenBatch(resolved, open)
    ensures open <= OpenRows(resolved)
  {
  }

  lemma WaitingBatch(w: World, open: set<Key>)
    requires open <= WaitingRows(w) && |open| == BATCH
    ensures IsOpenBatch(w.resolved, open)
  {
  }
}
