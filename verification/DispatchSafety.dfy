/**
 * What every run of the pipeline keeps about dispatch: nothing behind the
 * cursor was skipped, however many dispatchers overlap and wherever they
 * crash, and replaying an event against unchanged data writes nothing.
 */
module DispatchSafety {
  import opened NotificationTable
  import opened NotificationPlan
  import opened NotificationPipeline

  /** Dispatched, and every row its plans named is there. */
  ghost predicate Done(w: World, event: nat) {
    event in w.implied && w.implied[event] <= w.table.Keys
  }

  ghost predicate DispatchHonest(w: World, d: Dispatch) {
    && d.start <= d.end <= |w.outbox|
    && (forall e: nat :: e < d.start ==> Done(w, e))
    && (forall e: nat :: d.start <= e < d.end && w.outbox[e].tenant !in d.todo ==> Done(w, e))
  }

  /** A cursor that was read may since have been passed, but what was behind it is done. */
  ghost predicate CursorHonest(w: World, start: nat) {
    start <= |w.outbox| && forall e: nat :: e < start ==> Done(w, e)
  }

  ghost predicate DispatchSafe(w: World) {
    && w.cursor <= |w.outbox|
    && (forall e: nat :: e < w.cursor ==> Done(w, e))
    && (forall p :: p in w.cursorsRead ==> CursorHonest(w, w.cursorsRead[p]))
    && (forall e: nat :: e in w.implied ==> e < |w.outbox| && Done(w, e))
    && (forall p :: p in w.dispatchers ==> DispatchHonest(w, w.dispatchers[p]))
  }

  /** Every row this event's plan names is in the table. */
  ghost predicate PlanHeld(table: Table, directory: Directory, event: nat, body: Event, now: int) {
    KeysOf(Plan(directory, event, body, now)) <= table.Keys
  }

  /** A row this transaction added: one that the plan of its event offered. */
  ghost predicate FromPlan(key: Key, row: Notification, directory: Directory, outbox: seq<Event>, lo: nat, hi: nat, tenant: nat, now: int) {
    && InBatch(outbox, lo, hi, tenant, key.event)
    && (key, row) in Plan(directory, key.event, outbox[key.event], now)
  }

  /** A tenant's transaction keeps every row and adds the planned keys of its events. */
  lemma {:induction false} InsertPlansAdds(table: Table, directory: Directory, outbox: seq<Event>, lo: nat, hi: nat, tenant: nat, now: int)
    requires hi <= |outbox|
    ensures var after := InsertPlans(table, directory, outbox, lo, hi, tenant, now);
      && table.Keys <= after.Keys
      && (forall k :: k in table ==> after[k] == table[k])
      && (forall e: nat :: InBatch(outbox, lo, hi, tenant, e) ==> PlanHeld(after, directory, e, outbox[e], now))
    decreases hi
  {
    hide Plan;
    if hi > lo {
      InsertPlansAdds(table, directory, outbox, lo, hi - 1, tenant, now);
      if outbox[hi - 1].tenant == tenant {
        InsertAllAdds(InsertPlans(table, directory, outbox, lo, hi - 1, tenant, now),
                      Plan(directory, hi - 1, outbox[hi - 1], now));
      }
    }
  }

  /** It adds nothing the plans did not offer. */
  lemma {:induction false} InsertPlansOnlyPlans(table: Table, directory: Directory, outbox: seq<Event>, lo: nat, hi: nat, tenant: nat, now: int, key: Key)
    requires hi <= |outbox| && key !in table
    requires key in InsertPlans(table, directory, outbox, lo, hi, tenant, now)
    ensures FromPlan(key, InsertPlans(table, directory, outbox, lo, hi, tenant, now)[key], directory, outbox, lo, hi, tenant, now)
    decreases hi
  {
    hide Plan;
    var before := InsertPlans(table, directory, outbox, lo, hi - 1, tenant, now);
    if key in before {
      InsertPlansOnlyPlans(table, directory, outbox, lo, hi - 1, tenant, now, key);
    } else {
      InsertAllAdds(before, Plan(directory, hi - 1, outbox[hi - 1], now));
      PlanIsWellPlanned(directory, hi - 1, outbox[hi - 1], now);
    }
  }

  /** No step of anybody removes a row. */
  lemma RowsAreForever(w: World, step: Step)
    ensures w.table.Keys <= Apply(w, step).table.Keys
  {
    match step
    case DispatchTenant(p, now) =>
      if p in w.dispatchers && w.dispatchers[p].todo != [] && w.dispatchers[p].end <= |w.outbox| {
        var d := w.dispatchers[p];
        InsertPlansAdds(w.table, w.directory, w.outbox, d.start, d.end, d.todo[0], now);
      }
    case _ =>
  }

  lemma DispatchTenantSafe(w: World, p: nat, now: int)
    requires DispatchSafe(w)
    ensures DispatchSafe(Apply(w, DispatchTenant(p, now)))
  {
    if p in w.dispatchers && w.dispatchers[p].todo != [] {
      var d := w.dispatchers[p];
      var after := Apply(w, DispatchTenant(p, now));
      InsertPlansAdds(w.table, w.directory, w.outbox, d.start, d.end, d.todo[0], now);
      forall e: nat | Done(w, e) && e < |w.outbox| ensures Done(after, e) {
        assert InBatch(w.outbox, d.start, d.end, d.todo[0], e) ==> PlanHeld(after.table, w.directory, e, w.outbox[e], now);
      }
      forall e: nat | InBatch(w.outbox, d.start, d.end, d.todo[0], e) ensures Done(after, e) {
        assert PlanHeld(after.table, w.directory, e, w.outbox[e], now);
        assert e in w.implied ==> Done(w, e);
      }
      assert forall q :: q in w.dispatchers ==> DispatchHonest(w, w.dispatchers[q]);
      forall q | q in after.cursorsRead ensures CursorHonest(after, after.cursorsRead[q]) {
        assert CursorHonest(w, w.cursorsRead[q]);
      }
      forall q | q in after.dispatchers ensures DispatchHonest(after, after.dispatchers[q]) {
        assert DispatchHonest(w, w.dispatchers[q]);
      }
    }
  }

  lemma ReadCursorSafe(w: World, p: nat)
    requires DispatchSafe(w)
    ensures DispatchSafe(Apply(w, ReadCursor(p)))
  {
    var after := Apply(w, ReadCursor(p));
    assert forall e: nat :: Done(w, e) ==> Done(after, e);
    forall q | q in after.dispatchers ensures DispatchHonest(after, after.dispatchers[q]) {
      assert DispatchHonest(w, w.dispatchers[q]);
    }
    forall q | q in after.cursorsRead ensures CursorHonest(after, after.cursorsRead[q]) {
      assert q in w.cursorsRead ==> CursorHonest(w, w.cursorsRead[q]);
    }
  }

  /** A batch just read from an honest cursor, with every tenant still to do. */
  lemma NewBatchIsHonest(w: World, d: Dispatch)
    requires CursorHonest(w, d.start) && d.start <= d.end <= |w.outbox| && d.todo == TenantsOf(w.outbox[d.start..d.end])
    ensures DispatchHonest(w, d)
  {
    hide TenantsOf, Done;
    forall e: nat | d.start <= e < d.end ensures w.outbox[e].tenant in d.todo {
      assert w.outbox[d.start..d.end][e - d.start] == w.outbox[e];
    }
  }

  /** What is known of a dispatch and of a cursor read speaks of the outbox, the table and the record only. */
  lemma SameHonest(w: World, after: World)
    requires after.outbox == w.outbox && after.table == w.table && after.implied == w.implied
    ensures forall d: Dispatch :: DispatchHonest(w, d) ==> DispatchHonest(after, d)
    ensures forall start: nat :: CursorHonest(w, start) ==> CursorHonest(after, start)
    ensures forall e: nat :: Done(w, e) ==> Done(after, e)
  {
    assert forall e: nat :: Done(w, e) ==> Done(after, e);
    hide Done;
    forall start: nat | CursorHonest(w, start) ensures CursorHonest(after, start) {
    }
    forall d: Dispatch | DispatchHonest(w, d) ensures DispatchHonest(after, d) {
    }
  }

  lemma ReadOutboxSafe(w: World, p: nat)
    requires DispatchSafe(w)
    ensures DispatchSafe(Apply(w, ReadOutbox(p)))
  {
    hide TenantsOf, DispatchHonest, CursorHonest, Done;
    if p in w.cursorsRead {
      var after, start := Apply(w, ReadOutbox(p)), w.cursorsRead[p];
      var end := Min(|w.outbox|, start + w.config.dispatchBatch);
      assert CursorHonest(w, start);
      if start < end {
        NewBatchIsHonest(w, Dispatch(start, end, TenantsOf(w.outbox[start..end])));
      }
      SameHonest(w, after);
    }
  }

  /** A step that only adds events and rows, and gives up dispatches, keeps what is known of the rest. */
  lemma GrowthKeepsDispatchSafe(w: World, after: World)
    requires DispatchSafe(w)
    requires w.outbox <= after.outbox && w.table.Keys <= after.table.Keys
    requires after.implied == w.implied && after.cursor == w.cursor
    requires forall p :: p in after.dispatchers ==> p in w.dispatchers && after.dispatchers[p] == w.dispatchers[p]
    requires forall p :: p in after.cursorsRead ==> p in w.cursorsRead && after.cursorsRead[p] == w.cursorsRead[p]
    ensures DispatchSafe(after)
  {
    assert forall e: nat :: Done(w, e) ==> Done(after, e);
    forall p | p in after.cursorsRead ensures CursorHonest(after, after.cursorsRead[p]) {
      assert CursorHonest(w, w.cursorsRead[p]);
    }
    forall p | p in after.dispatchers ensures DispatchHonest(after, after.dispatchers[p]) {
      assert DispatchHonest(w, w.dispatchers[p]);
    }
  }

  lemma AdvanceCursorSafe(w: World, p: nat)
    requires DispatchSafe(w)
    ensures DispatchSafe(Apply(w, AdvanceCursor(p)))
  {
    var after := Apply(w, AdvanceCursor(p));
    assert forall e: nat :: Done(w, e) ==> Done(after, e);
    forall q | q in after.cursorsRead ensures CursorHonest(after, after.cursorsRead[q]) {
      assert CursorHonest(w, w.cursorsRead[q]);
    }
    if p in w.dispatchers {
      assert DispatchHonest(w, w.dispatchers[p]);
    }
    assert forall e: nat :: Done(w, e) ==> Done(after, e);
    forall q | q in after.dispatchers ensures DispatchHonest(after, after.dispatchers[q]) {
      assert DispatchHonest(w, w.dispatchers[q]);
    }
  }

  predicate IsDispatchers(step: Step) {
    step.ReadCursor? || step.ReadOutbox? || step.DispatchTenant? || step.AdvanceCursor? || step.AbandonDispatch?
  }

  lemma DeliveryLeavesDispatch(w: World, facts: SendFacts, reply: Reply, now: int)
    requires w.sender.Delivering?
    ensures var after := AfterDelivery(w, facts, reply, now);
      && after.cursor == w.cursor && after.cursorsRead == w.cursorsRead && after.dispatchers == w.dispatchers
      && after.outbox == w.outbox && after.implied == w.implied
  {
    hide Suppress, Forbidden, MarkSent, FallbackDestination;
  }

  /** The sender, the receipts and the tenants leave dispatch where it is. */
  lemma OthersLeaveDispatch(w: World, step: Step)
    requires !IsDispatchers(step)
    ensures var after := Apply(w, step);
      && after.cursor == w.cursor && after.cursorsRead == w.cursorsRead && after.dispatchers == w.dispatchers
      && w.outbox <= after.outbox && after.implied == w.implied
  {
    hide AfterDelivery, IsDueBatch, RowsOfTenant, NotificationTable.Claim, RecordFailure, ApplyReceipt, InsertPlans, RecordImplied, TenantsOf;
    if step.Deliver? && w.sender.Delivering? {
      DeliveryLeavesDispatch(w, step.facts, step.reply, step.now);
    }
  }

  lemma OtherStepSafe(w: World, step: Step)
    requires DispatchSafe(w) && !IsDispatchers(step)
    ensures DispatchSafe(Apply(w, step))
  {
    hide DispatchSafe, Apply;
    OthersLeaveDispatch(w, step);
    RowsAreForever(w, step);
    GrowthKeepsDispatchSafe(w, Apply(w, step));
  }

  lemma AbandonSafe(w: World, p: nat)
    requires DispatchSafe(w)
    ensures DispatchSafe(Apply(w, AbandonDispatch(p)))
  {
    hide DispatchSafe;
    GrowthKeepsDispatchSafe(w, Apply(w, AbandonDispatch(p)));
  }

  lemma StepKeepsDispatchSafe(w: World, step: Step)
    requires DispatchSafe(w)
    ensures DispatchSafe(Apply(w, step))
  {
    hide DispatchSafe, Apply;
    match step
    case DispatchTenant(p, now) => DispatchTenantSafe(w, p, now);
    case ReadCursor(p) => ReadCursorSafe(w, p);
    case ReadOutbox(p) => ReadOutboxSafe(w, p);
    case AdvanceCursor(p) => AdvanceCursorSafe(w, p);
    case AbandonDispatch(p) => AbandonSafe(w, p);
    case _ => OtherStepSafe(w, step);
  }

  lemma {:induction false} RunKeepsDispatchSafe(w: World, steps: seq<Step>)
    requires DispatchSafe(w)
    ensures DispatchSafe(Run(w, steps))
    decreases steps
  {
    if steps != [] {
      StepKeepsDispatchSafe(w, steps[0]);
      RunKeepsDispatchSafe(Apply(w, steps[0]), steps[1..]);
    }
  }

  /** In every reachable world, every event behind the cursor has all the rows it implied. */
  lemma NothingBehindTheCursorIsMissing(config: Config, directory: Directory, steps: seq<Step>, event: nat)
    requires event < Run(Start(config, directory), steps).cursor
    ensures var w := Run(Start(config, directory), steps);
      event < |w.outbox| && event in w.implied && w.implied[event] <= w.table.Keys
  {
    RunKeepsDispatchSafe(Start(config, directory), steps);
    assert Done(Run(Start(config, directory), steps), event);
  }

  /** What `implied` holds: dispatching an event records every key of its plan at that moment, and never forgets one. */
  lemma ImpliedRecordsThePlan(w: World, p: nat, now: int, event: nat)
    requires p in w.dispatchers && w.dispatchers[p].todo != [] && w.dispatchers[p].end <= |w.outbox|
    ensures var d := w.dispatchers[p];
      var after := Apply(w, DispatchTenant(p, now)).implied;
      && (event in w.implied ==> event in after && w.implied[event] <= after[event])
      && (InBatch(w.outbox, d.start, d.end, d.todo[0], event) ==>
            event in after && KeysOf(Plan(w.directory, event, w.outbox[event], now)) <= after[event])
  {
  }

  // -- Replay -----------------------------------------------------------------

  lemma {:induction false} InsertAllPresent(table: Table, rows: seq<(Key, Notification)>)
    requires KeysOf(rows) <= table.Keys
    ensures InsertAll(table, rows) == table
    decreases rows
  {
    if rows != [] {
      assert rows[0].0 in KeysOf(rows);
      forall k | k in KeysOf(rows[1..]) ensures k in table {
        var i :| 0 <= i < |rows[1..]| && rows[1..][i].0 == k;
        assert rows[i + 1].0 in KeysOf(rows);
      }
      InsertAllPresent(table, rows[1..]);
    }
  }

  lemma {:induction false} InsertPlansPresent(table: Table, directory: Directory, outbox: seq<Event>, lo: nat, hi: nat, tenant: nat, now: int)
    requires hi <= |outbox|
    requires forall e: nat :: InBatch(outbox, lo, hi, tenant, e) ==> PlanHeld(table, directory, e, outbox[e], now)
    ensures InsertPlans(table, directory, outbox, lo, hi, tenant, now) == table
    decreases hi
  {
    if hi > lo {
      forall e: nat | InBatch(outbox, lo, hi - 1, tenant, e) ensures PlanHeld(table, directory, e, outbox[e], now) {
        assert InBatch(outbox, lo, hi, tenant, e);
      }
      InsertPlansPresent(table, directory, outbox, lo, hi - 1, tenant, now);
      if outbox[hi - 1].tenant == tenant {
        assert InBatch(outbox, lo, hi, tenant, hi - 1);
        InsertAllPresent(table, Plan(directory, hi - 1, outbox[hi - 1], now));
      }
    }
  }

  /** Whatever would be planned for an event now was recorded when it was dispatched. */
  ghost predicate RecordCovers(w: World, event: nat) {
    event in w.implied && event < |w.outbox|
    && KeysOf(Plan(w.directory, event, w.outbox[event], 0)) <= w.implied[event]
  }

  ghost predicate RecordsCover(w: World) {
    forall e: nat :: e in w.implied ==> RecordCovers(w, e)
  }

  /** An edit, if this step is one, leaves standing what the plans of the events dispatched so far were made from. */
  ghost predicate CoveringStep(w: World, step: Step) {
    step.EditDirectory? ==>
      forall e: nat :: e in w.implied && e < |w.outbox| ==> StillCovers(w.directory, step.directory, w.outbox[e])
  }

  lemma DispatchKeepsRecordsCover(w: World, p: nat, now: int)
    requires RecordsCover(w)
    ensures RecordsCover(Apply(w, DispatchTenant(p, now)))
  {
    hide Plan, InsertPlans;
    var after := Apply(w, DispatchTenant(p, now));
    forall e: nat | e in after.implied ensures RecordCovers(after, e) {
      assert e in w.implied ==> RecordCovers(w, e);
      PlanKeysIgnoreClock(w.directory, e, w.outbox[e], now, 0);
    }
  }

  lemma EditKeepsRecordsCover(w: World, directory: Directory)
    requires RecordsCover(w) && CoveringStep(w, EditDirectory(directory))
    ensures RecordsCover(Apply(w, EditDirectory(directory)))
  {
    hide Plan, StillCovers;
    forall e: nat | e in w.implied ensures RecordCovers(w.(directory := directory), e) {
      assert RecordCovers(w, e);
      PlanLosesOnly(w.directory, directory, e, w.outbox[e], 0, 0);
    }
  }

  lemma OthersKeepRecordsCover(w: World, after: World)
    requires RecordsCover(w)
    requires after.implied == w.implied && after.directory == w.directory && w.outbox <= after.outbox
    ensures RecordsCover(after)
  {
    hide Plan;
    forall e: nat | e in after.implied ensures RecordCovers(after, e) {
      assert RecordCovers(w, e);
    }
  }

  lemma StepKeepsRecordsCover(w: World, step: Step)
    requires RecordsCover(w) && CoveringStep(w, step)
    ensures RecordsCover(Apply(w, step))
  {
    hide RecordsCover, CoveringStep, Suppress, Forbidden, IsDueBatch, RowsOfTenant, InsertPlans, RecordImplied, TenantsOf;
    match step
    case DispatchTenant(p, now) => DispatchKeepsRecordsCover(w, p, now);
    case EditDirectory(directory) => EditKeepsRecordsCover(w, directory);
    case _ => OthersKeepRecordsCover(w, Apply(w, step));
  }

  /**
   * From its dispatch on, what each event's plan was made from stands or goes.
   * New orders, customers and conversations come into being all the while.
   */
  ghost predicate CoveringRun(w: World, steps: seq<Step>)
    decreases steps
  {
    steps == [] || (CoveringStep(w, steps[0]) && CoveringRun(Apply(w, steps[0]), steps[1..]))
  }

  lemma {:induction false} RunKeepsRecordsCover(w: World, steps: seq<Step>)
    requires RecordsCover(w) && CoveringRun(w, steps)
    ensures RecordsCover(Run(w, steps))
    decreases steps
  {
    hide RecordsCover, Apply, CoveringStep;
    if steps != [] {
      StepKeepsRecordsCover(w, steps[0]);
      RunKeepsRecordsCover(Apply(w, steps[0]), steps[1..]);
    }
  }

  /** The dispatcher is about to handle only events that were dispatched before. */
  ghost predicate Replaying(w: World, p: nat) {
    && p in w.dispatchers && w.dispatchers[p].todo != []
    && forall e: nat :: InBatch(w.outbox, w.dispatchers[p].start, w.dispatchers[p].end, w.dispatchers[p].todo[0], e) ==>
         e in w.implied
  }

  /**
   * While what their plans were made from stands, a dispatcher that replays events
   * already dispatched (after a crash, or overlapping another) leaves the table
   * exactly as it was.
   */
  lemma ReplayInsertsNothing(config: Config, directory: Directory, steps: seq<Step>, p: nat, now: int)
    requires CoveringRun(Start(config, directory), steps)
    requires Replaying(Run(Start(config, directory), steps), p)
    ensures var w := Run(Start(config, directory), steps);
      Apply(w, DispatchTenant(p, now)).table == w.table
  {
    var w := Run(Start(config, directory), steps);
    RunKeepsDispatchSafe(Start(config, directory), steps);
    RunKeepsRecordsCover(Start(config, directory), steps);
    ReplayStep(w, p, now);
  }

  lemma ReplayStep(w: World, p: nat, now: int)
    requires DispatchSafe(w) && RecordsCover(w) && Replaying(w, p)
    ensures Apply(w, DispatchTenant(p, now)).table == w.table
  {
    var d := w.dispatchers[p];
    assert DispatchHonest(w, d);
    forall e: nat | InBatch(w.outbox, d.start, d.end, d.todo[0], e)
      ensures PlanHeld(w.table, w.directory, e, w.outbox[e], now)
    {
      PlanKeysIgnoreClock(w.directory, e, w.outbox[e], now, 0);
      assert Done(w, e) && RecordCovers(w, e);
    }
    InsertPlansPresent(w.table, w.directory, w.outbox, d.start, d.end, d.todo[0], now);
  }

  // -- The cursor ---------------------------------------------------------------

  /** The one step that lowers the cursor: the write of a dispatcher whose batch ends behind it. */
  lemma CursorFallsIff(w: World, step: Step)
    ensures Apply(w, step).cursor < w.cursor <==>
      && step.AdvanceCursor? && step.dispatcher in w.dispatchers
      && w.dispatchers[step.dispatcher].todo == [] && w.dispatchers[step.dispatcher].end < w.cursor
  {
    hide InsertPlans, RecordImplied, Suppress, Forbidden, IsDueBatch, TenantsOf;
  }

  /** A dispatcher starts only when no other is between its read and its write. */
  ghost predicate OneAtATime(w: World, steps: seq<Step>)
    decreases steps
  {
    steps == []
    || ((steps[0].ReadCursor? ==> w.cursorsRead == map[] && w.dispatchers == map[])
        && OneAtATime(Apply(w, steps[0]), steps[1..]))
  }

  /** Whoever is under way started from the cursor as it is, and alone. */
  ghost predicate FromTheCursor(w: World) {
    && (forall p :: p in w.cursorsRead ==> w.cursorsRead[p] == w.cursor && w.dispatchers == map[])
    && (forall p, q :: p in w.cursorsRead && q in w.cursorsRead ==> p == q)
    && (forall p :: p in w.dispatchers ==> w.dispatchers[p].start == w.cursor < w.dispatchers[p].end && w.cursorsRead == map[])
    && (forall p, q :: p in w.dispatchers && q in w.dispatchers ==> p == q)
  }

  lemma ReadOutboxFromTheCursor(w: World, p: nat)
    requires FromTheCursor(w)
    ensures FromTheCursor(Apply(w, ReadOutbox(p))) && w.cursor == Apply(w, ReadOutbox(p)).cursor
  {
    hide TenantsOf;
    if p in w.cursorsRead {
      assert w.cursorsRead - {p} == map[];
    }
  }

  lemma AdvanceFromTheCursor(w: World, p: nat)
    requires FromTheCursor(w)
    ensures FromTheCursor(Apply(w, AdvanceCursor(p))) && w.cursor <= Apply(w, AdvanceCursor(p)).cursor
  {
    if p in w.dispatchers {
      assert w.dispatchers - {p} == map[];
    }
  }

  lemma DispatcherStepFromTheCursor(w: World, step: Step)
    requires IsDispatchers(step)
    requires FromTheCursor(w) && (step.ReadCursor? ==> w.cursorsRead == map[] && w.dispatchers == map[])
    ensures FromTheCursor(Apply(w, step)) && w.cursor <= Apply(w, step).cursor
  {
    match step
    case ReadOutbox(p) => hide Apply, FromTheCursor; ReadOutboxFromTheCursor(w, p);
    case AdvanceCursor(p) => hide Apply, FromTheCursor; AdvanceFromTheCursor(w, p);
    case _ => hide InsertPlans, RecordImplied, TenantsOf, Min;
  }

  lemma StepFromTheCursor(w: World, step: Step)
    requires FromTheCursor(w) && (step.ReadCursor? ==> w.cursorsRead == map[] && w.dispatchers == map[])
    ensures FromTheCursor(Apply(w, step)) && w.cursor <= Apply(w, step).cursor
  {
    hide Apply;
    if IsDispatchers(step) {
      DispatcherStepFromTheCursor(w, step);
    } else {
      OthersLeaveDispatch(w, step);
    }
  }

  /** So one dispatcher at a time, crashing where it may, never moves the cursor back. */
  lemma {:induction false} CursorNeverFallsOneAtATime(w: World, steps: seq<Step>)
    requires FromTheCursor(w) && OneAtATime(w, steps)
    ensures FromTheCursor(Run(w, steps)) && w.cursor <= Run(w, steps).cursor
    decreases steps
  {
    hide FromTheCursor, Apply;
    if steps != [] {
      assert steps[0].ReadCursor? ==> w.cursorsRead == map[] && w.dispatchers == map[];
      StepFromTheCursor(w, steps[0]);
      CursorNeverFallsOneAtATime(Apply(w, steps[0]), steps[1..]);
    }
  }

  lemma CursorIsMonotone(config: Config, directory: Directory, steps: seq<Step>, more: seq<Step>)
    requires OneAtATime(Start(config, directory), steps) && OneAtATime(Run(Start(config, directory), steps), more)
    ensures Run(Start(config, directory), steps).cursor <= Run(Start(config, directory), steps + more).cursor
  {
    var start := Start(config, directory);
    CursorNeverFallsOneAtATime(start, steps);
    CursorNeverFallsOneAtATime(Run(start, steps), more);
    RunAppend(start, steps, more);
  }

  /** A dispatcher takes one uninteresting event up to its cursor write, whatever the others are doing. */
  /** Reading the cursor and the outbox takes up the one event there is to take. */
  lemma OneEventRead(w: World, p: nat)
    requires w.config.dispatchBatch == 1 && p !in w.dispatchers && p !in w.cursorsRead
    requires w.cursor < |w.outbox| && w.outbox[w.cursor] == Event(0, OtherEvent)
    ensures Apply(Apply(w, ReadCursor(p)), ReadOutbox(p))
         == w.(dispatchers := w.dispatchers[p := Dispatch(w.cursor, w.cursor + 1, [0])])
  {
    var w1 := w.(cursorsRead := w.cursorsRead[p := w.cursor]);
    assert Apply(w, ReadCursor(p)) == w1;
    assert w1.cursorsRead - {p} == w.cursorsRead;
    assert w.outbox[w.cursor..w.cursor + 1] == [w.outbox[w.cursor]];
    assert TenantsOf([w.outbox[w.cursor]]) == [0] by {
      assert TenantsOf([w.outbox[w.cursor]][..0]) == [];
    }
  }

  /** A dispatcher takes one uninteresting event up to its cursor write, whatever the others are doing. */
  lemma OneUneventfulRead(w: World, p: nat)
    requires w.config.dispatchBatch == 1 && p !in w.dispatchers && p !in w.cursorsRead
    requires w.cursor < |w.outbox| && w.outbox[w.cursor] == Event(0, OtherEvent)
    ensures var after := Run(w, [ReadCursor(p), ReadOutbox(p), DispatchTenant(p, 0)]);
      && after.dispatchers == w.dispatchers[p := Dispatch(w.cursor, w.cursor + 1, [])]
      && after.cursor == w.cursor && after.cursorsRead == w.cursorsRead
      && after.outbox == w.outbox && after.config == w.config
  {
    hide InsertPlans, RecordImplied, Run;
    OneEventRead(w, p);
    RunThree(w, ReadCursor(p), ReadOutbox(p), DispatchTenant(p, 0));
    assert [0][1..] == [];
  }

  lemma OneUneventfulDispatch(w: World, p: nat)
    requires w.config.dispatchBatch == 1 && p !in w.dispatchers && p !in w.cursorsRead
    requires w.cursor < |w.outbox| && w.outbox[w.cursor] == Event(0, OtherEvent)
    ensures var after := Run(w, [ReadCursor(p), ReadOutbox(p), DispatchTenant(p, 0)] + [AdvanceCursor(p)]);
      && after.cursor == w.cursor + 1 && after.dispatchers == w.dispatchers && after.cursorsRead == w.cursorsRead
      && after.outbox == w.outbox && after.config == w.config
  {
    hide InsertPlans, RecordImplied;
    OneUneventfulRead(w, p);
    var read := [ReadCursor(p), ReadOutbox(p), DispatchTenant(p, 0)];
    RunAppend(w, read, [AdvanceCursor(p)]);
    var w3 := Run(w, read);
    assert w3.dispatchers - {p} == w.dispatchers;
    hide Run;
    RunOne(w3, AdvanceCursor(p));
  }

  lemma RunOne(w: World, step: Step)
    ensures Run(w, [step]) == Apply(w, step)
  {
    hide Apply;
    assert [step] == [step] + [];
    RunCons(w, step, []);
  }

  lemma TwoEventsThere(directory: Directory, event: Event)
    ensures var w := Run(Start(Config(1, 1, 1), directory), [Emit(event), Emit(event)]);
      w == Start(Config(1, 1, 1), directory).(outbox := [event, event])
  {
    var w0 := Start(Config(1, 1, 1), directory);
    assert [Emit(event), Emit(event)] == [Emit(event)] + [Emit(event)];
    RunAppend(w0, [Emit(event)], [Emit(event)]);
    RunOne(w0, Emit(event));
    RunOne(Apply(w0, Emit(event)), Emit(event));
  }

  /**
   * Two at a time may: the write is unconditional, so a slow dispatcher can set
   * the cursor back behind a faster one. Only replay follows.
   */
  lemma CursorMayMoveBack(directory: Directory)
    ensures exists steps, last ::
      Run(Start(Config(1, 1, 1), directory), steps).cursor == 2
      && Run(Start(Config(1, 1, 1), directory), steps + [last]).cursor == 1
  {
    hide Apply;
    var event, w0 := Event(0, OtherEvent), Start(Config(1, 1, 1), directory);
    var emits := [Emit(event), Emit(event)];
    var slow := [ReadCursor(0), ReadOutbox(0), DispatchTenant(0, 0)];
    var fast := [ReadCursor(1), ReadOutbox(1), DispatchTenant(1, 0)] + [AdvanceCursor(1)];
    TwoEventsThere(directory, event);
    var w2 := Run(w0, emits);
    OneUneventfulRead(w2, 0);
    var w4 := Run(w2, slow);
    OneUneventfulDispatch(w4, 1);
    OneUneventfulDispatch(Run(w4, fast), 1);
    var w6 := Run(Run(w4, fast), fast);
    SlowWrite(w6);
    RunAppend(w0, emits, slow);
    RunAppend(w0, emits + slow, fast);
    RunAppend(w0, emits + slow + fast, fast);
    var steps := emits + slow + fast + fast;
    RunAppend(w0, steps, [AdvanceCursor(0)]);
    RunOne(w6, AdvanceCursor(0));
    assert Run(w0, steps).cursor == 2 && Run(w0, steps + [AdvanceCursor(0)]).cursor == 1;
  }

  lemma SlowWrite(w: World)
    requires 0 in w.dispatchers && w.dispatchers[0] == Dispatch(0, 1, [])
    ensures Apply(w, AdvanceCursor(0)).cursor == 1
  {
  }
}
