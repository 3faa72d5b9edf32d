/**
 * How often a notification is attempted: attempts are bounded by the budget
 * plus the mishaps, that bound is reached, mishaps alone can keep a row going
 * for ever, and a pass that nothing disturbs attempts every row it read.
 */
module SenderProgress {
  import opened Outcomes
  import opened OrderStates
  import opened NotificationRules
  import opened NotificationTable
  import opened NotificationPlan
  import opened NotificationPipeline
  import opened DispatchSafety
  import opened SenderSafety

  // -- The attempt budget -------------------------------------------------------

  /**
   * A mishap of this row: its sender died holding it, its failure could not be
   * recorded, or a receipt reported it undelivered.
   */
  function Mishap(w: World, step: Step, key: Key): nat {
    match step
    case SenderCrash => if Owned(w.sender) == Some(key) then 1 else 0
    case LoseTheFailure => if w.sender.Failing? && w.sender.key == key then 1 else 0
    case WebhookReceipt(id, receipt, _) =>
      if key in w.table && Matches(w.table[key], id) && receipt == ReportsFailure && w.table[key].status == SENT then 1 else 0
    case _ => 0
  }

  ghost function Mishaps(w: World, steps: seq<Step>, key: Key): nat
    decreases steps
  {
    if steps == [] then 0 else Mishap(w, steps[0], key) + Mishaps(Apply(w, steps[0]), steps[1..], key)
  }

  /** A row about to be claimed has spent at most five attempts and its mishaps; any other, at most six. */
  ghost predicate WithinBudget(w: World, key: Key, mishaps: nat) {
    key in w.table ==>
      var row := w.table[key];
      row.attempts <= mishaps + (if row.status == PENDING || (row.status == PROCESSING && Owned(w.sender) != Some(key)) then 5 else 6)
  }

  lemma DispatchedRowsAreUntried(w: World, p: nat, now: int, key: Key)
    requires key !in w.table && key in Apply(w, DispatchTenant(p, now)).table
    ensures Apply(w, DispatchTenant(p, now)).table[key].attempts == 0
  {
    hide Plan, RecordImplied;
    var d := w.dispatchers[p];
    InsertPlansOnlyPlans(w.table, w.directory, w.outbox, d.start, d.end, d.todo[0], now, key);
    PlannedIff(w.directory, key.event, w.outbox[key.event], now, (key, Apply(w, DispatchTenant(p, now)).table[key]));
  }

  lemma PromotedRowsAreUntried(w: World, facts: SendFacts, reply: Reply, now: int, key: Key)
    requires Sound(w) && key !in w.table && key in Apply(w, Deliver(facts, reply, now)).table
    ensures Apply(w, Deliver(facts, reply, now)).table[key].attempts == 0
  {
    hide AfterDelivery, Sound;
    DeliveryLeavesAttempts(w, facts, reply, now);
  }

  lemma NewRowsAreUntried(w: World, step: Step, key: Key)
    requires Sound(w) && key !in w.table && key in Apply(w, step).table
    ensures Apply(w, step).table[key].attempts == 0
  {
    if step.DispatchTenant? {
      hide Apply, Sound;
      DispatchedRowsAreUntried(w, step.dispatcher, step.now, key);
    } else if step.Deliver? {
      hide Apply, Sound;
      PromotedRowsAreUntried(w, step.facts, step.reply, step.now, key);
    } else {
      hide Apply, Sound;
      OthersAddNoRow(w, step);
      assert false;
    }
  }

  lemma OthersAddNoRow(w: World, step: Step)
    requires !step.DispatchTenant? && !step.Deliver?
    ensures Apply(w, step).table.Keys == w.table.Keys
  {
    hide InsertPlans, RecordImplied, AfterDelivery, IsDueBatch, NextRetryAt, RowsOfTenant, TenantsOf, AfterReceipt;
  }

  lemma DeliverWithinBudget(w: World, facts: SendFacts, reply: Reply, now: int, key: Key, mishaps: nat)
    requires Sound(w) && w.sender.Delivering? && key in w.table && WithinBudget(w, key, mishaps)
    ensures WithinBudget(AfterDelivery(w, facts, reply, now), key, mishaps)
  {
    hide AfterDelivery, Sound;
    DeliveryLeavesAttempts(w, facts, reply, now);
    DeliverySettlesOrFails(w, facts, reply, now);
  }

  /** The row in hand is settled unless its failure is still to be recorded. */
  lemma DeliverySettlesOrFails(w: World, facts: SendFacts, reply: Reply, now: int)
    requires Sound(w) && w.sender.Delivering?
    ensures var after := AfterDelivery(w, facts, reply, now);
      w.sender.key in after.table && (after.sender.Working? ==> !Waiting(after.table[w.sender.key].status))
  {
    hide Forbidden, FallbackDestination, Suppress, RowsSound;
    var key := w.sender.key;
    SuppressEffect(w.table, key, facts.adapters, FallbackDestination(w.directory, key.recipient, w.table[key].destination), now);
  }

  lemma StepWithinBudget(w: World, step: Step, key: Key, mishaps: nat)
    requires Sound(w) && WithinBudget(w, key, mishaps)
    ensures WithinBudget(Apply(w, step), key, mishaps + Mishap(w, step, key))
  {
    hide Apply, Sound;
    if key in Apply(w, step).table && key !in w.table {
      NewRowsAreUntried(w, step, key);
    } else if key in w.table {
      match step
      case DispatchTenant(p, now) => DispatchWithinBudget(w, p, now, key, mishaps);
      case Deliver(facts, reply, now) => DeliverStepWithinBudget(w, facts, reply, now, key, mishaps);
      case RecordTheFailure(now, random) => RecordWithinBudget(w, now, random, key, mishaps);
      case WebhookReceipt(id, receipt, now) => ReceiptWithinBudget(w, id, receipt, now, key, mishaps);
      case ClaimNext => ClaimWithinBudget(w, key, mishaps);
      case _ => OtherStepWithinBudget(w, step, key, mishaps);
    }
  }

  lemma DispatchWithinBudget(w: World, p: nat, now: int, key: Key, mishaps: nat)
    requires key in w.table && WithinBudget(w, key, mishaps)
    ensures WithinBudget(Apply(w, DispatchTenant(p, now)), key, mishaps)
  {
    hide InsertPlans, RecordImplied;
    DispatchKeepsRow(w, p, now, key);
  }

  lemma DeliverStepWithinBudget(w: World, facts: SendFacts, reply: Reply, now: int, key: Key, mishaps: nat)
    requires Sound(w) && key in w.table && WithinBudget(w, key, mishaps)
    ensures WithinBudget(Apply(w, Deliver(facts, reply, now)), key, mishaps)
  {
    hide AfterDelivery, Sound, WithinBudget;
    if w.sender.Delivering? {
      DeliverWithinBudget(w, facts, reply, now, key, mishaps);
    }
  }

  lemma RecordWithinBudget(w: World, now: int, random: Random, key: Key, mishaps: nat)
    requires key in w.table && WithinBudget(w, key, mishaps)
    ensures WithinBudget(Apply(w, RecordTheFailure(now, random)), key, mishaps)
  {
    hide NextRetryAt;
    RetryWindow(w.table[key].attempts, now, random);
  }

  /** The rest leave the row alone, and the sender holding what it held or letting go of it by a mishap. */
  lemma OtherStepWithinBudget(w: World, step: Step, key: Key, mishaps: nat)
    requires Sound(w) && key in w.table && WithinBudget(w, key, mishaps)
    requires !step.DispatchTenant? && !step.Deliver? && !step.RecordTheFailure? && !step.WebhookReceipt? && !step.ClaimNext?
    ensures WithinBudget(Apply(w, step), key, mishaps + Mishap(w, step, key))
  {
    hide Sound, IsDueBatch, RowsOfTenant, TenantsOf;
  }

  lemma ClaimWithinBudget(w: World, key: Key, mishaps: nat)
    requires Sound(w) && key in w.table && WithinBudget(w, key, mishaps)
    ensures WithinBudget(Apply(w, ClaimNext), key, mishaps)
  {
    hide RowsSound;
  }

  lemma ReceiptWithinBudget(w: World, id: nat, receipt: Receipt, now: int, key: Key, mishaps: nat)
    requires Sound(w) && key in w.table && WithinBudget(w, key, mishaps)
    ensures WithinBudget(Apply(w, WebhookReceipt(id, receipt, now)), key,
                         mishaps + Mishap(w, WebhookReceipt(id, receipt, now), key))
  {
    assert RowSound(w.outbox, key, w.table[key]);
  }

  lemma DispatchKeepsRow(w: World, p: nat, now: int, key: Key)
    requires key in w.table
    ensures key in Apply(w, DispatchTenant(p, now)).table && Apply(w, DispatchTenant(p, now)).table[key] == w.table[key]
  {
    hide Plan, RecordImplied;
    if p in w.dispatchers && w.dispatchers[p].todo != [] && w.dispatchers[p].end <= |w.outbox| {
      var d := w.dispatchers[p];
      InsertPlansAdds(w.table, w.directory, w.outbox, d.start, d.end, d.todo[0], now);
    }
  }

  lemma {:induction false} RunWithinBudget(w: World, steps: seq<Step>, key: Key, mishaps: nat)
    requires Sound(w) && WithinBudget(w, key, mishaps)
    ensures WithinBudget(Run(w, steps), key, mishaps + Mishaps(w, steps, key))
    decreases steps
  {
    hide Sound, WithinBudget, Mishap;
    if steps != [] {
      StepKeepsSound(w, steps[0]);
      StepWithinBudget(w, steps[0], key, mishaps);
      RunWithinBudget(Apply(w, steps[0]), steps[1..], key, mishaps + Mishap(w, steps[0], key));
    }
  }

  /** In every run, a row is attempted at most six times, plus once for each of its mishaps. */
  lemma AttemptsAreBounded(config: Config, directory: Directory, steps: seq<Step>, key: Key)
    requires key in Run(Start(config, directory), steps).table
    ensures Run(Start(config, directory), steps).table[key].attempts <= 6 + Mishaps(Start(config, directory), steps, key)
  {
    RunWithinBudget(Start(config, directory), steps, key, 0);
  }

  // -- Mishaps alone keep a row going -------------------------------------------

  /** A pass that dies in the middle of this row, n times over. */
  function CrashRounds(key: Key, status: NotificationStatus, now: int, n: nat): seq<Step>
    decreases n
  {
    if n == 0 then []
    else [ReadDue(0, now, [Candidate(key, status)]), ClaimNext, SenderCrash] + CrashRounds(key, PROCESSING, now, n - 1)
  }

  /** The only row there is, tenant 0's, waiting, with nobody holding it. */
  ghost predicate Alone(w: World, key: Key, now: int) {
    && w.table.Keys == {key} && key.event < |w.outbox| && w.outbox[key.event].tenant == 0
    && Waiting(w.table[key].status)
    && w.table[key].nextAttemptAt.Some? && w.table[key].nextAttemptAt.value <= now - w.config.staleClaimMs
    && w.sender.Resting? && w.config.sendBatch >= 1
  }

  lemma AloneIsDue(w: World, key: Key, now: int)
    requires Alone(w, key, now)
    ensures IsDueBatch(RowsOfTenant(w.outbox, w.table, 0), now, w.config.staleClaimMs, w.config.sendBatch,
                       [Candidate(key, w.table[key].status)])
  {
    var due := [Candidate(key, w.table[key].status)];
    assert RowsOfTenant(w.outbox, w.table, 0) == w.table;
    assert Listed(due, key) by { assert due[0].key == key; }
  }

  lemma ClaimsTheOnlyRow(w: World, candidate: Candidate)
    requires w.table.Keys == {candidate.key} && w.table[candidate.key].status == candidate.status
    requires w.sender == Working([candidate])
    ensures var row := w.table[candidate.key];
      Apply(w, ClaimNext) == w.(table := map[candidate.key := ClaimedAgain(row)], sender := Delivering(candidate.key, []))
  {
    var row := ClaimedAgain(w.table[candidate.key]);
    assert w.table[candidate.key := row] == map[candidate.key := row];
    assert [candidate][1..] == [];
  }

  lemma ReadsTheOnlyRow(w: World, key: Key, now: int)
    requires Alone(w, key, now)
    ensures var due := [Candidate(key, w.table[key].status)]; Apply(w, ReadDue(0, now, due)) == w.(sender := Working(due))
  {
    AloneIsDue(w, key, now);
    hide IsDueBatch;
  }

  lemma DiesHolding(w: World, key: Key)
    requires w.sender == Delivering(key, [])
    ensures Apply(w, SenderCrash) == w.(sender := Resting)
  {
  }

  /** A row claimed once more. */
  function ClaimedAgain(row: Notification): Notification {
    row.(status := PROCESSING, attempts := row.attempts + 1)
  }

  lemma CrashRound(w: World, key: Key, now: int)
    requires Alone(w, key, now)
    ensures Run(w, [ReadDue(0, now, [Candidate(key, w.table[key].status)]), ClaimNext, SenderCrash])
         == w.(table := map[key := ClaimedAgain(w.table[key])])
  {
    var candidate, claimed := Candidate(key, w.table[key].status), map[key := ClaimedAgain(w.table[key])];
    ReadsTheOnlyRow(w, key, now);
    ClaimsTheOnlyRow(w.(sender := Working([candidate])), candidate);
    DiesHolding(w.(table := claimed, sender := Delivering(key, [])), key);
    assert w.sender == Resting;
    hide Apply, Run, Alone, ClaimedAgain;
    RunThree(w, ReadDue(0, now, [candidate]), ClaimNext, SenderCrash);
  }

  /**
   * The reclaim of a row whose worker died does not look at its attempts, so
   * crash after crash claims it again: after n of them it has n more attempts,
   * whatever the budget of six, and is still neither sent nor given up.
   */
  lemma {:induction false} CrashingRowIsReclaimedForever(w: World, key: Key, now: int, n: nat)
    requires Alone(w, key, now)
    ensures var after := Run(w, CrashRounds(key, w.table[key].status, now, n));
      && Alone(after, key, now)
      && after.table[key].attempts == w.table[key].attempts + n
    decreases n
  {
    hide Apply;
    if n > 0 {
      var round := [ReadDue(0, now, [Candidate(key, w.table[key].status)]), ClaimNext, SenderCrash];
      CrashRound(w, key, now);
      RunAppend(w, round, CrashRounds(key, PROCESSING, now, n - 1));
      CrashingRowIsReclaimedForever(Run(w, round), key, now, n - 1);
    }
  }

  const ACCEPTED := Event(0, StatusChanged(Some(0), Some(Accepted)))

  /** One accepted order, whose customer can be reached. */
  const ONE_ORDER := Directory(map[], map[0 := OrderFacts(0, Some(0))], map[0 := CustomerFacts(7, None)], map[], map[], [])

  const ONE_CONFIG := Config(1, 1, 0)

  const ONE_KEY := Key(0, CustomerRecipient(0), Whatsapp)

  lemma OneOrderPlan()
    ensures Plan(ONE_ORDER, 0, ACCEPTED, 0) == [(ONE_KEY, Queued(OrderAccepted, Some(7), 0))]
  {
    var spec := NotificationForOrderStatus(Accepted).value;
    assert ChannelsFor(spec, ONE_ORDER, 0, CustomerRecipient(0)) == [Whatsapp] by {
      assert UsableAmong([Whatsapp][1..], ONE_ORDER, 0, CustomerRecipient(0)) == [];
    }
    assert Plan(ONE_ORDER, 0, ACCEPTED, 0) == OrderRows(ONE_ORDER, 0, 0, spec, ONE_ORDER.orders[0], 0);
    assert OrderRows(ONE_ORDER, 0, 0, spec, ONE_ORDER.orders[0], 0)
        == RowsFor(CustomerRecipient(0), ONE_ORDER, 0, 0, spec, 0);
  }

  lemma OneOrderInserted()
    ensures InsertPlans(map[], ONE_ORDER, [ACCEPTED], 0, 1, 0, 0) == map[ONE_KEY := Queued(OrderAccepted, Some(7), 0)]
  {
    hide Plan;
    OneOrderPlan();
    var row := (ONE_KEY, Queued(OrderAccepted, Some(7), 0));
    assert InsertPlans(map[], ONE_ORDER, [ACCEPTED], 0, 1, 0, 0) == InsertAll(map[], [row]);
    assert InsertAll(map[], [row]) == map[ONE_KEY := row.1] by {
      assert InsertAll(map[ONE_KEY := row.1], [row][1..]) == map[ONE_KEY := row.1];
    }
  }

  const ONE_DISPATCH := [Emit(ACCEPTED), ReadCursor(0)] + [ReadOutbox(0), DispatchTenant(0, 0)]

  lemma OneOrderRead()
    ensures Run(Start(ONE_CONFIG, ONE_ORDER), [Emit(ACCEPTED), ReadCursor(0)])
         == Start(ONE_CONFIG, ONE_ORDER).(outbox := [ACCEPTED], cursorsRead := map[0 := 0])
  {
    var w0 := Start(ONE_CONFIG, ONE_ORDER);
    assert [Emit(ACCEPTED), ReadCursor(0)] == [Emit(ACCEPTED)] + ([ReadCursor(0)] + []);
    RunCons(w0, Emit(ACCEPTED), [ReadCursor(0)] + []);
    RunCons(Apply(w0, Emit(ACCEPTED)), ReadCursor(0), []);
  }

  lemma OneOrderPlanned(w: World)
    requires w == Start(ONE_CONFIG, ONE_ORDER).(outbox := [ACCEPTED], cursorsRead := map[0 := 0])
    ensures var after := Run(w, [ReadOutbox(0), DispatchTenant(0, 0)]);
      after == w.(cursorsRead := map[], dispatchers := map[0 := Dispatch(0, 1, [])],
                  table := map[ONE_KEY := Queued(OrderAccepted, Some(7), 0)], implied := after.implied)
  {
    hide InsertPlans, RecordImplied;
    assert w.outbox[0..1] == [ACCEPTED];
    assert TenantsOf([ACCEPTED]) == [0] by {
      assert TenantsOf([ACCEPTED][..0]) == [];
    }
    var w1 := Apply(w, ReadOutbox(0));
    assert w1 == w.(cursorsRead := map[], dispatchers := map[0 := Dispatch(0, 1, [0])]) by {
      assert w.cursorsRead - {0} == map[];
    }
    OneOrderInserted();
    assert [0][1..] == [];
    assert [ReadOutbox(0), DispatchTenant(0, 0)] == [ReadOutbox(0)] + ([DispatchTenant(0, 0)] + []);
    RunCons(w, ReadOutbox(0), [DispatchTenant(0, 0)] + []);
    RunCons(w1, DispatchTenant(0, 0), []);
  }

  /** Dispatching it leaves the one row a crash loop needs. */
  lemma OneOrderDispatched()
    ensures var w := Run(Start(ONE_CONFIG, ONE_ORDER), ONE_DISPATCH);
      && Alone(w, ONE_KEY, 0) && w.table[ONE_KEY] == Queued(OrderAccepted, Some(7), 0)
      && w.config == ONE_CONFIG && w.outbox == [ACCEPTED]
  {
    hide Run;
    var w0 := Start(ONE_CONFIG, ONE_ORDER);
    OneOrderRead();
    OneOrderPlanned(Run(w0, [Emit(ACCEPTED), ReadCursor(0)]));
    RunAppend(w0, [Emit(ACCEPTED), ReadCursor(0)], [ReadOutbox(0), DispatchTenant(0, 0)]);
  }

  /** So for every n there is a run in which a row has been attempted n times and still waits. */
  lemma AttemptsHaveNoFixedBound(n: nat)
    ensures exists steps :: var after := Run(Start(ONE_CONFIG, ONE_ORDER), steps);
      ONE_KEY in after.table && after.table[ONE_KEY].attempts == n && Waiting(after.table[ONE_KEY].status)
  {
    hide Apply;
    var setup := ONE_DISPATCH;
    OneOrderDispatched();
    var w := Run(Start(ONE_CONFIG, ONE_ORDER), setup);
    CrashingRowIsReclaimedForever(w, ONE_KEY, 0, n);
    RunAppend(Start(ONE_CONFIG, ONE_ORDER), setup, CrashRounds(ONE_KEY, w.table[ONE_KEY].status, 0, n));
  }

  // -- The bound is reached -------------------------------------------------------

  lemma {:induction false} MishapsAppend(w: World, first: seq<Step>, second: seq<Step>, key: Key)
    ensures Mishaps(w, first + second, key) == Mishaps(w, first, key) + Mishaps(Run(w, first), second, key)
    decreases first
  {
    hide Apply, Mishap;
    if first == [] {
      assert first + second == second;
    } else {
      assert (first + second)[1..] == first[1..] + second;
      MishapsAppend(Apply(w, first[0]), first[1..], second, key);
    }
  }

  /** Steps none of which can be a mishap. */
  predicate Calm(steps: seq<Step>) {
    forall i :: 0 <= i < |steps| ==> !steps[i].SenderCrash? && !steps[i].LoseTheFailure? && !steps[i].WebhookReceipt?
  }

  lemma {:induction false} CalmHasNoMishaps(w: World, steps: seq<Step>, key: Key)
    requires Calm(steps)
    ensures Mishaps(w, steps, key) == 0
    decreases steps
  {
    hide Apply;
    if steps != [] {
      CalmHasNoMishaps(Apply(w, steps[0]), steps[1..], key);
    }
  }

  lemma CrashRoundIsOneMishap(w: World, key: Key, now: int)
    requires Alone(w, key, now)
    ensures Mishaps(w, [ReadDue(0, now, [Candidate(key, w.table[key].status)]), ClaimNext, SenderCrash], key) == 1
  {
    var candidate := Candidate(key, w.table[key].status);
    ReadsTheOnlyRow(w, key, now);
    var w1 := w.(sender := Working([candidate]));
    ClaimsTheOnlyRow(w1, candidate);
    var w2 := Apply(w1, ClaimNext);
    assert Mishap(w2, SenderCrash, key) == 1;
    var calm := [ReadDue(0, now, [candidate]), ClaimNext];
    assert [ReadDue(0, now, [candidate]), ClaimNext, SenderCrash] == calm + [SenderCrash];
    hide Apply, Mishap;
    CalmHasNoMishaps(w, calm, key);
    MishapsAppend(w, calm, [SenderCrash], key);
    assert calm == [ReadDue(0, now, [candidate])] + ([ClaimNext] + []);
    RunCons(w, ReadDue(0, now, [candidate]), [ClaimNext] + []);
    RunCons(w1, ClaimNext, []);
    OneStepMishaps(w2, SenderCrash, key);
  }

  lemma OneStepMishaps(w: World, step: Step, key: Key)
    ensures Mishaps(w, [step], key) == Mishap(w, step, key)
  {
    hide Apply, Mishap;
    assert [step][1..] == [];
  }

  lemma {:induction false} CrashRoundsAreMishaps(w: World, key: Key, now: int, n: nat)
    requires Alone(w, key, now)
    ensures Mishaps(w, CrashRounds(key, w.table[key].status, now, n), key) == n
    decreases n
  {
    hide Apply, Mishap;
    if n > 0 {
      var round := [ReadDue(0, now, [Candidate(key, w.table[key].status)]), ClaimNext, SenderCrash];
      CrashRound(w, key, now);
      CrashRoundIsOneMishap(w, key, now);
      MishapsAppend(w, round, CrashRounds(key, PROCESSING, now, n - 1), key);
      CrashRoundsAreMishaps(Run(w, round), key, now, n - 1);
    }
  }

  const NO_FACTS := SendFacts({}, false, None, None)

  /** A pass whose only delivery fails and is put back on the ladder. */
  function FailedPass(key: Key, now: int): seq<Step> {
    [ReadDue(0, now, [Candidate(key, PENDING)]), ClaimNext]
    + [Deliver(NO_FACTS, RolledBack, now), RecordTheFailure(now, 0.0), FinishPass]
  }

  /** Later than any retry, and than a stale claim. */
  function NextTry(w: World, now: int): int {
    now + 480_000 + w.config.staleClaimMs
  }

  lemma FailedDelivery(w: World, key: Key, now: int)
    requires w.sender == Delivering(key, []) && w.table.Keys == {key} && w.table[key].attempts < 6
    ensures var after := Run(w, [Deliver(NO_FACTS, RolledBack, now), RecordTheFailure(now, 0.0), FinishPass]);
      && key in after.table && after.table[key].nextAttemptAt.Some? && after.table[key].nextAttemptAt.value < now + 480_000
      && after == w.(sender := Resting,
                     table := map[key := w.table[key].(status := PENDING, nextAttemptAt := after.table[key].nextAttemptAt)])
  {
    hide NextRetryAt;
    RetryWindow(w.table[key].attempts, now, 0.0);
    RunThree(w, Deliver(NO_FACTS, RolledBack, now), RecordTheFailure(now, 0.0), FinishPass);
    var retried := w.table[key].(status := PENDING, nextAttemptAt := NextRetryAt(w.table[key].attempts, now, 0.0));
    assert w.table[key := retried] == map[key := retried];
  }

  lemma FailedPassEffect(w: World, key: Key, now: int)
    requires Alone(w, key, now) && w.table[key].status == PENDING && w.table[key].attempts < 5
    ensures var after := Run(w, FailedPass(key, now));
      && Alone(after, key, NextTry(w, now)) && after.config == w.config && key in after.table
      && after.table[key].status == PENDING && after.table[key].attempts == w.table[key].attempts + 1
  {
    var candidate := Candidate(key, PENDING);
    ReadsTheOnlyRow(w, key, now);
    var w1 := w.(sender := Working([candidate]));
    ClaimsTheOnlyRow(w1, candidate);
    var w2 := Apply(w1, ClaimNext);
    FailedDelivery(w2, key, now);
    hide Apply;
    var claim := [ReadDue(0, now, [candidate]), ClaimNext];
    assert claim == [ReadDue(0, now, [candidate])] + ([ClaimNext] + []);
    RunCons(w, ReadDue(0, now, [candidate]), [ClaimNext] + []);
    RunCons(w1, ClaimNext, []);
    RunAppend(w, claim, [Deliver(NO_FACTS, RolledBack, now), RecordTheFailure(now, 0.0), FinishPass]);
  }

  lemma FailedPassIsCalm(w: World, key: Key, now: int)
    ensures Mishaps(w, FailedPass(key, now), key) == 0
  {
    hide Mishaps;
    CalmHasNoMishaps(w, FailedPass(key, now), key);
  }

  /** The only row, back on the ladder after this many attempts. */
  ghost predicate Retrying(w: World, key: Key, attempts: nat) {
    key in w.table && w.table[key].status == PENDING && w.table[key].attempts == attempts && exists now :: Alone(w, key, now)
  }

  lemma OneMoreFailedPass(w: World, key: Key, attempts: nat)
    requires Retrying(w, key, attempts) && attempts < 5
    ensures exists steps :: Mishaps(w, steps, key) == 0 && Retrying(Run(w, steps), key, attempts + 1)
  {
    var now :| Alone(w, key, now);
    FailedPassEffect(w, key, now);
    FailedPassIsCalm(w, key, now);
    hide Alone, Run, Mishaps;
    assert Retrying(Run(w, FailedPass(key, now)), key, attempts + 1);
  }

  lemma {:induction false} FailedPasses(w: World, key: Key, n: nat)
    requires Retrying(w, key, 0) && n <= 5
    ensures exists steps :: Mishaps(w, steps, key) == 0 && Retrying(Run(w, steps), key, n)
  {
    hide Retrying, Run, Mishaps;
    if n == 0 {
      NothingRun(w, key);
      assert Mishaps(w, [], key) == 0 && Retrying(Run(w, []), key, n);
    } else {
      FailedPasses(w, key, n - 1);
      var steps :| Mishaps(w, steps, key) == 0 && Retrying(Run(w, steps), key, n - 1);
      OneMoreFailedPass(Run(w, steps), key, n - 1);
      var more :| Mishaps(Run(w, steps), more, key) == 0 && Retrying(Run(Run(w, steps), more), key, n);
      RunAppend(w, steps, more);
      MishapsAppend(w, steps, more, key);
      assert Mishaps(w, steps + more, key) == 0 && Retrying(Run(w, steps + more), key, n);
    }
  }

  lemma NothingRun(w: World, key: Key)
    ensures Run(w, []) == w && Mishaps(w, [], key) == 0
  {
  }

  lemma TheOnlyRow(w: World, key: Key, now: int)
    requires Alone(w, key, now)
    ensures key in w.table
  {
    assert key in w.table.Keys;
  }

  lemma LastClaim(w: World, key: Key, now: int)
    requires Alone(w, key, now)
    ensures var steps := [ReadDue(0, now, [Candidate(key, w.table[key].status)]), ClaimNext];
      && Mishaps(w, steps, key) == 0
      && key in Run(w, steps).table && Run(w, steps).table[key].attempts == w.table[key].attempts + 1
  {
    var candidate := Candidate(key, w.table[key].status);
    ReadsTheOnlyRow(w, key, now);
    ClaimsTheOnlyRow(w.(sender := Working([candidate])), candidate);
    hide Apply, Mishap;
    CalmHasNoMishaps(w, [ReadDue(0, now, [candidate]), ClaimNext], key);
    assert [ReadDue(0, now, [candidate]), ClaimNext] == [ReadDue(0, now, [candidate])] + ([ClaimNext] + []);
    RunCons(w, ReadDue(0, now, [candidate]), [ClaimNext] + []);
    RunCons(w.(sender := Working([candidate])), ClaimNext, []);
  }

  /** The bound is exact: for every number of mishaps there is a run with just those in which a row is attempted six times more. */
  lemma AttemptsBoundIsReached(mishaps: nat)
    ensures exists steps :: (
      && Mishaps(Start(ONE_CONFIG, ONE_ORDER), steps, ONE_KEY) == mishaps
      && ONE_KEY in Run(Start(ONE_CONFIG, ONE_ORDER), steps).table
      && Run(Start(ONE_CONFIG, ONE_ORDER), steps).table[ONE_KEY].attempts == 6 + mishaps)
  {
    hide Apply, Alone, Mishaps, Run;
    var start := Start(ONE_CONFIG, ONE_ORDER);
    OneOrderDispatched();
    CalmHasNoMishaps(start, ONE_DISPATCH, ONE_KEY);
    var w := Run(start, ONE_DISPATCH);
    TheOnlyRow(w, ONE_KEY, 0);
    assert Alone(w, ONE_KEY, 0) && w.table[ONE_KEY].status == PENDING;
    FailedPasses(w, ONE_KEY, 5);
    var fails :| Mishaps(w, fails, ONE_KEY) == 0 && Retrying(Run(w, fails), ONE_KEY, 5);
    var w1 := Run(w, fails);
    var later :| Alone(w1, ONE_KEY, later);
    var crashes := CrashRounds(ONE_KEY, PENDING, later, mishaps);
    CrashingRowIsReclaimedForever(w1, ONE_KEY, later, mishaps);
    CrashRoundsAreMishaps(w1, ONE_KEY, later, mishaps);
    var w2 := Run(w1, crashes);
    TheOnlyRow(w2, ONE_KEY, later);
    var claim := [ReadDue(0, later, [Candidate(ONE_KEY, w2.table[ONE_KEY].status)]), ClaimNext];
    LastClaim(w2, ONE_KEY, later);
    Chain(start, ONE_DISPATCH, fails, crashes, claim, ONE_KEY);
    assert Run(start, ONE_DISPATCH + fails + crashes + claim).table[ONE_KEY].attempts == 6 + mishaps;
  }

  lemma Chain(w: World, a: seq<Step>, b: seq<Step>, c: seq<Step>, d: seq<Step>, key: Key)
    ensures Run(w, a + b + c + d) == Run(Run(Run(Run(w, a), b), c), d)
    ensures Mishaps(w, a + b + c + d, key)
         == Mishaps(w, a, key) + Mishaps(Run(w, a), b, key) + Mishaps(Run(Run(w, a), b), c, key)
            + Mishaps(Run(Run(Run(w, a), b), c), d, key)
  {
    hide Run, Mishaps;
    RunAppend(w, a, b);
    MishapsAppend(w, a, b, key);
    RunAppend(w, a + b, c);
    MishapsAppend(w, a + b, c, key);
    RunAppend(w, a + b + c, d);
    MishapsAppend(w, a + b + c, d, key);
  }

  // -- A pass that nothing disturbs -----------------------------------------------

  /** What happens to one row of a pass. */
  datatype Turn = Turn(facts: SendFacts, reply: Reply, now: int, failedAt: int, random: Random)

  /** One pass over a tenant: what the read returned, and one turn for each row. */
  datatype Pass = Pass(tenant: nat, now: int, due: seq<Candidate>, turns: seq<Turn>)

  function TurnSteps(turn: Turn): seq<Step> {
    [ClaimNext, Deliver(turn.facts, turn.reply, turn.now), RecordTheFailure(turn.failedAt, turn.random)]
  }

  function TurnsSteps(turns: seq<Turn>): seq<Step> {
    if turns == [] then [] else TurnSteps(turns[0]) + TurnsSteps(turns[1..])
  }

  function PassSteps(pass: Pass): seq<Step> {
    [ReadDue(pass.tenant, pass.now, pass.due)] + (TurnsSteps(pass.turns) + [FinishPass])
  }

  /** What the sender queued is still as it was read. */
  ghost predicate Fresh(table: Table, queue: seq<Candidate>) {
    && (forall i :: 0 <= i < |queue| ==> queue[i].key in table && table[queue[i].key].status == queue[i].status)
    && (forall i, j :: 0 <= i < j < |queue| ==> queue[i].key != queue[j].key)
  }

  /** One row was tried once more; the others stay, and only its chain may have grown. */
  ghost predicate Tried(before: Table, after: Table, key: Key) {
    && key in before && key in after && after[key].attempts == before[key].attempts + 1
    && (forall k :: k in before && k != key ==> k in after && after[k] == before[k])
    && (forall k :: k in after && k !in before ==> SameChain(k, key) && after[k].attempts == 0)
  }

  /** The delivery transaction either settles the row in hand or leaves it to be recorded; attempts stay. */
  lemma DeliveryLeavesAttempts(w: World, facts: SendFacts, reply: Reply, now: int)
    requires Sound(w) && w.sender.Delivering?
    ensures var after := AfterDelivery(w, facts, reply, now);
      var key := w.sender.key;
      && after == w.(table := after.table, sender := after.sender)
      && (after.sender == Working(w.sender.queue)
          || (after.table == w.table && after.sender.Failing? && after.sender.key == key && after.sender.queue == w.sender.queue))
      && key in after.table && after.table[key].attempts == w.table[key].attempts
      && (forall k :: k in w.table && k != key ==> k in after.table && after.table[k] == w.table[k])
      && (forall k :: k in after.table && k !in w.table ==> SameChain(k, key) && after.table[k].attempts == 0)
  {
    hide Forbidden, FallbackDestination, Suppress, RowsSound;
    var key := w.sender.key;
    SuppressEffect(w.table, key, facts.adapters, FallbackDestination(w.directory, key.recipient, w.table[key].destination), now);
  }

  /** A failure was recorded, or there was none to record. */
  lemma RecordingLeavesAttempts(w: World, now: int, random: Random)
    requires Sound(w) && (w.sender.Working? || w.sender.Failing?)
    ensures var after := Apply(w, RecordTheFailure(now, random));
      && after == w.(table := after.table, sender := Working(w.sender.queue))
      && after.table.Keys == w.table.Keys
      && (forall k :: k in w.table ==> after.table[k].attempts == w.table[k].attempts)
      && (forall k :: k in w.table && Owned(w.sender) != Some(k) ==> after.table[k] == w.table[k])
  {
    hide RowsSound, NextRetryAt;
  }

  lemma ClaimTakesTheFirst(w: World)
    requires Sound(w) && w.sender.Working? && w.sender.queue != [] && Fresh(w.table, w.sender.queue)
    ensures var key := w.sender.queue[0].key;
      var row := w.table[key].(status := PROCESSING, attempts := w.table[key].attempts + 1);
      Apply(w, ClaimNext) == w.(table := w.table[key := row], sender := Delivering(key, w.sender.queue[1..]))
  {
    hide RowsSound;
  }

  lemma TurnServes(w: World, turn: Turn)
    requires Sound(w) && w.sender.Working? && w.sender.queue != [] && Fresh(w.table, w.sender.queue)
    ensures var after := Run(w, TurnSteps(turn));
      && Sound(after) && after == w.(table := after.table, sender := Working(w.sender.queue[1..]))
      && Tried(w.table, after.table, w.sender.queue[0].key)
  {
    hide Apply, AfterDelivery, Sound;
    var deliver, record := Deliver(turn.facts, turn.reply, turn.now), RecordTheFailure(turn.failedAt, turn.random);
    RunThree(w, ClaimNext, deliver, record);
    ClaimTakesTheFirst(w);
    StepKeepsSound(w, ClaimNext);
    var w1 := Apply(w, ClaimNext);
    StepKeepsSound(w1, deliver);
    var w2 := Apply(w1, deliver);
    DeliverApplies(w1, turn.facts, turn.reply, turn.now);
    DeliveryLeavesAttempts(w1, turn.facts, turn.reply, turn.now);
    StepKeepsSound(w2, record);
    RecordingLeavesAttempts(w2, turn.failedAt, turn.random);
  }

  lemma DeliverApplies(w: World, facts: SendFacts, reply: Reply, now: int)
    requires w.sender.Delivering?
    ensures Apply(w, Deliver(facts, reply, now)) == AfterDelivery(w, facts, reply, now)
  {
    hide AfterDelivery;
  }

  /** An undisturbed pass: the sender rests, the read is genuine, and every row it returned gets its turn. */
  ghost predicate Undisturbed(w: World, pass: Pass) {
    && w.sender.Resting?
    && IsDueBatch(RowsOfTenant(w.outbox, w.table, pass.tenant), pass.now, w.config.staleClaimMs, w.config.sendBatch, pass.due)
    && |pass.turns| == |pass.due|
  }

  lemma PassBrackets(w: World, pass: Pass, done: World)
    requires Undisturbed(w, pass) && done.sender == Working([])
    ensures Apply(w, ReadDue(pass.tenant, pass.now, pass.due)) == w.(sender := Working(pass.due))
    ensures Fresh(w.table, pass.due)
    ensures Apply(done, FinishPass) == done.(sender := Resting)
  {
  }

  lemma StartIsSound(config: Config, directory: Directory)
    ensures Sound(Start(config, directory))
    ensures forall key :: WithinBudget(Start(config, directory), key, 0)
  {
  }
}
