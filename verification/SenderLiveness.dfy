/**
 * That notifications come to rest, over runs in which anything may happen
 * between and around the sender's passes: every attempt is a claim, claims are
 * bounded by the budgets, and every pass that nothing disturbs spends some of
 * them, full batches included.
 */
module SenderLiveness {
  import opened NotificationRules
  import opened NotificationTable
  import opened NotificationPlan
  import opened NotificationPipeline
  import opened SenderSafety
  import opened SenderProgress
  import DispatchSafety

  // -- Attempts are claims ------------------------------------------------------

  /** The row a step claims, if it claims one. */
  ghost function ClaimOf(w: World, step: Step): seq<Key> {
    if step.ClaimNext? && w.sender.Working? && w.sender.queue != []
       && Claim(w.table, w.sender.queue[0].key, w.sender.queue[0].status).1
    then [w.sender.queue[0].key] else []
  }

  /** Every claim of a run, in order. */
  ghost function Claims(w: World, steps: seq<Step>): seq<Key>
    decreases steps
  {
    if steps == [] then [] else ClaimOf(w, steps[0]) + Claims(Apply(w, steps[0]), steps[1..])
  }

  lemma {:induction false} ClaimsAppend(w: World, first: seq<Step>, second: seq<Step>)
    ensures Claims(w, first + second) == Claims(w, first) + Claims(Run(w, first), second)
    decreases first
  {
    hide Apply, ClaimOf;
    if first == [] {
      assert first + second == second;
    } else {
      assert (first + second)[1..] == first[1..] + second;
      ClaimsAppend(Apply(w, first[0]), first[1..], second);
    }
  }

  lemma ClaimsCons(w: World, step: Step, rest: seq<Step>)
    ensures Claims(w, [step] + rest) == ClaimOf(w, step) + Claims(Apply(w, step), rest)
  {
    assert ([step] + rest)[1..] == rest;
  }

  function AttemptsOf(table: Table, key: Key): nat {
    if key in table then table[key].attempts else 0
  }

  lemma DeliveryCountsNothing(w: World, facts: SendFacts, reply: Reply, now: int, key: Key)
    requires Sound(w)
    ensures AttemptsOf(Apply(w, Deliver(facts, reply, now)).table, key) == AttemptsOf(w.table, key)
  {
    hide AfterDelivery, Sound;
    if w.sender.Delivering? {
      DeliveryLeavesAttempts(w, facts, reply, now);
    }
  }

  lemma DispatchCountsNothing(w: World, p: nat, now: int, key: Key)
    requires Sound(w)
    ensures AttemptsOf(Apply(w, DispatchTenant(p, now)).table, key) == AttemptsOf(w.table, key)
  {
    hide Apply, Sound;
    if key in w.table {
      DispatchKeepsRow(w, p, now, key);
    } else if key in Apply(w, DispatchTenant(p, now)).table {
      DispatchedRowsAreUntried(w, p, now, key);
    }
  }

  lemma RecordingCountsNothing(w: World, now: int, random: Random, key: Key)
    requires Sound(w)
    ensures AttemptsOf(Apply(w, RecordTheFailure(now, random)).table, key) == AttemptsOf(w.table, key)
  {
    hide RecordFailure, Sound;
    if w.sender.Failing? {
      RecordingLeavesAttempts(w, now, random);
    }
  }

  lemma ClaimCountsOne(w: World, key: Key)
    ensures AttemptsOf(Apply(w, ClaimNext).table, key) == AttemptsOf(w.table, key) + multiset(ClaimOf(w, ClaimNext))[key]
  {
  }

  lemma OtherStepsCountNothing(w: World, step: Step, key: Key)
    requires !step.Deliver? && !step.DispatchTenant? && !step.RecordTheFailure? && !step.ClaimNext?
    ensures AttemptsOf(Apply(w, step).table, key) == AttemptsOf(w.table, key)
  {
    hide IsDueBatch, RowsOfTenant, TenantsOf;
  }

  /** Attempts are counted by claims and by nothing else. */
  lemma StepCountsClaims(w: World, step: Step, key: Key)
    requires Sound(w)
    ensures AttemptsOf(Apply(w, step).table, key) == AttemptsOf(w.table, key) + multiset(ClaimOf(w, step))[key]
  {
    hide Apply, Sound, AttemptsOf;
    match step
    case Deliver(facts, reply, now) => DeliveryCountsNothing(w, facts, reply, now, key);
    case DispatchTenant(p, now) => DispatchCountsNothing(w, p, now, key);
    case RecordTheFailure(now, random) => RecordingCountsNothing(w, now, random, key);
    case ClaimNext => ClaimCountsOne(w, key);
    case _ => OtherStepsCountNothing(w, step, key);
  }

  lemma {:induction false} RunCountsClaims(w: World, steps: seq<Step>, key: Key)
    requires Sound(w)
    ensures AttemptsOf(Run(w, steps).table, key) == AttemptsOf(w.table, key) + multiset(Claims(w, steps))[key]
    decreases steps
  {
    hide Apply, Sound, AttemptsOf, ClaimOf;
    if steps != [] {
      StepKeepsSound(w, steps[0]);
      StepCountsClaims(w, steps[0], key);
      RunCountsClaims(Apply(w, steps[0]), steps[1..], key);
    }
  }

  /** In every run, a row's attempts are the times it was claimed. */
  lemma AttemptsAreClaims(config: Config, directory: Directory, steps: seq<Step>, key: Key)
    ensures AttemptsOf(Run(Start(config, directory), steps).table, key) == multiset(Claims(Start(config, directory), steps))[key]
  {
    StartIsSound(config, directory);
    RunCountsClaims(Start(config, directory), steps, key);
  }

  /** So no row is claimed more than six times and once for each of its mishaps. */
  lemma ClaimsAreBounded(config: Config, directory: Directory, steps: seq<Step>, key: Key)
    ensures multiset(Claims(Start(config, directory), steps))[key] <= 6 + Mishaps(Start(config, directory), steps, key)
  {
    AttemptsAreClaims(config, directory, steps, key);
    if key in Run(Start(config, directory), steps).table {
      AttemptsAreBounded(config, directory, steps, key);
    }
  }

  // -- Adding claims up ------------------------------------------------------------

  /** How many of these claims are of rows of one event and recipient. */
  function CountOf(claims: seq<Key>, event: nat, recipient: Recipient): nat {
    if claims == [] then 0
    else
      CountOf(claims[..|claims| - 1], event, recipient)
      + if claims[|claims| - 1].event == event && claims[|claims| - 1].recipient == recipient then 1 else 0
  }

  lemma {:induction false} CountOfConcat(first: seq<Key>, second: seq<Key>, event: nat, recipient: Recipient)
    ensures CountOf(first + second, event, recipient) == CountOf(first, event, recipient) + CountOf(second, event, recipient)
  {
    if second == [] {
      assert first + second == first;
    } else {
      assert (first + second)[..|first + second| - 1] == first + second[..|second| - 1];
      CountOfConcat(first, second[..|second| - 1], event, recipient);
    }
  }

  /** How many are of rows on these channels. */
  function OverChannels(claims: multiset<Key>, event: nat, recipient: Recipient, channels: seq<Channel>): nat {
    if channels == [] then 0
    else claims[Key(event, recipient, channels[0])] + OverChannels(claims, event, recipient, channels[1..])
  }

  lemma {:induction false} OneMoreOverChannels(claims: multiset<Key>, key: Key, event: nat, recipient: Recipient, channels: seq<Channel>)
    ensures OverChannels(claims, event, recipient, channels)
            + (if key.event == event && key.recipient == recipient && key.channel in channels then 1 else 0)
         <= OverChannels(claims + multiset{key}, event, recipient, channels)
  {
    if channels != [] {
      OneMoreOverChannels(claims, key, event, recipient, channels[1..]);
    }
  }

  lemma {:induction false} CountedOverChannels(claims: seq<Key>, event: nat, recipient: Recipient, channels: seq<Channel>)
    requires forall i :: 0 <= i < |claims| && claims[i].event == event ==> claims[i].channel in channels
    ensures CountOf(claims, event, recipient) <= OverChannels(multiset(claims), event, recipient, channels)
  {
    if claims != [] {
      var front, last := claims[..|claims| - 1], claims[|claims| - 1];
      assert claims == front + [last];
      assert multiset(claims) == multiset(front) + multiset{last};
      CountedOverChannels(front, event, recipient, channels);
      OneMoreOverChannels(multiset(front), last, event, recipient, channels);
    }
  }

  /** The most a recipient's rows can be attempted in a run: six times a channel, and once for each mishap. */
  ghost function Budget(w: World, steps: seq<Step>, event: nat, recipient: Recipient, channels: seq<Channel>): nat {
    if channels == [] then 0
    else 6 + Mishaps(w, steps, Key(event, recipient, channels[0])) + Budget(w, steps, event, recipient, channels[1..])
  }

  lemma {:induction false} OverChannelsWithinBudget(config: Config, directory: Directory, steps: seq<Step>, event: nat, recipient: Recipient, channels: seq<Channel>)
    ensures OverChannels(multiset(Claims(Start(config, directory), steps)), event, recipient, channels)
         <= Budget(Start(config, directory), steps, event, recipient, channels)
  {
    hide Claims, Mishaps;
    if channels != [] {
      ClaimsAreBounded(config, directory, steps, Key(event, recipient, channels[0]));
      OverChannelsWithinBudget(config, directory, steps, event, recipient, channels[1..]);
    }
  }

  /** A row that was claimed is in the table for good, on a channel of its event's spec. */
  lemma ClaimedOnSpec(config: Config, directory: Directory, steps: seq<Step>, key: Key)
    requires key in Claims(Start(config, directory), steps)
    ensures var w := Run(Start(config, directory), steps);
      && key in w.table && key.event < |w.outbox| && SpecFor(w.outbox[key.event]).Some?
      && key.channel in SpecFor(w.outbox[key.event]).value.channels
  {
    hide Claims, Run, SpecFor;
    var start := Start(config, directory);
    var w := Run(start, steps);
    AttemptsAreClaims(config, directory, steps, key);
    assert multiset(Claims(start, steps))[key] > 0;
    StartIsSound(config, directory);
    RunKeepsSound(start, steps);
    assert RowSound(w.outbox, key, w.table[key]);
  }

  lemma RecipientClaimsAreBounded(config: Config, directory: Directory, steps: seq<Step>, event: nat, recipient: Recipient)
    requires var w := Run(Start(config, directory), steps); event < |w.outbox| && SpecFor(w.outbox[event]).Some?
    ensures CountOf(Claims(Start(config, directory), steps), event, recipient)
         <= Budget(Start(config, directory), steps, event, recipient,
                   SpecFor(Run(Start(config, directory), steps).outbox[event]).value.channels)
  {
    hide Claims, Run, SpecFor, Budget, OverChannels, CountOf;
    var claims := Claims(Start(config, directory), steps);
    var channels := SpecFor(Run(Start(config, directory), steps).outbox[event]).value.channels;
    forall i | 0 <= i < |claims| && claims[i].event == event
      ensures claims[i].channel in channels
    {
      ClaimedOnSpec(config, directory, steps, claims[i]);
    }
    CountedOverChannels(claims, event, recipient, channels);
    OverChannelsWithinBudget(config, directory, steps, event, recipient, channels);
  }

  ghost function PickKey(keys: set<Key>): (key: Key)
    requires keys != {}
    ensures key in keys
  {
    var key :| key in keys;
    key
  }

  /** The most all these rows can be attempted in a run. */
  ghost function TotalBudget(w: World, steps: seq<Step>, keys: set<Key>): nat {
    if keys == {} then 0
    else 6 + Mishaps(w, steps, PickKey(keys)) + TotalBudget(w, steps, keys - {PickKey(keys)})
  }

  function WithoutKey(claims: seq<Key>, key: Key): seq<Key> {
    if claims == [] then []
    else WithoutKey(claims[..|claims| - 1], key) + if claims[|claims| - 1] == key then [] else [claims[|claims| - 1]]
  }

  lemma {:induction false} WithoutKeyCounts(claims: seq<Key>, key: Key)
    ensures |claims| == |WithoutKey(claims, key)| + multiset(claims)[key]
    ensures forall k :: multiset(WithoutKey(claims, key))[k] == if k == key then 0 else multiset(claims)[k]
  {
    if claims != [] {
      var front, last := claims[..|claims| - 1], claims[|claims| - 1];
      assert claims == front + [last];
      WithoutKeyCounts(front, key);
    }
  }

  lemma {:induction false} ClaimsWithinTotal(w: World, steps: seq<Step>, claims: seq<Key>, keys: set<Key>)
    requires forall k :: multiset(claims)[k] <= if k in keys then 6 + Mishaps(w, steps, k) else 0
    ensures |claims| <= TotalBudget(w, steps, keys)
    decreases keys
  {
    hide Mishaps, WithoutKey;
    if keys == {} {
      assert multiset(claims) == multiset{};
      assert |claims| == |multiset(claims)|;
    } else {
      var key := PickKey(keys);
      WithoutKeyCounts(claims, key);
      ClaimsWithinTotal(w, steps, WithoutKey(claims, key), keys - {key});
    }
  }

  /** All the attempts of a run together are within the budgets of the rows there are at its end. */
  lemma AllClaimsAreBounded(config: Config, directory: Directory, steps: seq<Step>)
    ensures var start := Start(config, directory);
      |Claims(start, steps)| <= TotalBudget(start, steps, Run(start, steps).table.Keys)
  {
    hide Claims, Run, Mishaps, TotalBudget;
    var start := Start(config, directory);
    var keys := Run(start, steps).table.Keys;
    forall k
      ensures multiset(Claims(start, steps))[k] <= if k in keys then 6 + Mishaps(start, steps, k) else 0
    {
      ClaimsAreBounded(config, directory, steps, k);
      AttemptsAreClaims(config, directory, steps, k);
    }
    ClaimsWithinTotal(start, steps, Claims(start, steps), keys);
  }

  // -- Passes among other steps ----------------------------------------------------------

  /** A run told as whole passes and single steps of any kind: dispatches, receipts, edits, crashes. */
  datatype Move = Single(step: Step) | Whole(pass: Pass)

  function MoveSteps(move: Move): seq<Step> {
    match move
    case Single(step) => [step]
    case Whole(pass) => PassSteps(pass)
  }

  function MovesSteps(moves: seq<Move>): seq<Step> {
    if moves == [] then [] else MoveSteps(moves[0]) + MovesSteps(moves[1..])
  }

  function DueKeys(due: seq<Candidate>): (keys: seq<Key>)
    ensures |keys| == |due|
    ensures forall i :: 0 <= i < |due| ==> keys[i] == due[i].key
  {
    seq(|due|, i requires 0 <= i < |due| => due[i].key)
  }

  lemma TurnClaims(w: World, turn: Turn)
    requires Sound(w) && w.sender.Working? && w.sender.queue != [] && Fresh(w.table, w.sender.queue)
    ensures Claims(w, TurnSteps(turn)) == [w.sender.queue[0].key]
  {
    assert ClaimOf(w, ClaimNext) == [w.sender.queue[0].key];
    hide Apply, ClaimOf, Sound, Fresh;
    var deliver, record := Deliver(turn.facts, turn.reply, turn.now), RecordTheFailure(turn.failedAt, turn.random);
    assert TurnSteps(turn) == [ClaimNext] + ([deliver] + ([record] + []));
    ClaimsCons(w, ClaimNext, [deliver] + ([record] + []));
    ClaimsCons(Apply(w, ClaimNext), deliver, [record] + []);
    ClaimsCons(Apply(Apply(w, ClaimNext), deliver), record, []);
    NoClaim(Apply(w, ClaimNext), deliver);
    NoClaim(Apply(Apply(w, ClaimNext), deliver), record);
  }

  lemma NoClaim(w: World, step: Step)
    requires !step.ClaimNext?
    ensures ClaimOf(w, step) == []
  {
  }

  lemma FreshTail(before: Table, after: Table, queue: seq<Candidate>)
    requires queue != [] && Fresh(before, queue) && Tried(before, after, queue[0].key)
    ensures Fresh(after, queue[1..])
  {
  }

  lemma {:induction false} TurnsClaim(w: World, turns: seq<Turn>)
    requires Sound(w) && w.sender.Working? && Fresh(w.table, w.sender.queue) && |turns| == |w.sender.queue|
    ensures Claims(w, TurnsSteps(turns)) == DueKeys(w.sender.queue)
    decreases turns
  {
    hide Apply, Sound, Fresh, Tried, Claims, Run;
    if turns == [] {
      assert Claims(w, []) == [] by { NothingClaimed(w); }
    } else {
      var queue, w1 := w.sender.queue, Run(w, TurnSteps(turns[0]));
      TurnServes(w, turns[0]);
      TurnClaims(w, turns[0]);
      FreshTail(w.table, w1.table, queue);
      TurnsClaim(w1, turns[1..]);
      ClaimsAppend(w, TurnSteps(turns[0]), TurnsSteps(turns[1..]));
      assert [queue[0].key] + DueKeys(queue[1..]) == DueKeys(queue);
    }
  }

  lemma NothingClaimed(w: World)
    ensures Claims(w, []) == []
  {
  }

  /** A pass that nothing disturbs claims every row it read, full batch or not. */
  lemma PassClaims(w: World, pass: Pass)
    requires Sound(w) && Undisturbed(w, pass)
    ensures Claims(w, PassSteps(pass)) == DueKeys(pass.due)
  {
    hide Apply, Sound, IsDueBatch, Fresh, Claims, Run;
    var read := ReadDue(pass.tenant, pass.now, pass.due);
    var w1 := Apply(w, read);
    PassBrackets(w, pass, w.(sender := Working([])));
    StepKeepsSound(w, read);
    ClaimsCons(w, read, TurnsSteps(pass.turns) + [FinishPass]);
    NoClaim(w, read);
    ClaimsAppend(w1, TurnsSteps(pass.turns), [FinishPass]);
    TurnsClaim(w1, pass.turns);
    var w2 := Run(w1, TurnsSteps(pass.turns));
    assert [FinishPass] == [FinishPass] + [];
    ClaimsCons(w2, FinishPass, []);
    NoClaim(w2, FinishPass);
    NothingClaimed(Apply(w2, FinishPass));
  }

  predicate ListsRowOf(due: seq<Candidate>, event: nat, recipient: Recipient) {
    exists i :: 0 <= i < |due| && due[i].key.event == event && due[i].key.recipient == recipient
  }

  /** The undisturbed passes of a run whose batch holds a row of this event and recipient. */
  ghost function Serving(w: World, moves: seq<Move>, event: nat, recipient: Recipient): nat
    decreases moves
  {
    if moves == [] then 0
    else
      (if moves[0].Whole? && Undisturbed(w, moves[0].pass) && ListsRowOf(moves[0].pass.due, event, recipient) then 1 else 0)
      + Serving(Run(w, MoveSteps(moves[0])), moves[1..], event, recipient)
  }

  /** The rows in the batches of the undisturbed passes of a run, all together. */
  ghost function Served(w: World, moves: seq<Move>): nat
    decreases moves
  {
    if moves == [] then 0
    else
      (if moves[0].Whole? && Undisturbed(w, moves[0].pass) then |moves[0].pass.due| else 0)
      + Served(Run(w, MoveSteps(moves[0])), moves[1..])
  }

  lemma {:induction false} ListedIsCounted(due: seq<Candidate>, event: nat, recipient: Recipient)
    requires ListsRowOf(due, event, recipient)
    ensures CountOf(DueKeys(due), event, recipient) >= 1
  {
    var front := due[..|due| - 1];
    assert DueKeys(due)[..|due| - 1] == DueKeys(front);
    var i :| 0 <= i < |due| && due[i].key.event == event && due[i].key.recipient == recipient;
    if i < |due| - 1 {
      assert front[i] == due[i];
      ListedIsCounted(front, event, recipient);
    }
  }

  lemma OneMoveClaims(w: World, move: Move, event: nat, recipient: Recipient)
    requires Sound(w)
    ensures move.Whole? && Undisturbed(w, move.pass) ==> |Claims(w, MoveSteps(move))| == |move.pass.due|
    ensures move.Whole? && Undisturbed(w, move.pass) && ListsRowOf(move.pass.due, event, recipient) ==>
              CountOf(Claims(w, MoveSteps(move)), event, recipient) >= 1
  {
    hide Sound, Undisturbed, Claims, CountOf, ListsRowOf, PassSteps;
    if move.Whole? && Undisturbed(w, move.pass) {
      PassClaims(w, move.pass);
      if ListsRowOf(move.pass.due, event, recipient) {
        ListedIsCounted(move.pass.due, event, recipient);
      }
    }
  }

  lemma {:induction false} PassesAreClaims(w: World, moves: seq<Move>, event: nat, recipient: Recipient)
    requires Sound(w)
    ensures Serving(w, moves, event, recipient) <= CountOf(Claims(w, MovesSteps(moves)), event, recipient)
    ensures Served(w, moves) <= |Claims(w, MovesSteps(moves))|
    decreases moves
  {
    hide Sound, Undisturbed, Claims, CountOf, ListsRowOf, MoveSteps, Run;
    if moves != [] {
      var w1 := Run(w, MoveSteps(moves[0]));
      OneMoveClaims(w, moves[0], event, recipient);
      RunKeepsSound(w, MoveSteps(moves[0]));
      PassesAreClaims(w1, moves[1..], event, recipient);
      ClaimsAppend(w, MoveSteps(moves[0]), MovesSteps(moves[1..]));
      CountOfConcat(Claims(w, MoveSteps(moves[0])), Claims(w1, MovesSteps(moves[1..])), event, recipient);
    }
  }

  /**
   * In any run of passes among other steps, however full its batches, the
   * undisturbed passes that hold a row of an event and recipient are no more than
   * that recipient's budget.
   */
  lemma ServingPassesAreBounded(config: Config, directory: Directory, moves: seq<Move>, event: nat, recipient: Recipient)
    requires var w := Run(Start(config, directory), MovesSteps(moves)); event < |w.outbox| && SpecFor(w.outbox[event]).Some?
    ensures var start := Start(config, directory);
      Serving(start, moves, event, recipient)
      <= Budget(start, MovesSteps(moves), event, recipient, SpecFor(Run(start, MovesSteps(moves)).outbox[event]).value.channels)
  {
    hide Run, Claims, Serving, Budget, SpecFor, CountOf, MovesSteps;
    StartIsSound(config, directory);
    PassesAreClaims(Start(config, directory), moves, event, recipient);
    RecipientClaimsAreBounded(config, directory, MovesSteps(moves), event, recipient);
  }

  /** And the batches of all undisturbed passes together are no more than all the budgets. */
  lemma ServedRowsAreBounded(config: Config, directory: Directory, moves: seq<Move>)
    ensures var start := Start(config, directory);
      Served(start, moves) <= TotalBudget(start, MovesSteps(moves), Run(start, MovesSteps(moves)).table.Keys)
  {
    hide Run, Claims, Served, TotalBudget, MovesSteps;
    StartIsSound(config, directory);
    PassesAreClaims(Start(config, directory), moves, 0, CustomerRecipient(0));
    AllClaimsAreBounded(config, directory, MovesSteps(moves));
  }

  // -- Settling ------------------------------------------------------------------------------

  /** A row of this event and recipient that is still waiting to be sent. */
  ghost predicate Unfinished(w: World, event: nat, recipient: Recipient) {
    exists k :: k in w.table && k.event == event && k.recipient == recipient && Waiting(w.table[k].status)
  }

  /** A pass over the event's tenant, after every due time this recipient has. */
  ghost predicate InTime(w: World, pass: Pass, event: nat, recipient: Recipient) {
    && Undisturbed(w, pass) && event < |w.outbox| && pass.tenant == w.outbox[event].tenant && w.config.sendBatch >= 1
    && forall k :: k in w.table && k.event == event && k.recipient == recipient && w.table[k].nextAttemptAt.Some? ==>
         w.table[k].nextAttemptAt.value <= pass.now - w.config.staleClaimMs
  }

  /** Every whole pass of these moves is undisturbed and in time; the single steps are anything. */
  ghost predicate EveryPassInTime(w: World, moves: seq<Move>, event: nat, recipient: Recipient)
    decreases moves
  {
    moves == []
    || ((moves[0].Whole? ==> InTime(w, moves[0].pass, event, recipient))
        && EveryPassInTime(Run(w, MoveSteps(moves[0])), moves[1..], event, recipient))
  }

  function Passes(moves: seq<Move>): nat {
    if moves == [] then 0 else (if moves[0].Whole? then 1 else 0) + Passes(moves[1..])
  }

  /** At the start of some pass nothing of this recipient is waiting. */
  ghost predicate SettledAtSomePass(w: World, moves: seq<Move>, event: nat, recipient: Recipient)
    decreases moves
  {
    moves != []
    && ((moves[0].Whole? && !Unfinished(w, event, recipient))
        || SettledAtSomePass(Run(w, MoveSteps(moves[0])), moves[1..], event, recipient))
  }

  /** A pass in time over an unfinished recipient reads one of its rows, or a full batch of others due no later. */
  lemma UnfinishedFillsTheBatch(w: World, pass: Pass, event: nat, recipient: Recipient)
    requires Sound(w) && InTime(w, pass, event, recipient) && Unfinished(w, event, recipient)
    ensures ListsRowOf(pass.due, event, recipient) || |pass.due| == w.config.sendBatch
    ensures |pass.due| >= 1
  {
    var k :| k in w.table && k.event == event && k.recipient == recipient && Waiting(w.table[k].status);
    assert RowSound(w.outbox, k, w.table[k]);
    var rows := RowsOfTenant(w.outbox, w.table, pass.tenant);
    assert k in rows && IsDueRow(rows[k], pass.now, w.config.staleClaimMs);
    if Listed(pass.due, k) {
      var i :| 0 <= i < |pass.due| && pass.due[i].key == k;
    }
  }

  lemma {:induction false} UnsettledPassesServe(w: World, moves: seq<Move>, event: nat, recipient: Recipient)
    requires Sound(w) && EveryPassInTime(w, moves, event, recipient) && !SettledAtSomePass(w, moves, event, recipient)
    ensures Passes(moves) <= Served(w, moves)
    decreases moves
  {
    hide Sound, Undisturbed, Unfinished, MoveSteps, Run;
    if moves != [] {
      if moves[0].Whole? {
        UnfinishedFillsTheBatch(w, moves[0].pass, event, recipient);
      }
      RunKeepsSound(w, MoveSteps(moves[0]));
      UnsettledPassesServe(Run(w, MoveSteps(moves[0])), moves[1..], event, recipient);
    }
  }

  lemma {:induction false} ServedLater(w: World, before: seq<Move>, moves: seq<Move>)
    ensures MovesSteps(before + moves) == MovesSteps(before) + MovesSteps(moves)
    ensures Served(w, before + moves) == Served(w, before) + Served(Run(w, MovesSteps(before)), moves)
    decreases before
  {
    hide Undisturbed, MoveSteps, Run;
    if before == [] {
      assert before + moves == moves;
      assert Run(w, []) == w by { RunNothing(w); }
    } else {
      assert (before + moves)[1..] == before[1..] + moves;
      var w1 := Run(w, MoveSteps(before[0]));
      ServedLater(w1, before[1..], moves);
      RunAppend(w, MoveSteps(before[0]), MovesSteps(before[1..]));
    }
  }

  lemma RunNothing(w: World)
    ensures Run(w, []) == w
  {
  }

  /**
   * However a run began, and whatever else happens among the passes that follow
   * (events, dispatches, edits, receipts, crashes, backlogs that fill every
   * batch), once there are more of them than all the budgets, the recipient was
   * settled at the start of one: every row it had, promoted ones included, was
   * sent, failed or suppressed.
   */
  lemma EveryNotificationSettles(config: Config, directory: Directory, before: seq<Move>, moves: seq<Move>, event: nat, recipient: Recipient)
    requires EveryPassInTime(Run(Start(config, directory), MovesSteps(before)), moves, event, recipient)
    requires var start, steps := Start(config, directory), MovesSteps(before) + MovesSteps(moves);
      Passes(moves) > TotalBudget(start, steps, Run(start, steps).table.Keys)
    ensures SettledAtSomePass(Run(Start(config, directory), MovesSteps(before)), moves, event, recipient)
  {
    hide Run, Served, TotalBudget, EveryPassInTime, SettledAtSomePass, Passes;
    var start := Start(config, directory);
    StartIsSound(config, directory);
    RunKeepsSound(start, MovesSteps(before));
    ServedLater(start, before, moves);
    ServedRowsAreBounded(config, directory, before + moves);
    if !SettledAtSomePass(Run(start, MovesSteps(before)), moves, event, recipient) {
      UnsettledPassesServe(Run(start, MovesSteps(before)), moves, event, recipient);
    }
  }

  // -- And staying settled -------------------------------------------------------------------

  /** What can give a settled recipient a waiting row again: a dispatch of its event, or a failed receipt of its own. */
  ghost predicate Reopens(w: World, step: Step, event: nat, recipient: Recipient) {
    match step
    case DispatchTenant(p, _) =>
      p in w.dispatchers && w.dispatchers[p].todo != []
      && InBatch(w.outbox, w.dispatchers[p].start, w.dispatchers[p].end, w.dispatchers[p].todo[0], event)
    case WebhookReceipt(id, receipt, _) =>
      receipt == ReportsFailure
      && exists k :: k in w.table && k.event == event && k.recipient == recipient && Matches(w.table[k], id)
    case _ => false
  }

  lemma DispatchKeepsSettled(w: World, p: nat, now: int, event: nat, recipient: Recipient)
    requires !Unfinished(w, event, recipient) && !Reopens(w, DispatchTenant(p, now), event, recipient)
    ensures !Unfinished(Apply(w, DispatchTenant(p, now)), event, recipient)
  {
    hide Plan, RecordImplied;
    var after := Apply(w, DispatchTenant(p, now));
    forall k | k in after.table && k.event == event && k.recipient == recipient
      ensures !Waiting(after.table[k].status)
    {
      if k in w.table {
        DispatchKeepsRow(w, p, now, k);
      } else {
        var d := w.dispatchers[p];
        DispatchSafety.InsertPlansOnlyPlans(w.table, w.directory, w.outbox, d.start, d.end, d.todo[0], now, k);
      }
    }
  }

  lemma DeliveryKeepsSettled(w: World, facts: SendFacts, reply: Reply, now: int, event: nat, recipient: Recipient)
    requires Sound(w) && !Unfinished(w, event, recipient)
    ensures !Unfinished(Apply(w, Deliver(facts, reply, now)), event, recipient)
  {
    hide AfterDelivery, RowsSound;
    if w.sender.Delivering? {
      DeliveryLeavesAttempts(w, facts, reply, now);
    }
  }

  lemma OtherStepsKeepSettled(w: World, step: Step, event: nat, recipient: Recipient)
    requires Sound(w) && !Unfinished(w, event, recipient) && !Reopens(w, step, event, recipient)
    requires !step.Deliver? && !step.DispatchTenant?
    ensures !Unfinished(Apply(w, step), event, recipient)
  {
    hide IsDueBatch, RowsOfTenant, TenantsOf, RowsSound, NextRetryAt;
  }

  lemma StepKeepsSettled(w: World, step: Step, event: nat, recipient: Recipient)
    requires Sound(w) && !Unfinished(w, event, recipient) && !Reopens(w, step, event, recipient)
    ensures !Unfinished(Apply(w, step), event, recipient)
  {
    hide Apply, Sound, Unfinished, Reopens;
    match step
    case Deliver(facts, reply, now) => DeliveryKeepsSettled(w, facts, reply, now, event, recipient);
    case DispatchTenant(p, now) => DispatchKeepsSettled(w, p, now, event, recipient);
    case _ => OtherStepsKeepSettled(w, step, event, recipient);
  }

  ghost predicate NeverReopened(w: World, steps: seq<Step>, event: nat, recipient: Recipient)
    decreases steps
  {
    steps == []
    || (!Reopens(w, steps[0], event, recipient) && NeverReopened(Apply(w, steps[0]), steps[1..], event, recipient))
  }

  /** Once settled, a recipient stays so until its event is dispatched again or a receipt reports one of its messages failed. */
  lemma {:induction false} StaysSettled(w: World, steps: seq<Step>, event: nat, recipient: Recipient)
    requires Sound(w) && !Unfinished(w, event, recipient) && NeverReopened(w, steps, event, recipient)
    ensures !Unfinished(Run(w, steps), event, recipient)
    decreases steps
  {
    hide Apply, Sound, Unfinished, Reopens;
    if steps != [] {
      StepKeepsSound(w, steps[0]);
      StepKeepsSettled(w, steps[0], event, recipient);
      StaysSettled(Apply(w, steps[0]), steps[1..], event, recipient);
    }
  }

  lemma {:induction false} NotReopenedLater(w: World, first: seq<Step>, second: seq<Step>, event: nat, recipient: Recipient)
    requires NeverReopened(w, first + second, event, recipient)
    ensures NeverReopened(Run(w, first), second, event, recipient)
    decreases first
  {
    hide Apply, Reopens;
    if first == [] {
      assert first + second == second;
    } else {
      assert (first + second)[1..] == first[1..] + second;
      NotReopenedLater(Apply(w, first[0]), first[1..], second, event, recipient);
    }
  }

  lemma {:induction false} SettledAtTheEnd(w: World, moves: seq<Move>, event: nat, recipient: Recipient)
    requires Sound(w) && SettledAtSomePass(w, moves, event, recipient) && NeverReopened(w, MovesSteps(moves), event, recipient)
    ensures !Unfinished(Run(w, MovesSteps(moves)), event, recipient)
    decreases moves
  {
    hide Sound, Unfinished, NeverReopened, MoveSteps, Run;
    var w1 := Run(w, MoveSteps(moves[0]));
    RunAppend(w, MoveSteps(moves[0]), MovesSteps(moves[1..]));
    if moves[0].Whole? && !Unfinished(w, event, recipient) {
      StaysSettled(w, MovesSteps(moves), event, recipient);
    } else {
      NotReopenedLater(w, MoveSteps(moves[0]), MovesSteps(moves[1..]), event, recipient);
      RunKeepsSound(w, MoveSteps(moves[0]));
      SettledAtTheEnd(w1, moves[1..], event, recipient);
    }
  }

  /** So a recipient whose event is not dispatched again, and whose messages are not reported failed, is settled at the end. */
  lemma EveryNotificationEnds(config: Config, directory: Directory, before: seq<Move>, moves: seq<Move>, event: nat, recipient: Recipient)
    requires EveryPassInTime(Run(Start(config, directory), MovesSteps(before)), moves, event, recipient)
    requires NeverReopened(Run(Start(config, directory), MovesSteps(before)), MovesSteps(moves), event, recipient)
    requires var start, steps := Start(config, directory), MovesSteps(before) + MovesSteps(moves);
      Passes(moves) > TotalBudget(start, steps, Run(start, steps).table.Keys)
    ensures !Unfinished(Run(Start(config, directory), MovesSteps(before) + MovesSteps(moves)), event, recipient)
  {
    hide Run, TotalBudget, EveryPassInTime, SettledAtSomePass, Passes, NeverReopened, Unfinished, MovesSteps;
    var start := Start(config, directory);
    StartIsSound(config, directory);
    RunKeepsSound(start, MovesSteps(before));
    EveryNotificationSettles(config, directory, before, moves, event, recipient);
    SettledAtTheEnd(Run(start, MovesSteps(before)), moves, event, recipient);
    RunAppend(start, MovesSteps(before), MovesSteps(moves));
  }
}
