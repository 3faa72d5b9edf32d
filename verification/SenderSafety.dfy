/**
 * What every run of the pipeline with one sender keeps about the rows it
 * sends: one live row per event and recipient of an update, a walk straight
 * down the spec's channels, a provider message id only on rows that were sent,
 * and a bound on attempts.
 */
module SenderSafety {
  import opened Outcomes
  import opened NotificationRules
  import opened NotificationTable
  import opened NotificationPlan
  import opened NotificationPipeline
  import opened DispatchSafety

  ghost predicate Waiting(status: NotificationStatus) {
    status == PENDING || status == PROCESSING
  }

  /** A row that still belongs to the spec of its event, with a due time while it waits and a provider id only once sent. */
  ghost predicate RowSound(outbox: seq<Event>, key: Key, row: Notification) {
    && key.event < |outbox|
    && SpecFor(outbox[key.event]) == Some(SpecByTemplate(row.template))
    && key.channel in SpecByTemplate(row.template).channels
    && (Waiting(row.status) ==> row.nextAttemptAt.Some?)
    && (row.providerMessageId.Some? ==> row.status == SENT || row.status == DELIVERED)
  }

  ghost predicate RowsSound(w: World) {
    forall k :: k in w.table ==> RowSound(w.outbox, k, w.table[k])
  }

  /** The row the sender has in hand, if any. */
  function Owned(sender: Sender): Option<Key> {
    match sender
    case Delivering(key, _) => Some(key)
    case Failing(key, _, _) => Some(key)
    case _ => None
  }

  function QueueOf(sender: Sender): seq<Candidate> {
    match sender
    case Resting => []
    case Working(queue) => queue
    case Delivering(_, queue) => queue
    case Failing(_, _, queue) => queue
  }

  ghost predicate QueueSound(queue: seq<Candidate>) {
    forall c :: c in queue ==> Waiting(c.status)
  }

  /** The row in hand is in PROCESSING, and what is queued was read as waiting. */
  ghost predicate SenderSound(w: World) {
    && (Owned(w.sender).Some? ==> Owned(w.sender).value in w.table && w.table[Owned(w.sender).value].status == PROCESSING)
    && QueueSound(QueueOf(w.sender))
  }

  ghost predicate Sound(w: World) {
    RowsSound(w) && SenderSound(w)
  }

  /** A suppressed row never changes again, and no row changes what it is about. */
  ghost predicate Settles(w: World, after: World) {
    forall k :: k in w.table ==>
      && k in after.table
      && after.table[k].template == w.table[k].template
      && (w.table[k].status == SUPPRESSED ==> after.table[k] == w.table[k])
  }

  lemma DispatchKeepsSound(w: World, p: nat, now: int)
    requires Sound(w)
    ensures Sound(Apply(w, DispatchTenant(p, now))) && Settles(w, Apply(w, DispatchTenant(p, now)))
  {
    hide Plan, RecordImplied;
    var after := Apply(w, DispatchTenant(p, now));
    if p in w.dispatchers && w.dispatchers[p].todo != [] && w.dispatchers[p].end <= |w.outbox| {
      var d := w.dispatchers[p];
      InsertPlansAdds(w.table, w.directory, w.outbox, d.start, d.end, d.todo[0], now);
      forall k | k in after.table ensures RowSound(after.outbox, k, after.table[k]) {
        if k !in w.table {
          InsertPlansOnlyPlans(w.table, w.directory, w.outbox, d.start, d.end, d.todo[0], now, k);
          PlannedIff(w.directory, k.event, w.outbox[k.event], now, (k, after.table[k]));
          StoredSpec(w.outbox[k.event]);
        } else {
          assert RowSound(w.outbox, k, w.table[k]);
        }
      }
    }
  }

  /** The spec of an event is found again from the key its rows carry. */
  lemma StoredSpec(body: Event)
    ensures SpecFor(body).Some? ==> SpecByTemplate(SpecFor(body).value.template) == SpecFor(body).value
  {
    hide SpecByTemplate;
    forall status {
      SpecSurvivesStorage(status);
    }
  }

  /** One row moves on, and the sender lets go of it or keeps it in hand. */
  lemma OneRowKeepsSound(w: World, key: Key, row: Notification, sender: Sender)
    requires Sound(w) && key in w.table && w.table[key].status != SUPPRESSED
    requires RowSound(w.outbox, key, row) && row.template == w.table[key].template
    requires QueueSound(QueueOf(sender))
    requires Owned(sender).None? || (Owned(sender) == Some(key) && row.status == PROCESSING)
    ensures var after := w.(table := w.table[key := row], sender := sender); Sound(after) && Settles(w, after)
  {
    forall k | k in w.table ensures RowSound(w.outbox, k, w.table[k]) {
    }
  }

  lemma SuppressKeepsSound(w: World, adapters: set<Channel>, fallback: Option<nat>, now: int)
    requires Sound(w) && w.sender.Delivering?
    ensures var after := w.(table := Suppress(w.table, w.sender.key, adapters, fallback, now), sender := Working(w.sender.queue));
      Sound(after) && Settles(w, after)
  {
    hide SpecFor, SpecByTemplate, Suppress;
    var key := w.sender.key;
    SuppressEffect(w.table, key, adapters, fallback, now);
    var after := Suppress(w.table, key, adapters, fallback, now);
    assert RowSound(w.outbox, key, w.table[key]);
    forall k | k in after ensures RowSound(w.outbox, k, after[k]) {
      if k in w.table {
        assert RowSound(w.outbox, k, w.table[k]);
      }
    }
  }

  lemma DeliverKeepsSound(w: World, facts: SendFacts, reply: Reply, now: int)
    requires Sound(w) && w.sender.Delivering?
    ensures Sound(AfterDelivery(w, facts, reply, now)) && Settles(w, AfterDelivery(w, facts, reply, now))
  {
    hide SpecFor, SpecByTemplate, Suppress, Forbidden, FallbackDestination;
    var key, row := w.sender.key, w.table[w.sender.key];
    assert RowSound(w.outbox, key, row);
    if reply.RolledBack? {
      OneRowKeepsSound(w, key, row, Failing(key, true, w.sender.queue));
      assert w.table[key := row] == w.table;
    } else if Forbidden(key.channel, row.destination, facts, now) {
      SuppressKeepsSound(w, facts.adapters, FallbackDestination(w.directory, key.recipient, row.destination), now);
    } else if reply.AcceptedBy? {
      var sent := row.(status := SENT, nextAttemptAt := None, providerMessageId := reply.providerMessageId);
      OneRowKeepsSound(w, key, sent, Working(w.sender.queue));
    } else {
      OneRowKeepsSound(w, key, row, Failing(key, reply.retryable, w.sender.queue));
      assert w.table[key := row] == w.table;
    }
  }

  lemma DeliverStepKeepsSound(w: World, facts: SendFacts, reply: Reply, now: int)
    requires Sound(w)
    ensures Sound(Apply(w, Deliver(facts, reply, now))) && Settles(w, Apply(w, Deliver(facts, reply, now)))
  {
    hide AfterDelivery, RowSound, SenderSound;
    if w.sender.Delivering? {
      DeliverKeepsSound(w, facts, reply, now);
    }
  }

  lemma ClaimKeepsSound(w: World)
    requires Sound(w)
    ensures Sound(Apply(w, ClaimNext)) && Settles(w, Apply(w, ClaimNext))
  {
    hide SpecFor, SpecByTemplate;
    if w.sender.Working? && w.sender.queue != [] {
      var candidate, rest := w.sender.queue[0], w.sender.queue[1..];
      if Claim(w.table, candidate.key, candidate.status).1 {
        var row := w.table[candidate.key];
        assert RowSound(w.outbox, candidate.key, row);
        OneRowKeepsSound(w, candidate.key, row.(status := PROCESSING, attempts := row.attempts + 1), Delivering(candidate.key, rest));
      }
    }
  }

  lemma FailureKeepsSound(w: World, now: int, random: Random)
    requires Sound(w)
    ensures Sound(Apply(w, RecordTheFailure(now, random))) && Settles(w, Apply(w, RecordTheFailure(now, random)))
  {
    hide SpecFor, SpecByTemplate, NextRetryAt;
    if w.sender.Failing? {
      var key := w.sender.key;
      assert RowSound(w.outbox, key, w.table[key]);
      var table := RecordFailure(w.table, key, w.sender.retryable, now, random);
      OneRowKeepsSound(w, key, table[key], Working(w.sender.queue));
    }
  }

  lemma ReceiptKeepsSound(w: World, id: nat, receipt: Receipt, now: int)
    requires Sound(w)
    ensures Sound(Apply(w, WebhookReceipt(id, receipt, now))) && Settles(w, Apply(w, WebhookReceipt(id, receipt, now)))
  {
    hide SpecFor, SpecByTemplate;
    forall k | k in w.table
      ensures RowSound(w.outbox, k, AfterReceipt(w.table[k], id, receipt, now))
      ensures w.table[k].status in {SUPPRESSED, PROCESSING} ==> AfterReceipt(w.table[k], id, receipt, now) == w.table[k]
    {
      assert RowSound(w.outbox, k, w.table[k]);
    }
  }

  lemma StepKeepsSound(w: World, step: Step)
    requires Sound(w)
    ensures Sound(Apply(w, step)) && Settles(w, Apply(w, step))
  {
    hide SpecFor, SpecByTemplate, InsertPlans, RecordImplied, AfterDelivery, ApplyReceipt, RecordFailure, Sound, Settles, Apply;
    match step
    case DispatchTenant(p, now) => DispatchKeepsSound(w, p, now);
    case Deliver(facts, reply, now) =>
      DeliverStepKeepsSound(w, facts, reply, now);
    case ClaimNext => ClaimKeepsSound(w);
    case RecordTheFailure(now, random) => FailureKeepsSound(w, now, random);
    case WebhookReceipt(id, receipt, now) => ReceiptKeepsSound(w, id, receipt, now);
    case _ => OtherStepKeepsSound(w, step);
  }

  /** The remaining steps leave the table alone. */
  lemma OtherStepKeepsSound(w: World, step: Step)
    requires Sound(w)
    requires !step.DispatchTenant? && !step.Deliver? && !step.ClaimNext? && !step.RecordTheFailure? && !step.WebhookReceipt?
    ensures Sound(Apply(w, step)) && Settles(w, Apply(w, step))
  {
    hide SpecFor, SpecByTemplate, InsertPlans, RecordImplied, AfterDelivery, ApplyReceipt, RecordFailure, TenantsOf, RowsOfTenant, NotificationTable.Claim;
    forall k | k in w.table ensures RowSound(Apply(w, step).outbox, k, w.table[k]) {
      assert RowSound(w.outbox, k, w.table[k]);
    }
  }

  lemma {:induction false} RunKeepsSound(w: World, steps: seq<Step>)
    requires Sound(w)
    ensures Sound(Run(w, steps))
    decreases steps
  {
    if steps != [] {
      StepKeepsSound(w, steps[0]);
      RunKeepsSound(Apply(w, steps[0]), steps[1..]);
    }
  }

  /** In every reachable world a provider message id is carried only by a row that was sent. */
  lemma ProviderIdOnlyOnceSent(config: Config, directory: Directory, steps: seq<Step>, key: Key)
    requires key in Run(Start(config, directory), steps).table
    ensures var row := Run(Start(config, directory), steps).table[key];
      row.providerMessageId.Some? ==> row.status == SENT || row.status == DELIVERED
  {
    RunKeepsSound(Start(config, directory), steps);
    var w := Run(Start(config, directory), steps);
    assert RowSound(w.outbox, key, w.table[key]);
  }

  /** So a receipt, however late, leaves every waiting, failed or suppressed row exactly as it is. */
  lemma LateReceiptTouchesNoRetry(config: Config, directory: Directory, steps: seq<Step>, id: nat, receipt: Receipt, now: int, key: Key)
    requires key in Run(Start(config, directory), steps).table
    requires var row := Run(Start(config, directory), steps).table[key]; row.status != SENT && row.status != DELIVERED
    ensures var w := Run(Start(config, directory), steps);
      var after := Apply(w, WebhookReceipt(id, receipt, now));
      key in after.table && after.table[key] == w.table[key]
  {
    ProviderIdOnlyOnceSent(config, directory, steps, key);
  }

  // -- One live row, straight down the channels -------------------------------

  predicate SameChain(a: Key, b: Key) {
    a.event == b.event && a.recipient == b.recipient
  }

  function SpecOf(row: Notification): Spec {
    SpecByTemplate(row.template)
  }

  /** An update: it goes out by the first channel that works, as opposed to an alarm. */
  predicate IsUpdate(row: Notification) {
    SpecOf(row).mode == FirstAvailable
  }

  function RankOf(key: Key, row: Notification): nat {
    Rank(SpecOf(row).channels, key.channel)
  }

  /** The channels the dispatcher would choose today for the recipient of this row. */
  function ChosenFor(directory: Directory, outbox: seq<Event>, key: Key, row: Notification): seq<Channel>
    requires key.event < |outbox|
  {
    ChannelsFor(SpecOf(row), directory, outbox[key.event].tenant, key.recipient)
  }

  /**
   * The chain a row belongs to has a row at the one channel chosen for it, and
   * the row itself is at that channel or directly below another row.
   */
  ghost predicate Rooted(w: World, key: Key)
    requires key in w.table && key.event < |w.outbox|
  {
    var row := w.table[key];
    var chosen := ChosenFor(w.directory, w.outbox, key, row);
    && |chosen| == 1
    && key.(channel := chosen[0]) in w.table
    && Rank(SpecOf(row).channels, chosen[0]) <= RankOf(key, row)
    && (Rank(SpecOf(row).channels, chosen[0]) < RankOf(key, row) ==>
          key.(channel := SpecOf(row).channels[RankOf(key, row) - 1]) in w.table)
  }

  /** A row above another of its chain is suppressed. */
  ghost predicate Ordered(table: Table, upper: Key, lower: Key)
    requires upper in table && lower in table
  {
    SameChain(upper, lower) && RankOf(upper, table[upper]) < RankOf(lower, table[lower]) ==>
      table[upper].status == SUPPRESSED
  }

  ghost predicate AllRooted(w: World) {
    forall k :: k in w.table && IsUpdate(w.table[k]) ==> k.event < |w.outbox| && Rooted(w, k)
  }

  ghost predicate AllOrdered(table: Table) {
    forall a, b :: a in table && b in table && IsUpdate(table[a]) ==> Ordered(table, a, b)
  }

  ghost predicate Chained(w: World) {
    AllRooted(w) && AllOrdered(w.table)
  }

  /** Edits that leave everybody's channel choice alone: same preferences, same staff phone numbers. */
  ghost predicate KeepsChannels(before: Directory, after: Directory) {
    && before.preferences == after.preferences
    && forall u: nat :: PhoneOf(before, u) == PhoneOf(after, u)
  }

  lemma {:induction false} SameChannels(channels: seq<Channel>, before: Directory, after: Directory, tenant: nat, recipient: Recipient)
    requires KeepsChannels(before, after)
    ensures UsableAmong(channels, before, tenant, recipient) == UsableAmong(channels, after, tenant, recipient)
  {
    if channels != [] {
      SameChannels(channels[1..], before, after, tenant, recipient);
    }
  }

  lemma SameChosen(before: Directory, after: Directory, outbox: seq<Event>, key: Key, row: Notification)
    requires KeepsChannels(before, after) && key.event < |outbox|
    ensures ChosenFor(before, outbox, key, row) == ChosenFor(after, outbox, key, row)
  {
    hide SpecByTemplate;
    SameChannels(SpecOf(row).channels, before, after, outbox[key.event].tenant, key.recipient);
  }

  /** No row was added and no channel choice changed. */
  lemma QuietStepKeepsRooted(w: World, after: World)
    requires AllRooted(w) && Settles(w, after)
    requires after.table.Keys == w.table.Keys && w.outbox <= after.outbox
    requires KeepsChannels(w.directory, after.directory)
    ensures AllRooted(after)
  {
    hide SpecByTemplate, Rank, ChannelsFor, KeepsChannels;
    forall k | k in after.table && IsUpdate(after.table[k]) ensures k.event < |after.outbox| && Rooted(after, k) {
      assert Rooted(w, k);
      SameChosen(w.directory, after.directory, w.outbox, k, w.table[k]);
    }
  }

  lemma QuietStepKeepsChained(w: World, after: World)
    requires Chained(w) && Settles(w, after)
    requires after.table.Keys == w.table.Keys && w.outbox <= after.outbox
    requires KeepsChannels(w.directory, after.directory)
    ensures Chained(after)
  {
    hide SpecByTemplate, Rank;
    QuietStepKeepsRooted(w, after);
    forall a, b | a in after.table && b in after.table && IsUpdate(after.table[a]) ensures Ordered(after.table, a, b) {
      assert Ordered(w.table, a, b);
    }
  }

  /** The rows of a table stay, and what is added to an update's chain is at its chosen channel. */
  ghost predicate AddsChosen(w: World, after: World) {
    && after.outbox == w.outbox && after.directory == w.directory
    && (forall k :: k in w.table ==> k in after.table && after.table[k] == w.table[k])
    && (forall k :: k in after.table && k !in w.table && IsUpdate(after.table[k]) ==>
          k.event < |w.outbox| && ChosenFor(w.directory, w.outbox, k, after.table[k]) == [k.channel])
  }

  lemma AddsChosenKeepsRooted(w: World, after: World)
    requires AllRooted(w) && AddsChosen(w, after)
    ensures AllRooted(after)
  {
    hide SpecByTemplate, Rank, ChannelsFor;
    forall k | k in after.table && IsUpdate(after.table[k]) ensures k.event < |after.outbox| && Rooted(after, k) {
      if k in w.table {
        assert Rooted(w, k);
      }
    }
  }

  lemma AddsChosenKeepsOrdered(w: World, after: World)
    requires Chained(w) && AddsChosen(w, after) && AllRooted(after) && RowsSound(after)
    ensures AllOrdered(after.table)
  {
    hide SpecFor, SpecByTemplate, Rank, ChannelsFor;
    forall a, b | a in after.table && b in after.table && IsUpdate(after.table[a]) ensures Ordered(after.table, a, b) {
      if SameChain(a, b) {
        assert RowSound(after.outbox, a, after.table[a]) && RowSound(after.outbox, b, after.table[b]);
        assert Rooted(after, a);
        if a in w.table && b in w.table {
          assert Ordered(w.table, a, b);
        } else if a in w.table {
          assert Rooted(w, a);
        }
      }
    }
  }

  /** A row the dispatcher adds to an update's chain is at the chosen channel, and the first of its chain. */
  lemma DispatchKeepsChained(w: World, p: nat, now: int)
    requires Sound(w) && Chained(w)
    ensures Chained(Apply(w, DispatchTenant(p, now)))
  {
    hide Plan, RecordImplied, SpecByTemplate, Rank, ChannelsFor, AllRooted, AllOrdered, RowsSound;
    if p in w.dispatchers && w.dispatchers[p].todo != [] && w.dispatchers[p].end <= |w.outbox| {
      var d, after := w.dispatchers[p], Apply(w, DispatchTenant(p, now));
      DispatchKeepsSound(w, p, now);
      InsertPlansAdds(w.table, w.directory, w.outbox, d.start, d.end, d.todo[0], now);
      forall k | k in after.table && k !in w.table && IsUpdate(after.table[k])
        ensures k.event < |w.outbox| && ChosenFor(w.directory, w.outbox, k, after.table[k]) == [k.channel]
      {
        NewRowIsChosen(w, p, now, k);
      }
      assert AddsChosen(w, after);
      AddsChosenKeepsRooted(w, after);
      AddsChosenKeepsOrdered(w, after);
    }
  }

  lemma NewRowIsChosen(w: World, p: nat, now: int, key: Key)
    requires Sound(w)
    requires p in w.dispatchers && w.dispatchers[p].todo != [] && w.dispatchers[p].end <= |w.outbox|
    requires key !in w.table && key in Apply(w, DispatchTenant(p, now)).table
    requires IsUpdate(Apply(w, DispatchTenant(p, now)).table[key])
    ensures key.event < |w.outbox|
    ensures ChosenFor(w.directory, w.outbox, key, Apply(w, DispatchTenant(p, now)).table[key]) == [key.channel]
  {
    hide Plan, RecordImplied;
    var d, row := w.dispatchers[p], Apply(w, DispatchTenant(p, now)).table[key];
    InsertPlansOnlyPlans(w.table, w.directory, w.outbox, d.start, d.end, d.todo[0], now, key);
    PlannedIff(w.directory, key.event, w.outbox[key.event], now, (key, row));
    StoredSpec(w.outbox[key.event]);
  }

  /** The place of the row that a suppression promotes. */
  lemma PromotedRank(row: Notification, channel: Channel)
    requires channel in SpecOf(row).channels && NextChannel(row.template, channel).Some?
    ensures var next := NextChannel(row.template, channel).value;
      && IsUpdate(row)
      && Rank(SpecOf(row).channels, next) == Rank(SpecOf(row).channels, channel) + 1
      && SpecOf(row).channels[Rank(SpecOf(row).channels, next) - 1] == channel
  {
    RankOfNth(row.template, Rank(SpecOf(row).channels, channel) + 1);
  }

  lemma OldRowStaysRooted(w: World, after: World, key: Key)
    requires key in w.table && key.event < |w.outbox| && Rooted(w, key)
    requires after.outbox == w.outbox && after.directory == w.directory && w.table.Keys <= after.table.Keys
    requires after.table[key].template == w.table[key].template
    ensures Rooted(after, key)
  {
    hide SpecByTemplate, Rank, ChannelsFor;
  }

  lemma PromotedRowIsRooted(w: World, after: World, key: Key, next: Channel)
    requires key in w.table && key.event < |w.outbox| && Rooted(w, key) && key.channel in SpecOf(w.table[key]).channels
    requires after.outbox == w.outbox && after.directory == w.directory && w.table.Keys <= after.table.Keys
    requires NextChannel(w.table[key].template, key.channel) == Some(next)
    requires key.(channel := next) in after.table && after.table[key.(channel := next)].template == w.table[key].template
    ensures Rooted(after, key.(channel := next))
  {
    hide SpecByTemplate, Rank, ChannelsFor, NextChannel;
    PromotedRank(w.table[key], key.channel);
  }

  lemma SuppressKeepsRooted(w: World, key: Key, adapters: set<Channel>, fallback: Option<nat>, now: int)
    requires RowsSound(w) && AllRooted(w) && key in w.table
    ensures AllRooted(w.(table := Suppress(w.table, key, adapters, fallback, now)))
  {
    hide SpecFor, SpecByTemplate, Suppress, NextChannel, Rooted;
    var after := w.(table := Suppress(w.table, key, adapters, fallback, now));
    SuppressEffect(w.table, key, adapters, fallback, now);
    assert RowSound(w.outbox, key, w.table[key]);
    forall k | k in after.table && IsUpdate(after.table[k]) ensures k.event < |after.outbox| && Rooted(after, k) {
      if k in w.table {
        OldRowStaysRooted(w, after, k);
      } else {
        PromotedRowIsRooted(w, after, key, k.channel);
      }
    }
  }

  /** A promoted row goes directly below the suppressed one, where nothing was. */
  lemma SuppressKeepsOrdered(w: World, key: Key, adapters: set<Channel>, fallback: Option<nat>, now: int)
    requires RowsSound(w) && AllOrdered(w.table) && key in w.table && w.table[key].status != SUPPRESSED
    ensures AllOrdered(Suppress(w.table, key, adapters, fallback, now))
  {
    hide SpecFor, SpecByTemplate, Rank, Suppress, NextChannel;
    var after := Suppress(w.table, key, adapters, fallback, now);
    SuppressEffect(w.table, key, adapters, fallback, now);
    assert RowSound(w.outbox, key, w.table[key]);
    if NextChannel(w.table[key].template, key.channel).Some? {
      PromotedRank(w.table[key], key.channel);
    }
    forall a, b | a in after && b in after && IsUpdate(after[a]) ensures Ordered(after, a, b) {
      if SameChain(a, b) {
        if a in w.table && b in w.table {
          assert Ordered(w.table, a, b);
        } else if a in w.table {
          assert RowSound(w.outbox, a, w.table[a]);
          assert Ordered(w.table, key, a);
          RankIsInjective(SpecOf(w.table[key]).channels, a.channel, key.channel);
          assert Ordered(w.table, a, key);
        } else if b in w.table {
          assert RowSound(w.outbox, b, w.table[b]);
          assert Ordered(w.table, key, b);
        }
      }
    }
  }

  lemma RankIsInjective(channels: seq<Channel>, a: Channel, b: Channel)
    requires a in channels && b in channels
    ensures Rank(channels, a) == Rank(channels, b) ==> a == b
  {
  }

  lemma DeliverKeepsChained(w: World, facts: SendFacts, reply: Reply, now: int)
    requires Sound(w) && Chained(w) && w.sender.Delivering?
    ensures Chained(AfterDelivery(w, facts, reply, now))
  {
    hide SpecByTemplate, Rank, Suppress, Forbidden, FallbackDestination;
    var key, row := w.sender.key, w.table[w.sender.key];
    if !reply.RolledBack? && Forbidden(key.channel, row.destination, facts, now) {
      var fallback := FallbackDestination(w.directory, key.recipient, row.destination);
      SuppressKeepsRooted(w, key, facts.adapters, fallback, now);
      SuppressKeepsOrdered(w, key, facts.adapters, fallback, now);
      var after := w.(table := Suppress(w.table, key, facts.adapters, fallback, now));
      RootedIgnoresSender(after, Working(w.sender.queue));
    } else {
      DeliverKeepsSound(w, facts, reply, now);
      QuietStepKeepsChained(w, AfterDelivery(w, facts, reply, now));
    }
  }

  lemma RootedIgnoresSender(w: World, sender: Sender)
    requires AllRooted(w)
    ensures AllRooted(w.(sender := sender))
  {
    hide SpecByTemplate, Rank, ChannelsFor;
    forall k | k in w.table && IsUpdate(w.table[k]) ensures k.event < |w.outbox| && Rooted(w.(sender := sender), k) {
      assert Rooted(w, k);
    }
  }

  /** The edit, if this step is one, leaves every channel choice alone. */
  ghost predicate StableStep(w: World, step: Step) {
    step.EditDirectory? ==> KeepsChannels(w.directory, step.directory)
  }

  lemma StepKeepsChained(w: World, step: Step)
    requires Sound(w) && Chained(w) && StableStep(w, step)
    ensures Chained(Apply(w, step))
  {
    hide SpecByTemplate, Rank, InsertPlans, RecordImplied, AfterDelivery, Chained, Sound, TenantsOf, RowsOfTenant, IsDueBatch, Settles;
    StepKeepsSound(w, step);
    match step
    case DispatchTenant(p, now) => DispatchKeepsChained(w, p, now);
    case Deliver(facts, reply, now) =>
      if w.sender.Delivering? {
        DeliverKeepsChained(w, facts, reply, now);
      }
    case _ => QuietStepKeepsChained(w, Apply(w, step));
  }

  /** Throughout this run, preferences and staff phone numbers stay as they are. */
  ghost predicate StableRun(w: World, steps: seq<Step>)
    decreases steps
  {
    steps == [] || (StableStep(w, steps[0]) && StableRun(Apply(w, steps[0]), steps[1..]))
  }

  lemma {:induction false} RunKeepsChained(w: World, steps: seq<Step>)
    requires Sound(w) && Chained(w) && StableRun(w, steps)
    ensures Chained(Run(w, steps)) && Sound(Run(w, steps))
    decreases steps
  {
    hide Chained, Sound;
    if steps != [] {
      StepKeepsSound(w, steps[0]);
      StepKeepsChained(w, steps[0]);
      RunKeepsChained(Apply(w, steps[0]), steps[1..]);
    }
  }

  /**
   * With preferences and staff numbers unchanged, an event has at most one row
   * per recipient of an update that is not suppressed, through every crash,
   * replay, promotion and receipt.
   */
  lemma OneLiveRow(config: Config, directory: Directory, steps: seq<Step>, a: Key, b: Key)
    requires StableRun(Start(config, directory), steps)
    requires a in Run(Start(config, directory), steps).table && b in Run(Start(config, directory), steps).table
    requires SameChain(a, b) && IsUpdate(Run(Start(config, directory), steps).table[a])
    requires Run(Start(config, directory), steps).table[a].status != SUPPRESSED
    requires Run(Start(config, directory), steps).table[b].status != SUPPRESSED
    ensures a == b
  {
    RunKeepsChained(Start(config, directory), steps);
    var w := Run(Start(config, directory), steps);
    assert RowSound(w.outbox, a, w.table[a]) && RowSound(w.outbox, b, w.table[b]);
    assert Ordered(w.table, a, b) && Ordered(w.table, b, a);
    RankIsInjective(SpecOf(w.table[a]).channels, a.channel, b.channel);
  }

  /** From the chosen channel down to this row's own, every place above it holds a suppressed row. */
  ghost predicate StraightDown(w: World, key: Key)
    requires key in w.table
  {
    var channels := SpecOf(w.table[key]).channels;
    && key.event < |w.outbox|
    && |ChosenFor(w.directory, w.outbox, key, w.table[key])| == 1
    && var first := Rank(channels, ChosenFor(w.directory, w.outbox, key, w.table[key])[0]);
       && first <= RankOf(key, w.table[key])
       && forall rank: nat :: first <= rank < RankOf(key, w.table[key]) ==> HoldsSuppressed(w.table, key, channels, rank)
  }

  ghost predicate HoldsSuppressed(table: Table, key: Key, channels: seq<Channel>, rank: nat) {
    && rank < |channels|
    && key.(channel := channels[rank]) in table
    && table[key.(channel := channels[rank])].status == SUPPRESSED
  }

  lemma {:induction false} ChainGoesStraightDown(w: World, key: Key)
    requires Sound(w) && Chained(w) && key in w.table && IsUpdate(w.table[key])
    ensures StraightDown(w, key)
    decreases RankOf(key, w.table[key])
  {
    hide SpecFor, SpecByTemplate, Rank, ChannelsFor;
    var row := w.table[key];
    var channels, mine := SpecOf(row).channels, RankOf(key, row);
    assert RowSound(w.outbox, key, row) && Rooted(w, key);
    var first := Rank(channels, ChosenFor(w.directory, w.outbox, key, row)[0]);
    if first < mine {
      var above := key.(channel := channels[mine - 1]);
      assert RowSound(w.outbox, above, w.table[above]);
      assert SpecOf(w.table[above]) == SpecOf(row);
      RankOfNth(row.template, mine - 1);
      assert Ordered(w.table, above, key);
      ChainGoesStraightDown(w, above);
      forall rank: nat | first <= rank < mine ensures HoldsSuppressed(w.table, key, channels, rank) {
        if rank < mine - 1 {
          assert HoldsSuppressed(w.table, above, channels, rank);
          assert above.(channel := channels[rank]) == key.(channel := channels[rank]);
        }
      }
    }
  }

  /**
   * Under the same assumption the rows of a chain fill the spec's channels
   * without a gap, from the chosen one down, and all but the last are suppressed.
   */
  lemma StraightDownTheChannels(config: Config, directory: Directory, steps: seq<Step>, key: Key)
    requires StableRun(Start(config, directory), steps)
    requires key in Run(Start(config, directory), steps).table && IsUpdate(Run(Start(config, directory), steps).table[key])
    ensures StraightDown(Run(Start(config, directory), steps), key)
  {
    hide StraightDown;
    RunKeepsChained(Start(config, directory), steps);
    ChainGoesStraightDown(Run(Start(config, directory), steps), key);
  }
}
