/**
 * The notification pipeline as one state machine: any number of dispatchers
 * reading the outbox, one sender, delivery receipts, and an environment that
 * appends events, edits the tenant's data and crashes either side at any
 * point. Each step is one committed transaction (or one read); a step that is
 * not enabled changes nothing, so every sequence of steps is a run.
 */
module NotificationPipeline {
  import opened Outcomes
  import opened NotificationRules
  import opened NotificationTable
  import opened NotificationPlan

  datatype Config = Config(dispatchBatch: nat, sendBatch: nat, staleClaimMs: nat)

  /** A dispatcher between its read and its cursor write: events [start, end), and the tenants still to do. */
  datatype Dispatch = Dispatch(start: nat, end: nat, todo: seq<nat>)

  datatype Sender =
    | Resting
    | Working(queue: seq<Candidate>)
    | Delivering(key: Key, queue: seq<Candidate>)
    | Failing(key: Key, retryable: bool, queue: seq<Candidate>)

  /**
   * Event number n (from 0) has sequence n + 1, and the cursor is the last
   * sequence handled, so the events below index `cursor` are behind it. A
   * dispatcher that has read the cursor and not yet the outbox is in `cursorsRead`.
   * `implied` records, for each event dispatched, every key its plans named;
   * no step reads it.
   */
  datatype World = World(
    config: Config,
    outbox: seq<Event>,
    directory: Directory,
    table: Table,
    cursor: nat,
    cursorsRead: map<nat, nat>,
    dispatchers: map<nat, Dispatch>,
    sender: Sender,
    implied: map<nat, set<Key>>)

  /** What the sender learns about one row before it sends. */
  datatype SendFacts = SendFacts(
    adapters: set<Channel>,
    accountConnected: bool,
    lastInboundAt: Option<int>,
    templateStatus: Option<TemplateStatus>)

  /**
   * How the delivery transaction goes: the provider takes the message, or refuses
   * it, or the transaction itself fails, before or after the rules are applied.
   */
  datatype Reply = AcceptedBy(providerMessageId: Option<nat>) | Threw(retryable: bool) | RolledBack

  type Random = r: real | 0.0 <= r < 1.0 witness 0.0

  datatype Step =
    | Emit(event: Event)
    | EditDirectory(directory: Directory)
    | ReadCursor(dispatcher: nat)
    | ReadOutbox(dispatcher: nat)
    | DispatchTenant(dispatcher: nat, now: int)
    | AdvanceCursor(dispatcher: nat)
    | AbandonDispatch(dispatcher: nat)
    | ReadDue(tenant: nat, now: int, due: seq<Candidate>)
    | ClaimNext
    | Deliver(facts: SendFacts, reply: Reply, now: int)
    | RecordTheFailure(now: int, random: Random)
    | LoseTheFailure
    | FinishPass
    | SenderCrash
    | WebhookReceipt(providerMessageId: nat, receipt: Receipt, now: int)

  function Start(config: Config, directory: Directory): World {
    World(config, [], directory, map[], 0, map[], map[], Resting, map[])
  }

  // -- Dispatcher -------------------------------------------------------------

  /** The tenants of a batch, in the order they first appear. */
  function TenantsOf(events: seq<Event>): (tenants: seq<nat>)
    ensures forall i :: 0 <= i < |events| ==> events[i].tenant in tenants
  {
    if events == [] then []
    else
      var before, tenant := TenantsOf(events[..|events| - 1]), events[|events| - 1].tenant;
      if tenant in before then before else before + [tenant]
  }

  function Min(a: nat, b: nat): nat {
    if a <= b then a else b
  }

  /** One tenant's transaction: the rows of each of its events in [lo, hi), in order. */
  function InsertPlans(table: Table, directory: Directory, outbox: seq<Event>, lo: nat, hi: nat, tenant: nat, now: int): Table
    requires hi <= |outbox|
    decreases hi
  {
    if hi <= lo then table
    else
      var before := InsertPlans(table, directory, outbox, lo, hi - 1, tenant, now);
      if outbox[hi - 1].tenant == tenant
      then InsertAll(before, Plan(directory, hi - 1, outbox[hi - 1], now))
      else before
  }

  predicate InBatch(outbox: seq<Event>, lo: nat, hi: nat, tenant: nat, event: nat) {
    lo <= event < hi && event < |outbox| && outbox[event].tenant == tenant
  }

  function RecordImplied(w: World, d: Dispatch, tenant: nat, now: int): map<nat, set<Key>> {
    map e | e in w.implied.Keys + (set e | d.start <= e < d.end && InBatch(w.outbox, d.start, d.end, tenant, e)) ::
      (if e in w.implied then w.implied[e] else {})
      + (if InBatch(w.outbox, d.start, d.end, tenant, e)
         then KeysOf(Plan(w.directory, e, w.outbox[e], now))
         else {})
  }

  // -- Sender -----------------------------------------------------------------

  /** The rows a tenant's own transaction sees. */
  function RowsOfTenant(outbox: seq<Event>, table: Table, tenant: nat): Table {
    map k | k in table && k.event < |outbox| && outbox[k.event].tenant == tenant :: table[k]
  }

  /** Whether the rules forbid this message, in the order the sender asks. */
  predicate Forbidden(channel: Channel, destination: Option<nat>, facts: SendFacts, now: int) {
    || channel !in facts.adapters
    || (channel == Whatsapp
        && (!facts.accountConnected
            || ResolveSendMode(SendModeInput(now, facts.lastInboundAt, Utility, facts.templateStatus, false)).None?))
    || destination.None?
  }

  /** The fallback channel uses a customer's plain phone number. */
  function FallbackDestination(directory: Directory, recipient: Recipient, destination: Option<nat>): Option<nat> {
    match recipient
    case CustomerRecipient(id) => if id in directory.customers then Some(directory.customers[id].phone) else destination
    case StaffRecipient(_) => destination
  }

  /** The delivery transaction. A throw rolls it back and leaves the failure to be recorded. */
  function AfterDelivery(w: World, facts: SendFacts, reply: Reply, now: int): World
    requires w.sender.Delivering?
  {
    var Delivering(key, queue) := w.sender;
    if key !in w.table then w.(sender := Working(queue))
    else
      var row := w.table[key];
      if reply.RolledBack? then w.(sender := Failing(key, true, queue))
      else if Forbidden(key.channel, row.destination, facts, now) then
        w.(table := Suppress(w.table, key, facts.adapters,
                             FallbackDestination(w.directory, key.recipient, row.destination), now),
           sender := Working(queue))
      else match reply
        case AcceptedBy(id) => w.(table := MarkSent(w.table, key, id), sender := Working(queue))
        case Threw(retryable) => w.(sender := Failing(key, retryable, queue))
        case RolledBack => w
  }

  ghost function Apply(w: World, step: Step): World {
    match step
    case Emit(event) => w.(outbox := w.outbox + [event])
    case EditDirectory(directory) => w.(directory := directory)
    case ReadCursor(p) =>
      if p in w.dispatchers || p in w.cursorsRead then w else w.(cursorsRead := w.cursorsRead[p := w.cursor])
    case ReadOutbox(p) =>
      if p !in w.cursorsRead then w
      else
        var start := w.cursorsRead[p];
        var end := Min(|w.outbox|, start + w.config.dispatchBatch);
        if end <= start then w.(cursorsRead := w.cursorsRead - {p})
        else w.(cursorsRead := w.cursorsRead - {p},
                dispatchers := w.dispatchers[p := Dispatch(start, end, TenantsOf(w.outbox[start..end]))])
    case DispatchTenant(p, now) =>
      if p !in w.dispatchers || w.dispatchers[p].todo == [] || w.dispatchers[p].end > |w.outbox| then w
      else
        var d := w.dispatchers[p];
        w.(table := InsertPlans(w.table, w.directory, w.outbox, d.start, d.end, d.todo[0], now),
           implied := RecordImplied(w, d, d.todo[0], now),
           dispatchers := w.dispatchers[p := d.(todo := d.todo[1..])])
    case AdvanceCursor(p) =>
      if p !in w.dispatchers || w.dispatchers[p].todo != [] then w
      else w.(cursor := w.dispatchers[p].end, dispatchers := w.dispatchers - {p})
    case AbandonDispatch(p) => w.(cursorsRead := w.cursorsRead - {p}, dispatchers := w.dispatchers - {p})
    case ReadDue(tenant, now, due) =>
      if w.sender.Resting?
         && IsDueBatch(RowsOfTenant(w.outbox, w.table, tenant), now, w.config.staleClaimMs, w.config.sendBatch, due)
      then w.(sender := Working(due)) else w
    case ClaimNext =>
      if !w.sender.Working? || w.sender.queue == [] then w
      else
        var candidate, rest := w.sender.queue[0], w.sender.queue[1..];
        var (table, claimed) := Claim(w.table, candidate.key, candidate.status);
        w.(table := table, sender := if claimed then Delivering(candidate.key, rest) else Working(rest))
    case Deliver(facts, reply, now) =>
      if w.sender.Delivering? then AfterDelivery(w, facts, reply, now) else w
    case RecordTheFailure(now, random) =>
      if !w.sender.Failing? then w
      else if w.sender.key !in w.table then w.(sender := Working(w.sender.queue))
      else w.(table := RecordFailure(w.table, w.sender.key, w.sender.retryable, now, random),
              sender := Working(w.sender.queue))
    case LoseTheFailure => if w.sender.Failing? then w.(sender := Working(w.sender.queue)) else w
    case FinishPass => if w.sender.Working? && w.sender.queue == [] then w.(sender := Resting) else w
    case SenderCrash => w.(sender := Resting)
    case WebhookReceipt(id, receipt, now) => w.(table := ApplyReceipt(w.table, id, receipt, now))
  }

  /** The world after a sequence of steps. */
  ghost function Run(w: World, steps: seq<Step>): World
    decreases steps
  {
    if steps == [] then w else Run(Apply(w, steps[0]), steps[1..])
  }

  lemma RunCons(w: World, step: Step, rest: seq<Step>)
    ensures Run(w, [step] + rest) == Run(Apply(w, step), rest)
  {
    assert ([step] + rest)[1..] == rest;
  }

  lemma RunThree(w: World, a: Step, b: Step, c: Step)
    ensures Run(w, [a, b, c]) == Apply(Apply(Apply(w, a), b), c)
  {
    hide Apply;
    assert [a, b, c] == [a] + [b, c] && [b, c] == [b] + [c] && [c] == [c] + [];
    RunCons(w, a, [b, c]);
    RunCons(Apply(w, a), b, [c]);
    RunCons(Apply(Apply(w, a), b), c, []);
  }

  lemma {:induction false} RunAppend(w: World, first: seq<Step>, second: seq<Step>)
    ensures Run(w, first + second) == Run(Run(w, first), second)
    decreases first
  {
    if first == [] {
      assert first + second == second;
    } else {
      assert (first + second)[1..] == first[1..] + second;
      RunAppend(Apply(w, first[0]), first[1..], second);
    }
  }
}
