/**
 * The two background workers as they run: objects over a shared database,
 * updating it row by row. Each method is tied to the state machine of
 * NotificationPipeline, so whatever holds of its runs holds of them.
 */
module NotificationWorkers {
  import opened Outcomes
  import opened NotificationRules
  import opened NotificationTable
  import opened NotificationPlan
  import opened NotificationPipeline
  import opened SenderSafety
  import opened SenderProgress
  import opened SenderLiveness

  class Database {
    var outbox: seq<Event>
    var directory: Directory
    var notifications: Table
    var cursor: nat

    constructor (directory: Directory)
      ensures outbox == [] && this.directory == directory && notifications == map[] && cursor == 0
    {
      outbox := [];
      this.directory := directory;
      notifications := map[];
      cursor := 0;
    }

    /** The world these tables are, with the given worker states. */
    ghost function View(config: Config, dispatchers: map<nat, Dispatch>, sender: Sender): World
      reads this
    {
      World(config, outbox, directory, notifications, cursor, map[], dispatchers, sender, map[])
    }

    /** createMany with skipDuplicates: one insert after another, passing over a key that is taken. */
    method CreateMany(rows: seq<(Key, Notification)>) returns (created: nat)
      modifies this`notifications
      ensures notifications == InsertAll(old(notifications), rows)
      ensures created == |notifications| - |old(notifications)|
    {
      created := 0;
      for i := 0 to |rows|
        invariant InsertAll(notifications, rows[i..]) == InsertAll(old(notifications), rows)
        invariant |notifications| == |old(notifications)| + created
      {
        var (key, row) := rows[i];
        assert rows[i..][1..] == rows[i + 1..];
        if key !in notifications {
          notifications := notifications[key := row];
          created := created + 1;
        }
      }
    }
  }

  // -- Sender ---------------------------------------------------------------------

  class NotificationSender {
    const db: Database
    const config: Config

    constructor (db: Database, config: Config)
      ensures this.db == db && this.config == config
    {
      this.db := db;
      this.config := config;
    }

    method Claim(key: Key, from: NotificationStatus) returns (claimed: bool)
      modifies db`notifications
      ensures (db.notifications, claimed) == NotificationTable.Claim(old(db.notifications), key, from)
    {
      claimed := key in db.notifications && db.notifications[key].status == from;
      if claimed {
        var row := db.notifications[key];
        db.notifications := db.notifications[key := row.(status := PROCESSING, attempts := row.attempts + 1)];
      }
    }

    /** Records a refusal, and gives the next channel of an update a row of its own. */
    method Suppress(key: Key, adapters: set<Channel>, now: int)
      requires key in db.notifications
      modifies db`notifications
      ensures var row := old(db.notifications)[key];
        db.notifications == NotificationTable.Suppress(old(db.notifications), key, adapters,
                                                       FallbackDestination(db.directory, key.recipient, row.destination), now)
    {
      var row := db.notifications[key];
      db.notifications := db.notifications[key := row.(status := SUPPRESSED, nextAttemptAt := None)];
      var spec := SpecByTemplate(row.template);
      if spec.mode != FirstAvailable { return; }
      var index := Rank(spec.channels, key.channel);
      if index + 1 >= |spec.channels| { return; }
      var next := spec.channels[index + 1];
      if next !in adapters { return; }
      var destination := FallbackDestination(db.directory, key.recipient, row.destination);
      var _ := db.CreateMany([(key.(channel := next), Queued(row.template, destination, now))]);
    }

    method RecordFailure(key: Key, retryable: bool, now: int, random: Random)
      requires key in db.notifications
      modifies db`notifications
      ensures db.notifications == NotificationTable.RecordFailure(old(db.notifications), key, retryable, now, random)
    {
      var row := db.notifications[key];
      var retryAt := None;
      if retryable {
        retryAt := NextRetryAt(row.attempts, now, random);
      }
      var givingUp := retryAt.None?;
      db.notifications := db.notifications[key := row.(status := if givingUp then FAILED else PENDING, nextAttemptAt := retryAt)];
    }

    /** One claimed row: the delivery transaction, and the record of a failure if it threw. */
    method Deliver(key: Key, turn: Turn, ghost queue: seq<Candidate>)
      requires key in db.notifications
      modifies db`notifications
      ensures db.View(config, map[], Working(queue))
           == Apply(AfterDelivery(old(db.View(config, map[], Delivering(key, queue))), turn.facts, turn.reply, turn.now),
                    RecordTheFailure(turn.failedAt, turn.random))
    {
      var row := db.notifications[key];
      if turn.reply.RolledBack? {
        RecordFailure(key, true, turn.failedAt, turn.random);
        return;
      }
      if Forbidden(key.channel, row.destination, turn.facts, turn.now) {
        Suppress(key, turn.facts.adapters, turn.now);
        return;
      }
      match turn.reply
      case AcceptedBy(id) =>
        db.notifications := db.notifications[key := row.(status := SENT, nextAttemptAt := None, providerMessageId := id)];
      case Threw(retryable) =>
        RecordFailure(key, retryable, turn.failedAt, turn.random);
    }

    /**
     * One row of a pass, in whatever state it is by now: claimed and attempted, or
     * passed over because it is no longer as it was read.
     */
    method SendOne(candidate: Candidate, turn: Turn, ghost rest: seq<Candidate>) returns (claimed: bool)
      requires Sound(db.View(config, map[], Working([candidate] + rest)))
      modifies db`notifications
      ensures db.View(config, map[], Working(rest)) == Run(old(db.View(config, map[], Working([candidate] + rest))), TurnSteps(turn))
      ensures claimed <==> Claims(old(db.View(config, map[], Working([candidate] + rest))), TurnSteps(turn)) == [candidate.key]
      ensures !claimed <==> Claims(old(db.View(config, map[], Working([candidate] + rest))), TurnSteps(turn)) == []
    {
      TurnIs(db.View(config, map[], Working([candidate] + rest)), candidate, rest, turn);
      claimed := Claim(candidate.key, candidate.status);
      if claimed {
        Deliver(candidate.key, turn, rest);
      }
    }

    /** A pass over what was read, however stale: it is a run of the protocol, and counts the claims it won. */
    method SendForTenant(due: seq<Candidate>, turns: seq<Turn>) returns (attempted: nat)
      requires |turns| == |due| && Sound(db.View(config, map[], Working(due)))
      modifies db`notifications
      ensures db.View(config, map[], Resting)
           == Run(old(db.View(config, map[], Working(due))), TurnsSteps(turns) + [FinishPass])
      ensures attempted == |Claims(old(db.View(config, map[], Working(due))), TurnsSteps(turns) + [FinishPass])|
    {
      hide Run, Claims, Sound;
      ghost var start := db.View(config, map[], Working(due));
      ghost var steps := TurnsSteps(turns) + [FinishPass];
      assert due[0..] == due && turns[0..] == turns;
      attempted := 0;
      for i := 0 to |due|
        invariant Sound(db.View(config, map[], Working(due[i..])))
        invariant Run(db.View(config, map[], Working(due[i..])), TurnsSteps(turns[i..]) + [FinishPass]) == Run(start, steps)
        invariant attempted + |Claims(db.View(config, map[], Working(due[i..])), TurnsSteps(turns[i..]) + [FinishPass])|
               == |Claims(start, steps)|
      {
        assert due[i..] == [due[i]] + due[i + 1..] && turns[i..][1..] == turns[i + 1..];
        ghost var before := db.View(config, map[], Working([due[i]] + due[i + 1..]));
        TurnThenRest(before, turns[i..]);
        RunKeepsSound(before, TurnSteps(turns[i]));
        var claimed := SendOne(due[i], turns[i], due[i + 1..]);
        if claimed {
          attempted := attempted + 1;
        }
      }
      assert due[|due|..] == [] && turns[|due|..] == [];
      PassCloses(db.View(config, map[], Working([])));
    }

    /** When the read is answered as it stands and nothing disturbs the pass, every row of it is attempted. */
    method SendUndisturbed(pass: Pass) returns (attempted: nat)
      requires Sound(db.View(config, map[], Resting)) && Undisturbed(db.View(config, map[], Resting), pass)
      modifies db`notifications
      ensures db.View(config, map[], Resting) == Run(old(db.View(config, map[], Resting)), PassSteps(pass))
      ensures attempted == |pass.due|
    {
      hide Run, Claims, Sound;
      PassOpens(db.View(config, map[], Resting), pass);
      PassClaims(db.View(config, map[], Resting), pass);
      attempted := SendForTenant(pass.due, pass.turns);
    }
  }

  // -- Dispatcher -------------------------------------------------------------------

  class NotificationDispatcher {
    const db: Database
    const config: Config

    constructor (db: Database, config: Config)
      ensures this.db == db && this.config == config
    {
      this.db := db;
      this.config := config;
    }

    /** The rows for one recipient, a channel at a time. */
    method RowsForOne(recipient: Recipient, tenant: nat, event: nat, spec: Spec, now: int) returns (rows: seq<(Key, Notification)>)
      ensures rows == RowsFor(recipient, db.directory, tenant, event, spec, now)
    {
      rows := [];
      var channels := ChannelsFor(spec, db.directory, tenant, recipient);
      for i := 0 to |channels|
        invariant rows == RowsOn(channels, db.directory, event, recipient, spec, now)[..i]
      {
        rows := rows + [(Key(event, recipient, channels[i]),
                         Queued(spec.template, DestinationFor(db.directory, recipient, channels[i]), now))];
      }
    }

    method StaffAt(tenant: nat, branch: nat) returns (recipients: seq<nat>)
      ensures recipients == StaffFor(db.directory, tenant, branch)
    {
      recipients := [];
      var memberships := db.directory.memberships;
      for i := 0 to |memberships|
        invariant recipients + StaffAmong(memberships[i..], db.directory, tenant, branch) == StaffFor(db.directory, tenant, branch)
      {
        assert memberships[i..][1..] == memberships[i + 1..];
        if HearsAbout(memberships[i], db.directory, tenant, branch) {
          recipients := recipients + [memberships[i].user];
        }
      }
    }

    method RowsForStaff(tenant: nat, branch: nat, event: nat, spec: Spec, now: int) returns (rows: seq<(Key, Notification)>)
      ensures rows == StaffRows(StaffFor(db.directory, tenant, branch), db.directory, tenant, event, spec, now)
    {
      rows := [];
      var staff := StaffAt(tenant, branch);
      assert staff[0..] == staff;
      for i := 0 to |staff|
        invariant rows + StaffRows(staff[i..], db.directory, tenant, event, spec, now)
               == StaffRows(staff, db.directory, tenant, event, spec, now)
      {
        assert staff[i..][1..] == staff[i + 1..];
        var own := RowsForOne(StaffRecipient(staff[i]), tenant, event, spec, now);
        assert rows + (own + StaffRows(staff[i + 1..], db.directory, tenant, event, spec, now))
            == (rows + own) + StaffRows(staff[i + 1..], db.directory, tenant, event, spec, now);
        rows := rows + own;
      }
    }

    method PlanHandoffNotifications(event: nat, body: Event, spec: Spec, conversation: Option<nat>, now: int) returns (created: nat)
      modifies db`notifications
      ensures db.notifications == InsertAll(old(db.notifications), HandoffRows(db.directory, event, body.tenant, spec, conversation, now))
      ensures created == |db.notifications| - |old(db.notifications)|
    {
      if conversation.None? || conversation.value !in db.directory.conversations { return 0; }
      var facts := db.directory.conversations[conversation.value];
      if !facts.waiting || facts.branch.None? { return 0; }
      var rows := RowsForStaff(body.tenant, facts.branch.value, event, spec, now);
      created := db.CreateMany(rows);
    }

    method PlanNotifications(event: nat, body: Event, now: int) returns (created: nat)
      modifies db`notifications
      ensures db.notifications == InsertAll(old(db.notifications), Plan(db.directory, event, body, now))
      ensures created == |db.notifications| - |old(db.notifications)|
    {
      if SpecFor(body).None? { return 0; }
      var spec := SpecFor(body).value;
      if body.payload.HandoffUnanswered? {
        created := PlanHandoffNotifications(event, body, spec, body.payload.conversation, now);
        return;
      }
      var orderId := if body.payload.OtherEvent? then None else body.payload.order;
      if orderId.None? || orderId.value !in db.directory.orders { return 0; }
      var order := db.directory.orders[orderId.value];
      var rows: seq<(Key, Notification)> := [];
      if spec.notifyCustomer && order.customer.Some? && order.customer.value in db.directory.customers {
        rows := RowsForOne(CustomerRecipient(order.customer.value), body.tenant, event, spec, now);
      }
      if spec.notifyStaff {
        var staffRows := RowsForStaff(body.tenant, order.branch, event, spec, now);
        rows := rows + staffRows;
      }
      assert rows == OrderRows(db.directory, event, body.tenant, spec, order, now);
      created := db.CreateMany(rows);
    }

    /** All of one tenant's events of a batch, in one transaction. */
    method DispatchForTenant(events: seq<nat>, now: int) returns (created: nat)
      requires forall i :: 0 <= i < |events| ==> events[i] < |db.outbox|
      modifies db`notifications
      ensures db.notifications == InsertEvents(old(db.notifications), db.directory, db.outbox, events, now)
      ensures created == |db.notifications| - |old(db.notifications)|
    {
      created := 0;
      for i := 0 to |events|
        invariant db.notifications == InsertEvents(old(db.notifications), db.directory, db.outbox, events[..i], now)
        invariant created == |db.notifications| - |old(db.notifications)|
      {
        assert events[..i + 1][..i] == events[..i];
        var more := PlanNotifications(events[i], db.outbox[events[i]], now);
        created := created + more;
      }
      assert events[..|events|] == events;
    }

    /** The batch by tenant, tenants in the order they first appear. */
    method GroupByTenant(start: nat, end: nat) returns (order: seq<nat>, byTenant: map<nat, seq<nat>>)
      requires start <= end <= |db.outbox|
      ensures order == TenantsOf(db.outbox[start..end])
      ensures Grouped(db.outbox, start, end, order, byTenant)
    {
      hide EventsOf;
      byTenant, order := map[], [];
      NothingGrouped(db.outbox, start);
      for e := start to end
        invariant order == TenantsOf(db.outbox[start..e])
        invariant Grouped(db.outbox, start, e, order, byTenant)
      {
        assert db.outbox[start..e + 1][..e - start] == db.outbox[start..e];
        var tenant := db.outbox[e].tenant;
        OneMoreGrouped(db.outbox, start, e, order, byTenant);
        if tenant in byTenant {
          byTenant := byTenant[tenant := byTenant[tenant] + [e]];
        } else {
          byTenant := byTenant[tenant := [e]];
          order := order + [tenant];
        }
      }
    }

    method DispatchTenants(start: nat, end: nat, order: seq<nat>, byTenant: map<nat, seq<nat>>, now: int)
      requires end <= |db.outbox|
      requires Grouped(db.outbox, start, end, order, byTenant)
      modifies db`notifications
      ensures db.notifications == InsertTenants(old(db.notifications), db.directory, db.outbox, start, end, order, now)
    {
      hide InsertPlans, InsertEvents;
      assert order[0..] == order;
      for i := 0 to |order|
        invariant InsertTenants(db.notifications, db.directory, db.outbox, start, end, order[i..], now)
               == InsertTenants(old(db.notifications), db.directory, db.outbox, start, end, order, now)
      {
        assert order[i..][1..] == order[i + 1..];
        EventsOfAreInBatch(db.outbox, start, end, order[i]);
        InsertEventsOfTenant(db.notifications, db.directory, db.outbox, start, end, order[i], now);
        var _ := DispatchForTenant(byTenant[order[i]], now);
      }
    }

    /**
     * One undisturbed round: a batch is read, grouped by tenant, planned tenant
     * by tenant, and only then is the cursor moved to its end.
     */
    method DispatchOnce(now: int) returns (read: nat)
      requires db.cursor <= |db.outbox|
      modifies db`notifications, db`cursor
      ensures read == Min(|db.outbox|, old(db.cursor) + config.dispatchBatch) - old(db.cursor)
      ensures read == 0 ==> db.notifications == old(db.notifications) && db.cursor == old(db.cursor)
      ensures read > 0 ==>
        var round := Round(old(db.View(config, map[], Resting)), now);
        db.notifications == round.table && db.cursor == round.cursor == old(db.cursor) + read
    {
      var start, end := db.cursor, Min(|db.outbox|, db.cursor + config.dispatchBatch);
      if end <= start { return 0; }
      hide Round, InsertTenants, EventsOf, TenantsOf;
      RoundIs(db.View(config, map[], Resting), now);
      var order, byTenant := GroupByTenant(start, end);
      DispatchTenants(start, end, order, byTenant, now);
      db.cursor := end;
      read := end - start;
    }
  }

  // -- How a round unfolds ------------------------------------------------------------

  /** The events of one tenant in [lo, hi), in order. */
  function EventsOf(outbox: seq<Event>, lo: nat, hi: nat, tenant: nat): seq<nat>
    requires hi <= |outbox|
    decreases hi
  {
    if hi <= lo then []
    else EventsOf(outbox, lo, hi - 1, tenant) + (if outbox[hi - 1].tenant == tenant then [hi - 1] else [])
  }

  ghost predicate Grouped(outbox: seq<Event>, lo: nat, hi: nat, order: seq<nat>, byTenant: map<nat, seq<nat>>)
    requires hi <= |outbox|
  {
    && (forall t :: t in order <==> t in byTenant)
    && (forall t :: t in byTenant ==> byTenant[t] == EventsOf(outbox, lo, hi, t))
    && (forall t :: t !in byTenant ==> EventsOf(outbox, lo, hi, t) == [])
  }

  lemma NothingGrouped(outbox: seq<Event>, lo: nat)
    requires lo <= |outbox|
    ensures Grouped(outbox, lo, lo, [], map[])
  {
  }

  lemma OneMoreGrouped(outbox: seq<Event>, lo: nat, hi: nat, order: seq<nat>, byTenant: map<nat, seq<nat>>)
    requires lo <= hi < |outbox| && Grouped(outbox, lo, hi, order, byTenant)
    ensures var tenant := outbox[hi].tenant;
      if tenant in byTenant then Grouped(outbox, lo, hi + 1, order, byTenant[tenant := byTenant[tenant] + [hi]])
      else Grouped(outbox, lo, hi + 1, order + [tenant], byTenant[tenant := [hi]])
  {
    forall t: nat
      ensures EventsOf(outbox, lo, hi + 1, t)
           == EventsOf(outbox, lo, hi, t) + (if outbox[hi].tenant == t then [hi] else [])
    {
    }
    hide EventsOf;
  }

  lemma {:induction false} EventsOfAreInBatch(outbox: seq<Event>, lo: nat, hi: nat, tenant: nat)
    requires hi <= |outbox|
    ensures forall i :: 0 <= i < |EventsOf(outbox, lo, hi, tenant)| ==> EventsOf(outbox, lo, hi, tenant)[i] < |outbox|
    decreases hi
  {
    if hi > lo {
      EventsOfAreInBatch(outbox, lo, hi - 1, tenant);
    }
  }

  function InsertEvents(table: Table, directory: Directory, outbox: seq<Event>, events: seq<nat>, now: int): Table
    requires forall i :: 0 <= i < |events| ==> events[i] < |outbox|
    decreases |events|
  {
    if events == [] then table
    else
      var last := events[|events| - 1];
      InsertAll(InsertEvents(table, directory, outbox, events[..|events| - 1], now), Plan(directory, last, outbox[last], now))
  }

  lemma InsertNoEvents(table: Table, directory: Directory, outbox: seq<Event>, now: int)
    ensures InsertEvents(table, directory, outbox, [], now) == table
  {
  }

  lemma InsertEventsSnoc(table: Table, directory: Directory, outbox: seq<Event>, events: seq<nat>, last: nat, now: int)
    requires last < |outbox| && forall i :: 0 <= i < |events| ==> events[i] < |outbox|
    ensures InsertEvents(table, directory, outbox, events + [last], now)
         == InsertAll(InsertEvents(table, directory, outbox, events, now), Plan(directory, last, outbox[last], now))
  {
    hide Plan, InsertAll;
    assert (events + [last])[..|events|] == events;
  }

  /** Planning a tenant's own list of events is planning its share of the batch. */
  lemma {:induction false} InsertEventsOfTenant(table: Table, directory: Directory, outbox: seq<Event>, lo: nat, hi: nat, tenant: nat, now: int)
    requires hi <= |outbox|
    ensures forall i :: 0 <= i < |EventsOf(outbox, lo, hi, tenant)| ==> EventsOf(outbox, lo, hi, tenant)[i] < |outbox|
    ensures InsertEvents(table, directory, outbox, EventsOf(outbox, lo, hi, tenant), now)
         == InsertPlans(table, directory, outbox, lo, hi, tenant, now)
    decreases hi
  {
    hide Plan, InsertAll, InsertEvents;
    EventsOfAreInBatch(outbox, lo, hi, tenant);
    if hi <= lo {
      InsertNoEvents(table, directory, outbox, now);
    } else {
      InsertEventsOfTenant(table, directory, outbox, lo, hi - 1, tenant, now);
      var before := EventsOf(outbox, lo, hi - 1, tenant);
      EventsOfAreInBatch(outbox, lo, hi - 1, tenant);
      if outbox[hi - 1].tenant == tenant {
        InsertEventsSnoc(table, directory, outbox, before, hi - 1, now);
      } else {
        assert EventsOf(outbox, lo, hi, tenant) == before;
      }
    }
  }

  function InsertTenants(table: Table, directory: Directory, outbox: seq<Event>, lo: nat, hi: nat, tenants: seq<nat>, now: int): Table
    requires hi <= |outbox|
    decreases tenants
  {
    if tenants == [] then table
    else
      InsertTenants(InsertPlans(table, directory, outbox, lo, hi, tenants[0], now), directory, outbox, lo, hi, tenants[1..], now)
  }

  function TenantSteps(tenants: seq<nat>, now: int): seq<Step> {
    if tenants == [] then [AdvanceCursor(0)] else [DispatchTenant(0, now)] + TenantSteps(tenants[1..], now)
  }

  /** The steps of one round, taken by dispatcher 0. */
  function RoundSteps(tenants: seq<nat>, now: int): seq<Step> {
    [ReadCursor(0)] + ([ReadOutbox(0)] + TenantSteps(tenants, now))
  }

  lemma {:induction false} TenantStepsRun(w: World, now: int)
    requires 0 in w.dispatchers && w.dispatchers[0].end <= |w.outbox|
    ensures var d := w.dispatchers[0];
      var after := Run(w, TenantSteps(d.todo, now));
      && after.table == InsertTenants(w.table, w.directory, w.outbox, d.start, d.end, d.todo, now)
      && after.cursor == d.end
    decreases |w.dispatchers[0].todo|
  {
    hide InsertPlans, RecordImplied;
    var d := w.dispatchers[0];
    if d.todo == [] {
      assert TenantSteps(d.todo, now) == [AdvanceCursor(0)] + [];
      RunCons(w, AdvanceCursor(0), []);
    } else {
      RunCons(w, DispatchTenant(0, now), TenantSteps(d.todo[1..], now));
      TenantStepsRun(Apply(w, DispatchTenant(0, now)), now);
    }
  }

  /** The world after one undisturbed round of dispatcher 0. */
  ghost function Round(w: World, now: int): World {
    Run(w, RoundSteps(TenantsOf(w.outbox[Min(w.cursor, |w.outbox|)..Min(|w.outbox|, w.cursor + w.config.dispatchBatch)]), now))
  }

  lemma RoundOpens(w: World)
    requires w.dispatchers == map[] && w.cursorsRead == map[] && w.cursor < Min(|w.outbox|, w.cursor + w.config.dispatchBatch)
    ensures var end := Min(|w.outbox|, w.cursor + w.config.dispatchBatch);
      && Apply(w, ReadCursor(0)) == w.(cursorsRead := map[0 := w.cursor])
      && Apply(w.(cursorsRead := map[0 := w.cursor]), ReadOutbox(0))
         == w.(dispatchers := map[0 := Dispatch(w.cursor, end, TenantsOf(w.outbox[w.cursor..end]))])
  {
    hide TenantsOf;
    var w1 := w.(cursorsRead := map[0 := w.cursor]);
    assert w1.cursorsRead - {0} == map[];
  }

  lemma RoundIs(w: World, now: int)
    requires w.dispatchers == map[] && w.cursorsRead == map[] && w.cursor < Min(|w.outbox|, w.cursor + w.config.dispatchBatch)
    ensures var end := Min(|w.outbox|, w.cursor + w.config.dispatchBatch);
      && Round(w, now).table
         == InsertTenants(w.table, w.directory, w.outbox, w.cursor, end, TenantsOf(w.outbox[w.cursor..end]), now)
      && Round(w, now).cursor == end
  {
    hide InsertTenants, InsertPlans, RecordImplied, TenantsOf, Apply;
    var end := Min(|w.outbox|, w.cursor + w.config.dispatchBatch);
    var tenants := TenantsOf(w.outbox[w.cursor..end]);
    var w1 := w.(cursorsRead := map[0 := w.cursor]);
    var w2 := w.(dispatchers := map[0 := Dispatch(w.cursor, end, tenants)]);
    RoundOpens(w);
    RunCons(w, ReadCursor(0), [ReadOutbox(0)] + TenantSteps(tenants, now));
    RunCons(w1, ReadOutbox(0), TenantSteps(tenants, now));
    TenantStepsRun(w2, now);
  }

  // -- How a pass unfolds -----------------------------------------------------------

  lemma PassOpens(w: World, pass: Pass)
    requires Sound(w) && Undisturbed(w, pass)
    ensures var ready := w.(sender := Working(pass.due));
      && Run(w, PassSteps(pass)) == Run(ready, TurnsSteps(pass.turns) + [FinishPass])
      && Claims(w, PassSteps(pass)) == Claims(ready, TurnsSteps(pass.turns) + [FinishPass])
      && Sound(ready)
  {
    hide Sound, Claims;
    var read := ReadDue(pass.tenant, pass.now, pass.due);
    PassBrackets(w, pass, w.(sender := Working([])));
    StepKeepsSound(w, read);
    RunCons(w, read, TurnsSteps(pass.turns) + [FinishPass]);
    ClaimsCons(w, read, TurnsSteps(pass.turns) + [FinishPass]);
    NoClaim(w, read);
  }

  lemma PassCloses(w: World)
    requires w.sender == Working([])
    ensures Run(w, TurnsSteps([]) + [FinishPass]) == w.(sender := Resting)
    ensures Claims(w, TurnsSteps([]) + [FinishPass]) == []
  {
    assert TurnsSteps([]) + [FinishPass] == [FinishPass] + [];
    RunCons(w, FinishPass, []);
    ClaimsCons(w, FinishPass, []);
  }

  /** One turn: the row is claimed and attempted if it is as it was read; otherwise nothing happens. */
  lemma TurnIs(w: World, candidate: Candidate, rest: seq<Candidate>, turn: Turn)
    requires Sound(w) && w.sender == Working([candidate] + rest)
    ensures var (claimed, ok) := NotificationTable.Claim(w.table, candidate.key, candidate.status);
      && Claims(w, TurnSteps(turn)) == (if ok then [candidate.key] else [])
      && Run(w, TurnSteps(turn))
         == if ok
            then Apply(AfterDelivery(w.(table := claimed, sender := Delivering(candidate.key, rest)), turn.facts, turn.reply, turn.now),
                       RecordTheFailure(turn.failedAt, turn.random))
            else w.(sender := Working(rest))
  {
    hide AfterDelivery, Sound, RecordFailure;
    var deliver, record := NotificationPipeline.Deliver(turn.facts, turn.reply, turn.now), RecordTheFailure(turn.failedAt, turn.random);
    assert ([candidate] + rest)[1..] == rest;
    var w1 := Apply(w, ClaimNext);
    assert ClaimOf(w, ClaimNext) == if NotificationTable.Claim(w.table, candidate.key, candidate.status).1 then [candidate.key] else [];
    assert w1.sender.Delivering? ==> Apply(w1, deliver) == AfterDelivery(w1, turn.facts, turn.reply, turn.now);
    assert w1.sender.Working? ==> Apply(w1, deliver) == w1 && Apply(w1, record) == w1;
    RunThree(w, ClaimNext, deliver, record);
    hide Apply, ClaimOf;
    assert TurnSteps(turn) == [ClaimNext] + ([deliver] + ([record] + []));
    ClaimsCons(w, ClaimNext, [deliver] + ([record] + []));
    ClaimsCons(w1, deliver, [record] + []);
    ClaimsCons(Apply(w1, deliver), record, []);
    NoClaim(w1, deliver);
    NoClaim(Apply(w1, deliver), record);
  }

  lemma TurnThenRest(w: World, turns: seq<Turn>)
    requires turns != []
    ensures Run(w, TurnsSteps(turns) + [FinishPass]) == Run(Run(w, TurnSteps(turns[0])), TurnsSteps(turns[1..]) + [FinishPass])
    ensures Claims(w, TurnsSteps(turns) + [FinishPass])
         == Claims(w, TurnSteps(turns[0])) + Claims(Run(w, TurnSteps(turns[0])), TurnsSteps(turns[1..]) + [FinishPass])
  {
    hide Run, TurnSteps, Claims;
    assert TurnsSteps(turns) + [FinishPass] == TurnSteps(turns[0]) + (TurnsSteps(turns[1..]) + [FinishPass]);
    RunAppend(w, TurnSteps(turns[0]), TurnsSteps(turns[1..]) + [FinishPass]);
    ClaimsAppend(w, TurnSteps(turns[0]), TurnsSteps(turns[1..]) + [FinishPass]);
  }
}
