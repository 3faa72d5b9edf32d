/**
 * The notifications table. A row is found by its unique key (event, recipient
 * type, recipient, channel), so the table is a map; each function here is what
 * one committed transaction leaves behind.
 */
module NotificationTable {
  import opened Outcomes
  import opened NotificationRules

  datatype Recipient = CustomerRecipient(id: nat) | StaffRecipient(id: nat)

  /** An event is named by its place in the outbox. */
  datatype Key = Key(event: nat, recipient: Recipient, channel: Channel)

  datatype NotificationStatus = PENDING | PROCESSING | SENT | DELIVERED | FAILED | SUPPRESSED

  datatype Notification = Notification(
    template: Template,
    destination: Option<nat>,
    status: NotificationStatus,
    attempts: nat,
    nextAttemptAt: Option<int>,
    providerMessageId: Option<nat>)

  type Table = map<Key, Notification>

  /** A row as the dispatcher writes it: due at once, never attempted. */
  function Queued(template: Template, destination: Option<nat>, now: int): Notification {
    Notification(template, destination, PENDING, 0, Some(now), None)
  }

  /** createMany with skipDuplicates. */
  function InsertAll(table: Table, rows: seq<(Key, Notification)>): (after: Table)
    ensures table.Keys <= after.Keys
    ensures forall k :: k in table ==> after[k] == table[k]
    decreases rows
  {
    if rows == [] then table
    else
      var (key, row) := rows[0];
      InsertAll(if key in table then table else table[key := row], rows[1..])
  }

  function KeysOf(rows: seq<(Key, Notification)>): set<Key> {
    set i | 0 <= i < |rows| :: rows[i].0
  }

  /** Every key ends up present, nothing else does, and a new row is one of those offered. */
  lemma {:induction false} InsertAllAdds(table: Table, rows: seq<(Key, Notification)>)
    ensures InsertAll(table, rows).Keys == table.Keys + KeysOf(rows)
    ensures forall k :: k in InsertAll(table, rows) && k !in table ==> (k, InsertAll(table, rows)[k]) in rows
    decreases rows
  {
    if rows != [] {
      var (key, row) := rows[0];
      InsertAllAdds(if key in table then table else table[key := row], rows[1..]);
      assert rows == [rows[0]] + rows[1..];
      assert KeysOf(rows) == {key} + KeysOf(rows[1..]) by {
        forall i | 1 <= i < |rows| ensures rows[i].0 in KeysOf(rows[1..]) {
          assert rows[1..][i - 1] == rows[i];
        }
        forall k | k in KeysOf(rows[1..]) ensures k in KeysOf(rows) {
          var i :| 0 <= i < |rows[1..]| && rows[1..][i].0 == k;
          assert rows[i + 1].0 == k;
        }
      }
    }
  }

  /** The conditional update of a claim: taken exactly when the row still has the status it was read with. */
  function Claim(table: Table, key: Key, from: NotificationStatus): (Table, bool) {
    if key in table && table[key].status == from
    then (table[key := table[key].(status := PROCESSING, attempts := table[key].attempts + 1)], true)
    else (table, false)
  }

  // -- Several senders after one row ---------------------------------------------

  /** A sender's claim of a row that it read as waiting for its first or next attempt. */
  datatype Attempt = Attempt(sender: nat, key: Key)

  /** The claims that win, when they come to the database in this order. */
  function Winners(table: Table, attempts: seq<Attempt>): seq<Attempt>
    decreases attempts
  {
    if attempts == [] then []
    else
      var (after, won) := Claim(table, attempts[0].key, PENDING);
      (if won then [attempts[0]] else []) + Winners(after, attempts[1..])
  }

  /** Those of one row. */
  function ForRow(attempts: seq<Attempt>, key: Key): seq<Attempt> {
    if attempts == [] then []
    else (if attempts[0].key == key then [attempts[0]] else []) + ForRow(attempts[1..], key)
  }

  lemma {:induction false} ForRowConcat(a: seq<Attempt>, b: seq<Attempt>, key: Key)
    ensures ForRow(a + b, key) == ForRow(a, key) + ForRow(b, key)
  {
    if a == [] {
      assert a + b == b;
    } else {
      assert (a + b)[1..] == a[1..] + b;
      ForRowConcat(a[1..], b, key);
    }
  }

  /** However many senders race for a pending row, and for others besides, it has exactly one winner: the first. */
  lemma {:induction false} OneWinner(table: Table, attempts: seq<Attempt>, key: Key)
    ensures ForRow(Winners(table, attempts), key)
         == if key in table && table[key].status == PENDING && ForRow(attempts, key) != [] then [ForRow(attempts, key)[0]] else []
    decreases attempts
  {
    if attempts != [] {
      var (after, won) := Claim(table, attempts[0].key, PENDING);
      OneWinner(after, attempts[1..], key);
      ForRowConcat(if won then [attempts[0]] else [], Winners(after, attempts[1..]), key);
      assert ForRow([attempts[0]], key) == if attempts[0].key == key then [attempts[0]] else [] by {
        assert [attempts[0]][1..] == [];
      }
    }
  }

  function MarkSent(table: Table, key: Key, providerMessageId: Option<nat>): Table
    requires key in table
  {
    table[key := table[key].(status := SENT, nextAttemptAt := None, providerMessageId := providerMessageId)]
  }

  /** The next channel of a first-available spec, when there is one. */
  function NextChannel(template: Template, channel: Channel): Option<Channel> {
    var spec := SpecByTemplate(template);
    var next := Rank(spec.channels, channel) + 1;
    if spec.mode == FirstAvailable && next < |spec.channels| then Some(spec.channels[next]) else None
  }

  /**
   * A suppression, and the row it may promote: the next channel in the spec
   * gets one of its own, if an adapter serves that channel and no such row exists.
   */
  function Suppress(table: Table, key: Key, adapters: set<Channel>, fallback: Option<nat>, now: int): Table
    requires key in table
  {
    var suppressed := table[key := table[key].(status := SUPPRESSED, nextAttemptAt := None)];
    match NextChannel(table[key].template, key.channel)
    case None => suppressed
    case Some(next) =>
      if next !in adapters then suppressed
      else InsertAll(suppressed, [(key.(channel := next), Queued(table[key].template, fallback, now))])
  }

  /** A suppression settles its own row, may add exactly the promoted one, and leaves the rest alone. */
  lemma SuppressEffect(table: Table, key: Key, adapters: set<Channel>, fallback: Option<nat>, now: int)
    requires key in table
    ensures var after := Suppress(table, key, adapters, fallback, now);
      var next := NextChannel(table[key].template, key.channel);
      && table.Keys <= after.Keys
      && after[key] == table[key].(status := SUPPRESSED, nextAttemptAt := None)
      && (forall k :: k in table && k != key ==> after[k] == table[k])
      && (forall k :: k in after && k !in table ==>
            next.Some? && next.value in adapters && k == key.(channel := next.value)
            && after[k] == Queued(table[key].template, fallback, now))
      && (next.Some? && next.value in adapters ==> key.(channel := next.value) in after)
  {
    var next := NextChannel(table[key].template, key.channel);
    if next.Some? {
      InsertAllAdds(table[key := table[key].(status := SUPPRESSED, nextAttemptAt := None)],
                    [(key.(channel := next.value), Queued(table[key].template, fallback, now))]);
    }
  }

  /** Back to the ladder, or given up for good. */
  function RecordFailure(table: Table, key: Key, retryable: bool, now: int, random: real): Table
    requires key in table
    requires 0.0 <= random < 1.0
  {
    var retryAt := if retryable then NextRetryAt(table[key].attempts, now, random) else None;
    table[key := table[key].(status := if retryAt.None? then FAILED else PENDING, nextAttemptAt := retryAt)]
  }

  datatype Receipt = ReportsDelivery | ReportsFailure | ReportsOther

  predicate Matches(row: Notification, providerMessageId: nat) {
    row.providerMessageId == Some(providerMessageId)
  }

  function AfterReceipt(row: Notification, providerMessageId: nat, receipt: Receipt, now: int): Notification {
    if !Matches(row, providerMessageId) then row
    else match receipt
      case ReportsDelivery => row.(status := DELIVERED)
      case ReportsFailure =>
        if row.status == SENT
        then row.(status := PENDING, nextAttemptAt := Some(now), providerMessageId := None)
        else row
      case ReportsOther => row
  }

  /** A delivery receipt is an update over every row quoting its provider message id. */
  function ApplyReceipt(table: Table, providerMessageId: nat, receipt: Receipt, now: int): Table {
    map k | k in table :: AfterReceipt(table[k], providerMessageId, receipt, now)
  }

  // -- What a batch read returns --------------------------------------------

  datatype Candidate = Candidate(key: Key, status: NotificationStatus)

  /** The read's where clause: due, or claimed so long ago that its worker must have died. */
  predicate IsDueRow(row: Notification, now: int, staleClaimMs: nat) {
    && row.nextAttemptAt.Some?
    && match row.status
       case PENDING => row.nextAttemptAt.value <= now
       case PROCESSING => row.nextAttemptAt.value <= now - staleClaimMs
       case _ => false
  }

  predicate Listed(due: seq<Candidate>, key: Key) {
    exists i :: 0 <= i < |due| && due[i].key == key
  }

  /** `due` is an answer to the read: due rows only, each once, earliest first, as many as the batch allows. */
  ghost predicate IsDueBatch(table: Table, now: int, staleClaimMs: nat, batchSize: nat, due: seq<Candidate>) {
    && |due| <= batchSize
    && (forall i :: 0 <= i < |due| ==>
          && due[i].key in table
          && due[i].status == table[due[i].key].status
          && IsDueRow(table[due[i].key], now, staleClaimMs))
    && (forall i, j :: 0 <= i < j < |due| ==>
          && due[i].key != due[j].key
          && table[due[i].key].nextAttemptAt.value <= table[due[j].key].nextAttemptAt.value)
    && (forall k :: k in table && IsDueRow(table[k], now, staleClaimMs) && !Listed(due, k) ==>
          && |due| == batchSize
          && forall i :: 0 <= i < |due| ==>
               table[due[i].key].nextAttemptAt.value <= table[k].nextAttemptAt.value)
  }
}
