/**
 * What becomes of one notification row, in its own terms: when it is sent, when it
 * is suppressed and what is promoted in its place, what a failure makes of it, what
 * a receipt does, and when it is due.
 */
module DeliveryRules {
  import opened Outcomes
  import opened NotificationRules
  import opened NotificationTable
  import opened NotificationPlan
  import opened NotificationPipeline
  import opened SenderSafety

  /**
   * A row can go out: its channel has an adapter and it has an address; and on
   * WhatsApp a number is connected, and either the customer wrote within the last
   * twenty-four hours or the message has an approved template.
   */
  predicate CanGoOut(channel: Channel, row: Notification, facts: SendFacts, now: int) {
    && channel in facts.adapters && row.destination.Some?
    && (channel == Whatsapp ==>
          && facts.accountConnected
          && ((facts.lastInboundAt.Some? && now - facts.lastInboundAt.value < 86_400_000)
              || facts.templateStatus == Some(Approved)))
  }

  /** The row in hand after its delivery, and whether a failure is still to be recorded. */
  lemma SentOrSuppressed(w: World, facts: SendFacts, reply: Reply, now: int)
    requires w.sender.Delivering? && w.sender.key in w.table
    ensures var key, row, after := w.sender.key, w.table[w.sender.key], AfterDelivery(w, facts, reply, now);
      && key in after.table
      && match reply
         case RolledBack => after.table == w.table && after.sender == Failing(key, true, w.sender.queue)
         case Threw(retryable) =>
           if CanGoOut(key.channel, row, facts, now)
           then after.table == w.table && after.sender == Failing(key, retryable, w.sender.queue)
           else after.table[key] == row.(status := SUPPRESSED, nextAttemptAt := None) && after.sender == Working(w.sender.queue)
         case AcceptedBy(id) =>
           after.sender == Working(w.sender.queue)
           && after.table[key] == if CanGoOut(key.channel, row, facts, now)
                                  then row.(status := SENT, nextAttemptAt := None, providerMessageId := id)
                                  else row.(status := SUPPRESSED, nextAttemptAt := None)
  {
    hide Suppress, FallbackDestination;
    var key, row := w.sender.key, w.table[w.sender.key];
    SuppressEffect(w.table, key, facts.adapters, FallbackDestination(w.directory, key.recipient, row.destination), now);
  }

  /** Where a promoted row is addressed: a customer's phone, or where the first one was. */
  predicate PromotedTo(directory: Directory, recipient: Recipient, was: Option<nat>, destination: Option<nat>) {
    destination == if recipient.CustomerRecipient? && recipient.id in directory.customers
                   then Some(directory.customers[recipient.id].phone) else was
  }

  /**
   * What else a delivery writes. When an update cannot go out on the i-th channel of
   * its spec and the next one has an adapter, that channel gets a row of its own,
   * untried and due now, unless it has one; nothing else in the table is touched.
   */
  lemma PromotedOnly(w: World, facts: SendFacts, reply: Reply, now: int, i: nat, other: Key)
    requires w.sender.Delivering? && w.sender.key in w.table && !reply.RolledBack?
    requires var spec := SpecByTemplate(w.table[w.sender.key].template);
      i < |spec.channels| && spec.channels[i] == w.sender.key.channel
    requires other != w.sender.key
    ensures var key, row, after := w.sender.key, w.table[w.sender.key], AfterDelivery(w, facts, reply, now).table;
      var spec := SpecByTemplate(row.template);
      var promoted := !CanGoOut(key.channel, row, facts, now) && spec.mode == FirstAvailable && i + 1 < |spec.channels|
        && spec.channels[i + 1] in facts.adapters && other == key.(channel := spec.channels[i + 1]);
      && (other in w.table ==> other in after && after[other] == w.table[other])
      && (other !in w.table ==> (other in after <==> promoted))
      && (other !in w.table && promoted ==>
            && after[other].template == row.template && after[other].status == PENDING && after[other].attempts == 0
            && after[other].nextAttemptAt == Some(now) && after[other].providerMessageId == None
            && PromotedTo(w.directory, key.recipient, row.destination, after[other].destination))
  {
    hide SpecByTemplate, Rank, Suppress;
    var key, row := w.sender.key, w.table[w.sender.key];
    RankOfNth(row.template, i);
    SuppressEffect(w.table, key, facts.adapters, FallbackDestination(w.directory, key.recipient, row.destination), now);
  }

  /** A failure is for good when the channel said so or six attempts are spent; otherwise the row waits fifteen seconds to eight minutes. */
  lemma FailedOrRetried(w: World, now: int, random: Random)
    requires w.sender.Failing? && w.sender.key in w.table
    ensures var key, row, after := w.sender.key, w.table[w.sender.key], Apply(w, RecordTheFailure(now, random));
      && after.sender == Working(w.sender.queue) && after.table.Keys == w.table.Keys
      && (forall k :: k in w.table && k != key ==> after.table[k] == w.table[k])
      && (if w.sender.retryable && row.attempts < 6
          then after.table[key] == row.(status := PENDING, nextAttemptAt := after.table[key].nextAttemptAt)
               && after.table[key].nextAttemptAt.Some?
               && now + 15_000 <= after.table[key].nextAttemptAt.value < now + 480_000
          else after.table[key] == row.(status := FAILED, nextAttemptAt := None))
  {
    hide NextRetryAt;
    RetryWindow(w.table[w.sender.key].attempts, now, random);
  }

  /** A receipt reaches the rows that quote it: a delivery settles them, a failure puts those still sent back on the ladder at once. */
  lemma ReceiptReaches(w: World, id: nat, receipt: Receipt, now: int, key: Key)
    requires key in w.table
    ensures var row, after := w.table[key], Apply(w, WebhookReceipt(id, receipt, now));
      && after == w.(table := after.table) && after.table.Keys == w.table.Keys
      && after.table[key] ==
         if row.providerMessageId == Some(id) && receipt == ReportsDelivery then row.(status := DELIVERED)
         else if row.providerMessageId == Some(id) && receipt == ReportsFailure && row.status == SENT
         then row.(status := PENDING, nextAttemptAt := Some(now), providerMessageId := None)
         else row
  {
  }

  /**
   * Which rows a pass may take up: those waiting whose time has come, and those in
   * hand so long that whoever held them must have died. With room in its batch it
   * takes up every one of its tenant's.
   */
  lemma TakenUpIff(w: World, tenant: nat, now: int, due: seq<Candidate>, key: Key)
    requires w.sender.Resting? && Apply(w, ReadDue(tenant, now, due)).sender == Working(due)
    requires key in w.table && |due| < w.config.sendBatch
    ensures Listed(due, key) <==>
      var row := w.table[key];
      && key.event < |w.outbox| && w.outbox[key.event].tenant == tenant && row.nextAttemptAt.Some?
      && ((row.status == PENDING && row.nextAttemptAt.value <= now)
          || (row.status == PROCESSING && row.nextAttemptAt.value <= now - w.config.staleClaimMs))
  {
    var rows := RowsOfTenant(w.outbox, w.table, tenant);
    assert IsDueBatch(rows, now, w.config.staleClaimMs, w.config.sendBatch, due);
    if Listed(due, key) {
      var i :| 0 <= i < |due| && due[i].key == key;
      assert IsDueRow(rows[due[i].key], now, w.config.staleClaimMs);
    }
  }
}
