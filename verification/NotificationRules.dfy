/**
 * The rules of the notification pipeline: what each event tells whom, how a
 * WhatsApp message may be sent, and when a failed attempt is tried again.
 * Times are milliseconds.
 */
module NotificationRules {
  import opened Outcomes
  import opened OrderStates

  datatype Channel = Whatsapp | Sms | Email | Push | Dashboard

  datatype DeliveryMode = FirstAvailable | AllChannels

  /** The message keys a notification row can carry. */
  datatype Template =
    | OrderConfirmed
    | OrderAccepted
    | OrderReady
    | OrderOutForDelivery
    | OrderDelivered
    | OrderCompleted
    | OrderCancelled
    | OrderRejected
    | OrderUnacknowledged
    | ConversationUnanswered

  datatype Spec = Spec(
    template: Template,
    channels: seq<Channel>,
    mode: DeliveryMode,
    notifyCustomer: bool,
    notifyStaff: bool)

  const HANDOFF_NOTIFICATION :=
    Spec(ConversationUnanswered, [Dashboard, Whatsapp, Sms], AllChannels, false, true)

  const ESCALATION_NOTIFICATION :=
    Spec(OrderUnacknowledged, [Dashboard, Whatsapp, Sms], AllChannels, false, true)

  function NotificationForOrderStatus(status: OrderStatus): Option<Spec> {
    match status
    case Confirmed => Some(Spec(OrderConfirmed, [Whatsapp, Sms], FirstAvailable, true, true))
    case Accepted => Some(Spec(OrderAccepted, [Whatsapp], FirstAvailable, true, false))
    case Ready => Some(Spec(OrderReady, [Whatsapp], FirstAvailable, true, false))
    case OutForDelivery => Some(Spec(OrderOutForDelivery, [Whatsapp], FirstAvailable, true, false))
    case Delivered => Some(Spec(OrderDelivered, [Whatsapp], FirstAvailable, true, false))
    case Completed => Some(Spec(OrderCompleted, [Whatsapp], FirstAvailable, true, false))
    case Cancelled => Some(Spec(OrderCancelled, [Whatsapp, Sms], FirstAvailable, true, true))
    case Rejected => Some(Spec(OrderRejected, [Whatsapp, Sms], FirstAvailable, true, true))
    case _ => None
  }

  /** The spec a stored row was created from, found again by its message key. */
  function SpecByTemplate(template: Template): (spec: Spec)
    ensures spec.template == template
  {
    match template
    case OrderUnacknowledged => ESCALATION_NOTIFICATION
    case ConversationUnanswered => HANDOFF_NOTIFICATION
    case OrderConfirmed => NotificationForOrderStatus(Confirmed).value
    case OrderAccepted => NotificationForOrderStatus(Accepted).value
    case OrderReady => NotificationForOrderStatus(Ready).value
    case OrderOutForDelivery => NotificationForOrderStatus(OutForDelivery).value
    case OrderDelivered => NotificationForOrderStatus(Delivered).value
    case OrderCompleted => NotificationForOrderStatus(Completed).value
    case OrderCancelled => NotificationForOrderStatus(Cancelled).value
    case OrderRejected => NotificationForOrderStatus(Rejected).value
  }

  predicate TellTheSame(a: OrderStatus, b: OrderStatus) {
    var first, second := NotificationForOrderStatus(a), NotificationForOrderStatus(b);
    first.Some? && second.Some? && first.value.template == second.value.template
  }

  /**
   * Who is told of an order's progress, and how: the customer of every step they can
   * act on and of no kitchen detail; the staff too when an order arrives or is called
   * off, and then with SMS to fall back on. By one channel, WhatsApp first.
   */
  lemma WhoIsTold(status: OrderStatus)
    ensures var spec := NotificationForOrderStatus(status);
      && (spec.Some? <==> status in {Confirmed, Accepted, Ready, OutForDelivery, Delivered, Completed, Cancelled, Rejected})
      && (spec.Some? ==>
            && spec.value.notifyCustomer && spec.value.mode == FirstAvailable
            && (spec.value.notifyStaff <==> status in {Confirmed, Cancelled, Rejected})
            && spec.value.channels == if spec.value.notifyStaff then [Whatsapp, Sms] else [Whatsapp])
    ensures forall other :: TellTheSame(status, other) ==> other == status
  {
  }

  /** An alarm goes to staff only, by the dashboard, WhatsApp and SMS at once. */
  lemma AlarmsGoEverywhere()
    ensures forall spec :: spec == HANDOFF_NOTIFICATION || spec == ESCALATION_NOTIFICATION ==>
      && spec.notifyStaff && !spec.notifyCustomer && spec.mode == AllChannels && spec.channels == [Dashboard, Whatsapp, Sms]
    ensures HANDOFF_NOTIFICATION.template != ESCALATION_NOTIFICATION.template
  {
  }

  /** A row's key leads back to the very spec it was planned from, so a promotion continues the same list. */
  lemma SpecSurvivesStorage(status: OrderStatus)
    ensures var spec := NotificationForOrderStatus(status);
            spec.Some? ==> SpecByTemplate(spec.value.template) == spec.value
    ensures SpecByTemplate(HANDOFF_NOTIFICATION.template) == HANDOFF_NOTIFICATION
    ensures SpecByTemplate(ESCALATION_NOTIFICATION.template) == ESCALATION_NOTIFICATION
  {
  }

  /** Where a channel stands in a spec's order of preference; the list's length when it is not there. */
  function Rank(channels: seq<Channel>, channel: Channel): (i: nat)
    ensures i <= |channels|
    ensures i < |channels| ==> channels[i] == channel
    ensures i == |channels| <==> channel !in channels
  {
    if channels == [] then 0
    else if channels[0] == channel then 0
    else 1 + Rank(channels[1..], channel)
  }

  /** No spec lists a channel twice, so a channel's rank names it. */
  lemma RankOfNth(template: Template, i: nat)
    requires i < |SpecByTemplate(template).channels|
    ensures var channels := SpecByTemplate(template).channels;
            Rank(channels, channels[i]) == i
  {
  }

  // -- How a WhatsApp message may be sent -----------------------------------

  const SERVICE_WINDOW_MS := 24 * 60 * 60 * 1000

  datatype Category = Utility | Authentication | Marketing
  datatype TemplateStatus = Approved | NotApproved
  datatype SendMode = Session | ByTemplate

  datatype SendModeInput = SendModeInput(
    now: int,
    lastInboundAt: Option<int>,
    category: Category,
    templateStatus: Option<TemplateStatus>,
    marketingConsentGranted: bool)

  predicate IsServiceWindowOpen(lastInboundAt: Option<int>, now: int) {
    lastInboundAt.Some? && now - lastInboundAt.value < SERVICE_WINDOW_MS
  }

  /** The mode a message may go out in; `None` is a suppression. */
  function ResolveSendMode(input: SendModeInput): Option<SendMode> {
    if input.category == Marketing && !input.marketingConsentGranted then None
    else if IsServiceWindowOpen(input.lastInboundAt, input.now) then Some(Session)
    else if input.templateStatus == Some(Approved) then Some(ByTemplate)
    else None
  }

  // -- Retry ---------------------------------------------------------------

  const MAX_ATTEMPTS: nat := 6
  const BASE_BACKOFF_MS: nat := 30_000
  const MAX_BACKOFF_MS: nat := 60 * 60 * 1000

  function Pow2(n: nat): (p: nat)
    ensures p >= 1
  {
    if n == 0 then 1 else 2 * Pow2(n - 1)
  }

  /** The backoff window after `attempts` attempts, before jitter. */
  function BackoffWindow(attempts: nat): nat {
    var exponential := BASE_BACKOFF_MS * Pow2(if attempts >= 1 then attempts - 1 else 0);
    if exponential <= MAX_BACKOFF_MS then exponential else MAX_BACKOFF_MS
  }

  /** `random` is the source's Math.random(): at least 0, below 1. */
  function NextRetryAt(attempts: nat, now: int, random: real): (at: Option<int>)
    requires 0.0 <= random < 1.0
  {
    if attempts >= MAX_ATTEMPTS then None
    else Some(now + (BackoffWindow(attempts) as real * (0.5 + random * 0.5)).Floor)
  }

  /**
   * A retry is refused exactly when the budget is spent, and is otherwise due
   * 15 seconds to 8 minutes later: at least half of the window and short of
   * its end. With six attempts the window never reaches the one-hour cap.
   */
  lemma RetryWindow(attempts: nat, now: int, random: real)
    requires 0.0 <= random < 1.0
    ensures NextRetryAt(attempts, now, random).None? <==> attempts >= 6
    ensures attempts < 6 ==>
              var delay := NextRetryAt(attempts, now, random).value - now;
              && 15_000 <= delay < 480_000
              && BackoffWindow(attempts) <= 2 * delay + 1
              && delay < BackoffWindow(attempts) < MAX_BACKOFF_MS
  {
    if attempts < 6 {
      WindowValues(attempts);
      var window := BackoffWindow(attempts) as real;
      var scaled := window * (0.5 + random * 0.5);
      assert window * 0.5 <= scaled < window by {
        assert 0.5 <= 0.5 + random * 0.5 < 1.0;
      }
    }
  }

  lemma WindowValues(attempts: nat)
    requires attempts < 6
    ensures BackoffWindow(attempts) == [30_000, 30_000, 60_000, 120_000, 240_000, 480_000][attempts]
  {
    assert Pow2(0) == 1 && Pow2(1) == 2 && Pow2(2) == 4 && Pow2(3) == 8;
    assert Pow2(4) == 2 * Pow2(3);
  }
}
