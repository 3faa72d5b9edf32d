/** Which rows an event implies: the dispatcher's reading of the tenant's data at one moment. */
module NotificationPlan {
  import opened Outcomes
  import opened OrderStates
  import opened NotificationRules
  import opened NotificationTable

  /** An outbox payload, reduced to the fields read from it; `None` is a missing or malformed field. */
  datatype Payload =
    | StatusChanged(order: Option<nat>, toStatus: Option<OrderStatus>)
    | AcknowledgementTimeout(order: Option<nat>)
    | HandoffUnanswered(conversation: Option<nat>)
    | OtherEvent

  datatype Event = Event(tenant: nat, payload: Payload)

  datatype OrderFacts = OrderFacts(branch: nat, customer: Option<nat>)
  datatype CustomerFacts = CustomerFacts(phone: nat, whatsappNumber: Option<nat>)
  datatype ConversationFacts = ConversationFacts(branch: Option<nat>, waiting: bool)
  datatype UserFacts = UserFacts(phone: Option<nat>, active: bool)
  /** An empty `branches` is an organization-wide role. */
  datatype Membership = Membership(tenant: nat, user: nat, active: bool, viewsOrders: bool, branches: seq<nat>)

  datatype Audience = ToCustomer | ToStaff
  datatype Preference = Preference(tenant: nat, audience: Audience, channel: Channel)

  /** Everything the dispatcher looks up. */
  datatype Directory = Directory(
    preferences: map<Preference, bool>,
    orders: map<nat, OrderFacts>,
    customers: map<nat, CustomerFacts>,
    conversations: map<nat, ConversationFacts>,
    users: map<nat, UserFacts>,
    memberships: seq<Membership>)

  /** The notification an event calls for; most call for none. */
  function SpecFor(event: Event): Option<Spec> {
    match event.payload
    case AcknowledgementTimeout(_) => Some(ESCALATION_NOTIFICATION)
    case HandoffUnanswered(_) => Some(HANDOFF_NOTIFICATION)
    case StatusChanged(_, Some(status)) => NotificationForOrderStatus(status)
    case _ => None
  }

  /** A preference nobody set means the channel is on. */
  predicate Enabled(directory: Directory, tenant: nat, audience: Audience, channel: Channel) {
    var preference := Preference(tenant, audience, channel);
    preference in directory.preferences ==> directory.preferences[preference]
  }

  function PhoneOf(directory: Directory, user: nat): Option<nat> {
    if user in directory.users then directory.users[user].phone else None
  }

  /** Whether a channel may be used for this recipient. */
  predicate Usable(directory: Directory, tenant: nat, recipient: Recipient, channel: Channel) {
    match recipient
    case CustomerRecipient(_) => Enabled(directory, tenant, ToCustomer, channel)
    case StaffRecipient(user) =>
      && Enabled(directory, tenant, ToStaff, channel)
      && (channel == Dashboard || PhoneOf(directory, user).Some?)
  }

  function UsableAmong(channels: seq<Channel>, directory: Directory, tenant: nat, recipient: Recipient): (usable: seq<Channel>)
    ensures forall c :: c in usable ==> c in channels && Usable(directory, tenant, recipient, c)
  {
    if channels == [] then []
    else
      (if Usable(directory, tenant, recipient, channels[0]) then [channels[0]] else [])
      + UsableAmong(channels[1..], directory, tenant, recipient)
  }

  /** All usable channels for an alarm; only the first for an update. */
  function ChannelsFor(spec: Spec, directory: Directory, tenant: nat, recipient: Recipient): seq<Channel> {
    var candidates := UsableAmong(spec.channels, directory, tenant, recipient);
    if |candidates| == 0 then []
    else if spec.mode == AllChannels then candidates
    else [candidates[0]]
  }

  /** A WhatsApp message prefers the WhatsApp number; a dashboard alert is addressed by user id. */
  function DestinationFor(directory: Directory, recipient: Recipient, channel: Channel): Option<nat> {
    match recipient
    case CustomerRecipient(id) =>
      if id !in directory.customers then None
      else
        var customer := directory.customers[id];
        Some(if channel == Whatsapp && customer.whatsappNumber.Some? then customer.whatsappNumber.value else customer.phone)
    case StaffRecipient(user) =>
      if channel == Dashboard then Some(user) else PhoneOf(directory, user)
  }

  function RowsOn(channels: seq<Channel>, directory: Directory, event: nat, recipient: Recipient, spec: Spec, now: int)
    : seq<(Key, Notification)>
  {
    seq(|channels|, i requires 0 <= i < |channels| =>
          (Key(event, recipient, channels[i]),
           Queued(spec.template, DestinationFor(directory, recipient, channels[i]), now)))
  }

  function RowsFor(recipient: Recipient, directory: Directory, tenant: nat, event: nat, spec: Spec, now: int)
    : seq<(Key, Notification)>
  {
    RowsOn(ChannelsFor(spec, directory, tenant, recipient), directory, event, recipient, spec, now)
  }

  /** An active membership of an active user that may view orders, at this branch or at all of them. */
  predicate HearsAbout(membership: Membership, directory: Directory, tenant: nat, branch: nat) {
    && membership.tenant == tenant
    && membership.active
    && membership.user in directory.users && directory.users[membership.user].active
    && membership.viewsOrders
    && (|membership.branches| > 0 ==> branch in membership.branches)
  }

  function StaffAmong(memberships: seq<Membership>, directory: Directory, tenant: nat, branch: nat): seq<nat> {
    if memberships == [] then []
    else
      (if HearsAbout(memberships[0], directory, tenant, branch) then [memberships[0].user] else [])
      + StaffAmong(memberships[1..], directory, tenant, branch)
  }

  function StaffFor(directory: Directory, tenant: nat, branch: nat): seq<nat> {
    StaffAmong(directory.memberships, directory, tenant, branch)
  }

  function StaffRows(staff: seq<nat>, directory: Directory, tenant: nat, event: nat, spec: Spec, now: int)
    : seq<(Key, Notification)>
  {
    if staff == [] then []
    else
      RowsFor(StaffRecipient(staff[0]), directory, tenant, event, spec, now)
      + StaffRows(staff[1..], directory, tenant, event, spec, now)
  }

  function OrderRows(directory: Directory, event: nat, tenant: nat, spec: Spec, order: OrderFacts, now: int)
    : seq<(Key, Notification)>
  {
    (if spec.notifyCustomer && order.customer.Some? && order.customer.value in directory.customers
     then RowsFor(CustomerRecipient(order.customer.value), directory, tenant, event, spec, now)
     else [])
    + (if spec.notifyStaff
       then StaffRows(StaffFor(directory, tenant, order.branch), directory, tenant, event, spec, now)
       else [])
  }

  /** A conversation answered in the meantime, or one without a branch, tells nobody. */
  function HandoffRows(directory: Directory, event: nat, tenant: nat, spec: Spec, conversation: Option<nat>, now: int)
    : seq<(Key, Notification)>
  {
    if conversation.None? || conversation.value !in directory.conversations then []
    else
      var facts := directory.conversations[conversation.value];
      if !facts.waiting || facts.branch.None? then []
      else StaffRows(StaffFor(directory, tenant, facts.branch.value), directory, tenant, event, spec, now)
  }

  /** Every row one event implies now; an absent order or customer implies none. */
  function Plan(directory: Directory, event: nat, body: Event, now: int): seq<(Key, Notification)> {
    match SpecFor(body)
    case None => []
    case Some(spec) =>
      match body.payload
      case HandoffUnanswered(conversation) =>
        HandoffRows(directory, event, body.tenant, spec, conversation, now)
      case StatusChanged(Some(order), _) =>
        if order !in directory.orders then []
        else OrderRows(directory, event, body.tenant, spec, directory.orders[order], now)
      case AcknowledgementTimeout(Some(order)) =>
        if order !in directory.orders then []
        else OrderRows(directory, event, body.tenant, spec, directory.orders[order], now)
      case _ => []
  }

  // -- What is planned, exactly -------------------------------------------------

  /** Whether an order's event is for this recipient: its own customer, or somebody on its branch's staff. */
  predicate AddressedByOrder(directory: Directory, tenant: nat, spec: Spec, order: nat, recipient: Recipient) {
    order in directory.orders
    && match recipient
       case CustomerRecipient(id) =>
         spec.notifyCustomer && directory.orders[order].customer == Some(id) && id in directory.customers
       case StaffRecipient(user) => spec.notifyStaff && user in StaffFor(directory, tenant, directory.orders[order].branch)
  }

  predicate AddressedByConversation(directory: Directory, tenant: nat, conversation: nat, recipient: Recipient) {
    && conversation in directory.conversations
    && var facts := directory.conversations[conversation];
       facts.waiting && facts.branch.Some?
       && recipient.StaffRecipient? && recipient.id in StaffFor(directory, tenant, facts.branch.value)
  }

  predicate Addressed(directory: Directory, body: Event, recipient: Recipient)
    requires SpecFor(body).Some?
  {
    match body.payload
    case HandoffUnanswered(Some(conversation)) => AddressedByConversation(directory, body.tenant, conversation, recipient)
    case StatusChanged(Some(order), _) => AddressedByOrder(directory, body.tenant, SpecFor(body).value, order, recipient)
    case AcknowledgementTimeout(Some(order)) => AddressedByOrder(directory, body.tenant, SpecFor(body).value, order, recipient)
    case _ => false
  }

  /** A row of this event for somebody it concerns, on a channel chosen for them, with their address there, untried and due now. */
  predicate WellPlanned(planned: (Key, Notification), directory: Directory, event: nat, body: Event, now: int) {
    && planned.0.event == event
    && SpecFor(body).Some?
    && Addressed(directory, body, planned.0.recipient)
    && planned.0.channel in ChannelsFor(SpecFor(body).value, directory, body.tenant, planned.0.recipient)
    && planned.1 == Queued(SpecFor(body).value.template, DestinationFor(directory, planned.0.recipient, planned.0.channel), now)
  }

  lemma RowsForIff(recipient: Recipient, directory: Directory, tenant: nat, event: nat, spec: Spec, now: int, row: (Key, Notification))
    ensures row in RowsFor(recipient, directory, tenant, event, spec, now) <==>
      && row.0.event == event && row.0.recipient == recipient
      && row.0.channel in ChannelsFor(spec, directory, tenant, recipient)
      && row.1 == Queued(spec.template, DestinationFor(directory, recipient, row.0.channel), now)
  {
    hide ChannelsFor, DestinationFor, Queued;
    var channels := ChannelsFor(spec, directory, tenant, recipient);
    var rows := RowsFor(recipient, directory, tenant, event, spec, now);
    if row.0.event == event && row.0.recipient == recipient && row.0.channel in channels
       && row.1 == Queued(spec.template, DestinationFor(directory, recipient, row.0.channel), now) {
      var i :| 0 <= i < |channels| && channels[i] == row.0.channel;
      assert rows[i] == row;
    }
  }

  lemma {:induction false} StaffRowsIff(staff: seq<nat>, directory: Directory, tenant: nat, event: nat, spec: Spec, now: int, row: (Key, Notification))
    ensures row in StaffRows(staff, directory, tenant, event, spec, now) <==>
      && row.0.recipient.StaffRecipient? && row.0.recipient.id in staff
      && row in RowsFor(row.0.recipient, directory, tenant, event, spec, now)
  {
    hide RowsFor;
    if staff != [] {
      StaffRowsIff(staff[1..], directory, tenant, event, spec, now, row);
      RowsForIff(StaffRecipient(staff[0]), directory, tenant, event, spec, now, row);
      assert staff == [staff[0]] + staff[1..];
    }
  }

  /** The plan of an event is exactly the rows that are well planned: nobody else is told, and nobody is left out. */
  lemma PlannedIff(directory: Directory, event: nat, body: Event, now: int, row: (Key, Notification))
    ensures row in Plan(directory, event, body, now) <==> WellPlanned(row, directory, event, body, now)
  {
    hide RowsFor, StaffRows, ChannelsFor, DestinationFor, StaffFor, Queued;
    if SpecFor(body).Some? {
      var spec := SpecFor(body).value;
      RowsForIff(row.0.recipient, directory, body.tenant, event, spec, now, row);
      forall staff: seq<nat>
        ensures row in StaffRows(staff, directory, body.tenant, event, spec, now) <==>
          && row.0.recipient.StaffRecipient? && row.0.recipient.id in staff
          && row in RowsFor(row.0.recipient, directory, body.tenant, event, spec, now)
      {
        StaffRowsIff(staff, directory, body.tenant, event, spec, now, row);
      }
      forall customer: Recipient
        ensures row in RowsFor(customer, directory, body.tenant, event, spec, now) ==> row.0.recipient == customer
      {
        RowsForIff(customer, directory, body.tenant, event, spec, now, row);
      }
    }
  }

  lemma PlanIsWellPlanned(directory: Directory, event: nat, body: Event, now: int)
    ensures forall row :: row in Plan(directory, event, body, now) <==> WellPlanned(row, directory, event, body, now)
  {
    forall row
      ensures row in Plan(directory, event, body, now) <==> WellPlanned(row, directory, event, body, now)
    {
      PlannedIff(directory, event, body, now, row);
    }
  }

  // -- In the directory's own terms ----------------------------------------------------

  /** An active member of the tenant that may see orders, here or everywhere. */
  predicate OnStaff(directory: Directory, tenant: nat, branch: nat, user: nat) {
    exists i :: 0 <= i < |directory.memberships| && SeesOrders(directory.memberships[i], directory, tenant, branch, user)
  }

  predicate SeesOrders(m: Membership, directory: Directory, tenant: nat, branch: nat, user: nat) {
    && m.user == user && m.tenant == tenant && m.active && m.viewsOrders
    && user in directory.users && directory.users[user].active
    && (m.branches == [] || branch in m.branches)
  }

  lemma {:induction false} StaffAmongIff(memberships: seq<Membership>, directory: Directory, tenant: nat, branch: nat, user: nat)
    ensures user in StaffAmong(memberships, directory, tenant, branch) <==>
      exists i :: 0 <= i < |memberships| && SeesOrders(memberships[i], directory, tenant, branch, user)
  {
    if memberships != [] {
      var rest := memberships[1..];
      StaffAmongIff(rest, directory, tenant, branch, user);
      if i :| 0 <= i < |memberships| && SeesOrders(memberships[i], directory, tenant, branch, user) {
        assert i > 0 ==> rest[i - 1] == memberships[i];
      }
      if i :| 0 <= i < |rest| && SeesOrders(rest[i], directory, tenant, branch, user) {
        assert memberships[i + 1] == rest[i];
      }
    }
  }

  /** The staff told of a branch's orders are exactly its members who see them, organization-wide ones included. */
  lemma StaffIff(directory: Directory, tenant: nat, branch: nat, user: nat)
    ensures user in StaffFor(directory, tenant, branch) <==> OnStaff(directory, tenant, branch, user)
  {
    StaffAmongIff(directory.memberships, directory, tenant, branch, user);
  }

  /** The tenant has not switched this channel off for these recipients, and the recipient can be addressed on it. */
  predicate Reaches(directory: Directory, tenant: nat, recipient: Recipient, channel: Channel) {
    match recipient
    case CustomerRecipient(_) =>
      var preference := Preference(tenant, ToCustomer, channel);
      preference !in directory.preferences || directory.preferences[preference]
    case StaffRecipient(user) =>
      var preference := Preference(tenant, ToStaff, channel);
      && (preference !in directory.preferences || directory.preferences[preference])
      && (channel == Dashboard || (user in directory.users && directory.users[user].phone.Some?))
  }

  /** An alarm's channels that reach the recipient; an update's first that does. */
  predicate ChosenOn(spec: Spec, directory: Directory, tenant: nat, recipient: Recipient, channel: Channel) {
    exists i :: 0 <= i < |spec.channels| && spec.channels[i] == channel && ChosenAt(spec, directory, tenant, recipient, i)
  }

  predicate ChosenAt(spec: Spec, directory: Directory, tenant: nat, recipient: Recipient, i: nat)
    requires i < |spec.channels|
  {
    && Reaches(directory, tenant, recipient, spec.channels[i])
    && (spec.mode == FirstAvailable ==> forall j :: 0 <= j < i ==> !Reaches(directory, tenant, recipient, spec.channels[j]))
  }

  predicate FirstReaching(channels: seq<Channel>, directory: Directory, tenant: nat, recipient: Recipient, i: nat) {
    && i < |channels| && Reaches(directory, tenant, recipient, channels[i])
    && forall j :: 0 <= j < i ==> !Reaches(directory, tenant, recipient, channels[j])
  }

  lemma {:induction false} UsableIff(channels: seq<Channel>, directory: Directory, tenant: nat, recipient: Recipient)
    ensures var usable := UsableAmong(channels, directory, tenant, recipient);
      && (forall c :: c in usable <==> c in channels && Reaches(directory, tenant, recipient, c))
      && (usable != [] ==> exists i: nat :: FirstReaching(channels, directory, tenant, recipient, i) && channels[i] == usable[0])
  {
    if channels != [] {
      var rest := channels[1..];
      UsableIff(rest, directory, tenant, recipient);
      assert Usable(directory, tenant, recipient, channels[0]) == Reaches(directory, tenant, recipient, channels[0]);
      assert channels == [channels[0]] + rest;
      var usable := UsableAmong(channels, directory, tenant, recipient);
      hide Reaches, Usable;
      if usable != [] {
        if Reaches(directory, tenant, recipient, channels[0]) {
          assert FirstReaching(channels, directory, tenant, recipient, 0) && usable[0] == channels[0];
        } else {
          var i: nat :| FirstReaching(rest, directory, tenant, recipient, i) && rest[i] == usable[0];
          assert channels[i + 1] == rest[i];
          assert FirstReaching(channels, directory, tenant, recipient, i + 1);
        }
      }
    }
  }

  lemma ChosenIff(spec: Spec, directory: Directory, tenant: nat, recipient: Recipient, channel: Channel)
    ensures channel in ChannelsFor(spec, directory, tenant, recipient) <==> ChosenOn(spec, directory, tenant, recipient, channel)
  {
    hide Reaches, UsableAmong;
    var usable := UsableAmong(spec.channels, directory, tenant, recipient);
    UsableIff(spec.channels, directory, tenant, recipient);
    if usable != [] && spec.mode == FirstAvailable {
      var first: nat :| FirstReaching(spec.channels, directory, tenant, recipient, first) && spec.channels[first] == usable[0];
      assert ChosenAt(spec, directory, tenant, recipient, first);
      assert forall i :: 0 <= i < |spec.channels| && ChosenAt(spec, directory, tenant, recipient, i) ==> i == first;
    }
    if channel in usable && spec.mode == AllChannels {
      var i :| 0 <= i < |spec.channels| && spec.channels[i] == channel;
      assert ChosenAt(spec, directory, tenant, recipient, i);
    }
  }

  /** Where a recipient is written to: a customer's WhatsApp number on WhatsApp and phone otherwise, staff by user on the dashboard and phone elsewhere. */
  predicate WrittenAt(directory: Directory, recipient: Recipient, channel: Channel, destination: Option<nat>) {
    match recipient
    case CustomerRecipient(id) =>
      && id in directory.customers
      && destination == if channel == Whatsapp && directory.customers[id].whatsappNumber.Some?
                        then directory.customers[id].whatsappNumber else Some(directory.customers[id].phone)
    case StaffRecipient(user) =>
      destination == if channel == Dashboard then Some(user)
                     else if user in directory.users then directory.users[user].phone else None
  }

  /** Whom an order's event concerns. */
  predicate ConcernsOf(directory: Directory, tenant: nat, spec: Spec, order: nat, recipient: Recipient) {
    order in directory.orders
    && match recipient
       case CustomerRecipient(id) => spec.notifyCustomer && directory.orders[order].customer == Some(id) && id in directory.customers
       case StaffRecipient(user) => spec.notifyStaff && OnStaff(directory, tenant, directory.orders[order].branch, user)
  }

  /** Whom an event concerns: an order's, as its notification says; a handoff's, the staff while somebody still waits. */
  predicate Concerns(directory: Directory, body: Event, spec: Spec, recipient: Recipient) {
    match body.payload
    case HandoffUnanswered(Some(c)) =>
      && c in directory.conversations && directory.conversations[c].waiting && directory.conversations[c].branch.Some?
      && recipient.StaffRecipient? && OnStaff(directory, body.tenant, directory.conversations[c].branch.value, recipient.id)
    case StatusChanged(Some(order), _) => ConcernsOf(directory, body.tenant, spec, order, recipient)
    case AcknowledgementTimeout(Some(order)) => ConcernsOf(directory, body.tenant, spec, order, recipient)
    case _ => false
  }

  /** What an event calls for: an alarm for one unanswered, and for a status change what that status tells. */
  predicate CallsFor(body: Event, spec: Spec) {
    match body.payload
    case AcknowledgementTimeout(_) => spec == ESCALATION_NOTIFICATION
    case HandoffUnanswered(_) => spec == HANDOFF_NOTIFICATION
    case StatusChanged(_, Some(status)) => NotificationForOrderStatus(status) == Some(spec)
    case _ => false
  }

  lemma ConcernsIff(directory: Directory, body: Event, recipient: Recipient)
    requires SpecFor(body).Some?
    ensures Addressed(directory, body, recipient) <==> Concerns(directory, body, SpecFor(body).value, recipient)
  {
    hide SpecFor, StaffFor, OnStaff;
    forall branch: nat, user: nat {:trigger OnStaff(directory, body.tenant, branch, user)}
      ensures user in StaffFor(directory, body.tenant, branch) <==> OnStaff(directory, body.tenant, branch, user)
    {
      StaffIff(directory, body.tenant, branch, user);
    }
    forall branch: nat, user: nat {:trigger user in StaffFor(directory, body.tenant, branch)}
      ensures user in StaffFor(directory, body.tenant, branch) <==> OnStaff(directory, body.tenant, branch, user)
    {
      StaffIff(directory, body.tenant, branch, user);
    }
  }

  /**
   * The rows an event implies, in the directory's own terms: one for each person it
   * concerns on each channel chosen for them, with their address there, untried and
   * due now; and no others.
   */
  lemma PlannedExactly(directory: Directory, event: nat, body: Event, now: int, key: Key, row: Notification)
    ensures (key, row) in Plan(directory, event, body, now) <==>
      && key.event == event
      && row.status == PENDING && row.attempts == 0 && row.nextAttemptAt == Some(now) && row.providerMessageId == None
      && exists spec :: (
           && CallsFor(body, spec) && row.template == spec.template
           && Concerns(directory, body, spec, key.recipient)
           && ChosenOn(spec, directory, body.tenant, key.recipient, key.channel)
           && WrittenAt(directory, key.recipient, key.channel, row.destination))
  {
    PlannedIff(directory, event, body, now, (key, row));
    assert forall spec :: CallsFor(body, spec) <==> SpecFor(body) == Some(spec);
    hide Plan, CallsFor, SpecFor, Concerns, Addressed, ChannelsFor, ChosenOn;
    if SpecFor(body).Some? {
      var spec := SpecFor(body).value;
      ConcernsIff(directory, body, key.recipient);
      ChosenIff(spec, directory, body.tenant, key.recipient, key.channel);
      if Concerns(directory, body, spec, key.recipient) {
        ConcernedAreKnown(directory, body, spec, key.recipient);
        assert WrittenAt(directory, key.recipient, key.channel, row.destination) <==>
          row.destination == DestinationFor(directory, key.recipient, key.channel);
      }
    }
  }

  lemma ConcernedAreKnown(directory: Directory, body: Event, spec: Spec, recipient: Recipient)
    requires Concerns(directory, body, spec, recipient)
    ensures recipient.CustomerRecipient? ==> recipient.id in directory.customers
  {
  }

  // -- Planning again --------------------------------------------------------------

  /** Somebody on the staff afterwards was before, and has a phone if they had one. */
  ghost predicate StaffOnlyLeave(before: Directory, after: Directory, tenant: nat) {
    forall branch: nat, user: nat {:trigger user in StaffFor(after, tenant, branch)} :: user in StaffFor(after, tenant, branch) ==>
      user in StaffFor(before, tenant, branch) && PhoneOf(after, user).Some? == PhoneOf(before, user).Some?
  }

  ghost predicate KeepsPreferences(before: Directory, after: Directory, tenant: nat) {
    forall audience, channel :: Enabled(after, tenant, audience, channel) == Enabled(before, tenant, audience, channel)
  }

  /**
   * What an event's plan was made from stands, or has gone. Anything it does not
   * concern may come, go and change: other orders, other customers, phone numbers,
   * other tenants.
   */
  ghost predicate StillCovers(before: Directory, after: Directory, body: Event) {
    && KeepsPreferences(before, after, body.tenant)
    && StaffOnlyLeave(before, after, body.tenant)
    && match body.payload
       case HandoffUnanswered(Some(c)) =>
         c in after.conversations && after.conversations[c].waiting ==>
           c in before.conversations && before.conversations[c] == after.conversations[c]
       case StatusChanged(Some(o), _) => OrderStands(before, after, o)
       case AcknowledgementTimeout(Some(o)) => OrderStands(before, after, o)
       case _ => true
  }

  predicate OrderStands(before: Directory, after: Directory, order: nat) {
    order in after.orders ==>
      && order in before.orders && before.orders[order] == after.orders[order]
      && (after.orders[order].customer.Some? && after.orders[order].customer.value in after.customers ==>
            after.orders[order].customer.value in before.customers)
  }

  lemma {:induction false} SameUsable(channels: seq<Channel>, before: Directory, after: Directory, tenant: nat, recipient: Recipient)
    requires KeepsPreferences(before, after, tenant)
    requires recipient.StaffRecipient? ==> PhoneOf(after, recipient.id).Some? == PhoneOf(before, recipient.id).Some?
    ensures UsableAmong(channels, after, tenant, recipient) == UsableAmong(channels, before, tenant, recipient)
  {
    hide Enabled, PhoneOf;
    if channels != [] {
      SameUsable(channels[1..], before, after, tenant, recipient);
    }
  }

  lemma StillAddressed(before: Directory, after: Directory, body: Event, recipient: Recipient)
    requires StillCovers(before, after, body) && SpecFor(body).Some? && Addressed(after, body, recipient)
    ensures Addressed(before, body, recipient)
    ensures recipient.StaffRecipient? ==> PhoneOf(after, recipient.id).Some? == PhoneOf(before, recipient.id).Some?
  {
    hide SpecFor, StaffFor, PhoneOf, KeepsPreferences;
    match body.payload
    case HandoffUnanswered(Some(c)) => assert AddressedByConversation(before, body.tenant, c, recipient);
    case StatusChanged(Some(o), _) => assert AddressedByOrder(before, body.tenant, SpecFor(body).value, o, recipient);
    case AcknowledgementTimeout(Some(o)) => assert AddressedByOrder(before, body.tenant, SpecFor(body).value, o, recipient);
    case _ =>
  }

  /** Planned again later, an event names no row it did not name before. */
  lemma PlanLosesOnly(before: Directory, after: Directory, event: nat, body: Event, now: int, later: int)
    requires StillCovers(before, after, body)
    ensures KeysOf(Plan(after, event, body, later)) <= KeysOf(Plan(before, event, body, now))
  {
    hide Plan, StillCovers, Addressed, UsableAmong, SpecFor;
    PlanIsWellPlanned(after, event, body, later);
    PlanIsWellPlanned(before, event, body, now);
    var was, again := Plan(before, event, body, now), Plan(after, event, body, later);
    forall k | k in KeysOf(again) ensures k in KeysOf(was) {
      var i :| 0 <= i < |again| && again[i].0 == k;
      assert again[i] in again;
      StillAddressed(before, after, body, k.recipient);
      CoversKeeps(before, after, body);
      SameUsable(SpecFor(body).value.channels, before, after, body.tenant, k.recipient);
      var row := (k, Queued(SpecFor(body).value.template, DestinationFor(before, k.recipient, k.channel), now));
      assert row in was;
      var j :| 0 <= j < |was| && was[j] == row;
      assert was[j].0 in KeysOf(was);
    }
  }

  lemma CoversKeeps(before: Directory, after: Directory, body: Event)
    requires StillCovers(before, after, body)
    ensures KeepsPreferences(before, after, body.tenant)
  {
  }

  lemma NothingChanged(directory: Directory, body: Event)
    ensures StillCovers(directory, directory, body)
  {
  }

  /** The clock decides when a row is due and nothing else. */
  lemma PlanKeysIgnoreClock(directory: Directory, event: nat, body: Event, now: int, later: int)
    ensures KeysOf(Plan(directory, event, body, now)) == KeysOf(Plan(directory, event, body, later))
  {
    hide Plan, StillCovers;
    NothingChanged(directory, body);
    PlanLosesOnly(directory, directory, event, body, now, later);
    PlanLosesOnly(directory, directory, event, body, later, now);
  }
}
