/** That an order's stage times are the times it entered those stages, over every run. */
module OrderTimes {
  import opened Outcomes
  import opened OrderStates
  import opened Orders
  import OrderSafety

  datatype Column = ConfirmedAt | AcceptedAt | PreparingAt | ReadyAt | DispatchedAt | CompletedAt | CancelledAt

  function At(stamps: Stamps, column: Column): Option<int> {
    match column
    case ConfirmedAt => stamps.confirmedAt
    case AcceptedAt => stamps.acceptedAt
    case PreparingAt => stamps.preparingAt
    case ReadyAt => stamps.readyAt
    case DispatchedAt => stamps.dispatchedAt
    case CompletedAt => stamps.completedAt
    case CancelledAt => stamps.cancelledAt
  }

  /** The statuses whose entry a column times. */
  function Times(column: Column): set<OrderStatus> {
    match column
    case ConfirmedAt => {Confirmed}
    case AcceptedAt => {Accepted}
    case PreparingAt => {Preparing}
    case ReadyAt => {Ready}
    case DispatchedAt => {OutForDelivery}
    case CompletedAt => {Delivered, Completed}
    case CancelledAt => {Cancelled, Rejected}
  }

  /** A transition times the stage it enters by its own clock, and no other stage. */
  lemma MoveTimesItsStage(shop: Shop, input: MoveInput, column: Column)
    requires TransitionOrder(shop, input).Ok?
    ensures input.order < |shop.orders| == |TransitionOrder(shop, input).value.orders|
    ensures var before, after := shop.orders[input.order], TransitionOrder(shop, input).value.orders[input.order];
      && after.status == input.to
      && At(after.stamps, column) == if input.to in Times(column) then Some(input.now) else At(before.stamps, column)
    ensures forall i :: 0 <= i < |shop.orders| && i != input.order ==> TransitionOrder(shop, input).value.orders[i] == shop.orders[i]
  {
    OrderSafety.MoveFacts(shop, input);
    hide MoveRefusal, ShouldMarkPaid;
  }

  /** A checkout times the confirmation by its own clock, when paying is for later, and nothing else. */
  lemma CheckoutTimesConfirmation(shop: Shop, input: CheckoutInput, column: Column)
    requires Checkout(shop, input).Ok?
    ensures var after := Checkout(shop, input).value.orders;
      && |after| == |shop.orders| + 1 && after[..|shop.orders|] == shop.orders
      && var order := after[|shop.orders|];
         && order.status == (if input.payment == Online then PendingPayment else Confirmed)
         && At(order.stamps, column) == if column == ConfirmedAt && input.payment != Online then Some(input.now) else None
  {
    hide Prepare, PrintNumber, CounterAt;
  }

  /** The status this step makes an order enter, and when, if it does. */
  function Entry(shop: Shop, step: Step, order: nat): Option<(OrderStatus, int)> {
    match step
    case PlaceOrder(input) =>
      if order == |shop.orders| && Checkout(shop, input).Ok?
      then Some((if input.payment == Online then PendingPayment else Confirmed, input.now)) else None
    case MoveOrder(input) =>
      if order == input.order && TransitionOrder(shop, input).Ok? then Some((input.to, input.now)) else None
    case _ => None
  }

  /** The clock of the last step of a run that made an order enter one of these statuses, or what it was before. */
  function LastEntry(shop: Shop, steps: seq<Step>, order: nat, statuses: set<OrderStatus>, before: Option<int>): Option<int>
    decreases steps
  {
    if steps == [] then before
    else
      var entry := Entry(shop, steps[0], order);
      LastEntry(Apply(shop, steps[0]), steps[1..], order, statuses,
                if entry.Some? && entry.value.0 in statuses then Some(entry.value.1) else before)
  }

  /** What a column of an order holds, if there is such an order. */
  function Held(shop: Shop, order: nat, column: Column): Option<int> {
    if order < |shop.orders| then At(shop.orders[order].stamps, column) else None
  }

  lemma StepTimes(shop: Shop, step: Step, order: nat, column: Column)
    ensures var entry := Entry(shop, step, order);
      Held(Apply(shop, step), order, column)
      == if entry.Some? && entry.value.0 in Times(column) then Some(entry.value.1) else Held(shop, order, column)
  {
    hide TransitionOrder, Checkout, At, Times;
    match step
    case MoveOrder(input) =>
      if TransitionOrder(shop, input).Ok? {
        MoveTimesItsStage(shop, input, column);
      }
    case PlaceOrder(input) =>
      if Checkout(shop, input).Ok? {
        CheckoutTimesConfirmation(shop, input, column);
        NewColumn(column);
        assert order < |shop.orders| ==> Checkout(shop, input).value.orders[..|shop.orders|][order] == shop.orders[order];
      }
    case _ =>
      OrderSafety.EditLeavesOrders(shop, step);
  }

  lemma NewColumn(column: Column)
    ensures Confirmed in Times(column) <==> column == ConfirmedAt
    ensures PendingPayment !in Times(column)
  {
  }

  lemma {:induction false} RunTimes(shop: Shop, steps: seq<Step>, order: nat, column: Column, before: Option<int>)
    requires Held(shop, order, column) == before
    ensures Held(Run(shop, steps), order, column) == LastEntry(shop, steps, order, Times(column), before)
    decreases steps
  {
    hide Apply, Entry, Held, Times;
    if steps != [] {
      var entry := Entry(shop, steps[0], order);
      StepTimes(shop, steps[0], order, column);
      RunTimes(Apply(shop, steps[0]), steps[1..], order, column,
               if entry.Some? && entry.value.0 in Times(column) then Some(entry.value.1) else before);
    }
  }

  /** In every run each stage time of each order is the clock of the last step that entered that stage, and absent if none did. */
  lemma StageTimesAreEntries(steps: seq<Step>, order: nat, column: Column)
    requires order < |Run(EMPTY, steps).orders|
    ensures At(Run(EMPTY, steps).orders[order].stamps, column) == LastEntry(EMPTY, steps, order, Times(column), None)
  {
    hide Run, LastEntry;
    RunTimes(EMPTY, steps, order, column, None);
  }
}
