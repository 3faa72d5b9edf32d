/** The order state machine: which status may follow which, for which kind of order. */
module OrderStates {

  datatype OrderStatus =
    | Draft
    | PendingPayment
    | Confirmed
    | Accepted
    | Preparing
    | Ready
    | OutForDelivery
    | Delivered
    | DeliveryFailed
    | Completed
    | Returned
    | Cancelled
    | Rejected

  datatype OrderType = Delivery | Pickup | DineIn

  datatype PaymentMethod = Cash | CardOnDelivery | Online

  /** The transition table, as data. A status with no successor is terminal. */
  function Successors(from: OrderStatus): seq<OrderStatus> {
    match from
    case Draft => [PendingPayment, Confirmed, Cancelled]
    case PendingPayment => [Confirmed, Cancelled]
    case Confirmed => [Accepted, Rejected, Cancelled]
    case Accepted => [Preparing, Cancelled]
    case Preparing => [Ready, Cancelled]
    case Ready => [OutForDelivery, Completed, Cancelled]
    case OutForDelivery => [Delivered, DeliveryFailed]
    case DeliveryFailed => [OutForDelivery, Returned]
    case _ => []
  }

  predicate IsTerminal(status: OrderStatus) {
    |Successors(status)| == 0
  }

  predicate CanTransition(from: OrderStatus, to: OrderStatus, orderType: OrderType) {
    && to in Successors(from)
    && !(to == OutForDelivery && orderType != Delivery)
    && !(to == Completed && orderType == Delivery)
  }

  datatype TransitionError = AlreadyThere | AlreadyFinal | NotAllowed

  datatype Verdict = Legal | Illegal(error: TransitionError)

  /** The checks in the order they are made; only the message differs between the refusals. */
  function AssertTransition(from: OrderStatus, to: OrderStatus, orderType: OrderType): Verdict {
    if from == to then Illegal(AlreadyThere)
    else if IsTerminal(from) then Illegal(AlreadyFinal)
    else if !CanTransition(from, to, orderType) then Illegal(NotAllowed)
    else Legal
  }

  /** The two checks made before the table is consulted refuse nothing the table would allow. */
  lemma TableDecides(from: OrderStatus, to: OrderStatus, orderType: OrderType)
    ensures AssertTransition(from, to, orderType).Legal? <==> CanTransition(from, to, orderType)
  {
  }

  /** What an order must be coming from to get to a status, and of which type it must be. */
  lemma ComesFrom(from: OrderStatus, to: OrderStatus, orderType: OrderType)
    ensures CanTransition(from, to, orderType) <==>
      match to
      case Draft => false
      case PendingPayment => from == Draft
      case Confirmed => from == Draft || from == PendingPayment
      case Accepted => from == Confirmed
      case Preparing => from == Accepted
      case Ready => from == Preparing
      case OutForDelivery => orderType == Delivery && (from == Ready || from == DeliveryFailed)
      case Delivered => from == OutForDelivery
      case DeliveryFailed => from == OutForDelivery
      case Completed => orderType != Delivery && from == Ready
      case Returned => from == DeliveryFailed
      case Cancelled => from in {Draft, PendingPayment, Confirmed, Accepted, Preparing, Ready}
      case Rejected => from == Confirmed
  {
  }

  function StatusAfterCheckout(payment: PaymentMethod): OrderStatus {
    if payment == Online then PendingPayment else Confirmed
  }

  predicate CustomerMayCancel(status: OrderStatus) {
    status in {Draft, PendingPayment, Confirmed}
  }

  /** How far along an order is. Only dispatch and failed delivery share a place. */
  function Progress(status: OrderStatus): nat {
    match status
    case Draft => 0
    case PendingPayment => 1
    case Confirmed => 2
    case Accepted => 3
    case Preparing => 4
    case Ready => 5
    case OutForDelivery => 6
    case DeliveryFailed => 6
    case _ => 7
  }

  /** The statuses only an order that travels can be in. */
  predicate OnTheRoad(status: OrderStatus) {
    status in {OutForDelivery, Delivered, DeliveryFailed, Returned}
  }
}
