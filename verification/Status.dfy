/** Transfer and payment statuses, their ranks, and the forward-only transition planners. */
module Status {
  import opened Base

  datatype TransferStatus =
    | Initiated
    | WaitingCounterparty
    | WaitingSafeHeight
    | WaitingBroadcast
    | WaitingConfirmations
    | Settled
    | Failed
  {
    predicate Terminal() {
      this == Settled || this == Failed
    }

    predicate Waiting() {
      this in {WaitingCounterparty, WaitingSafeHeight, WaitingBroadcast, WaitingConfirmations}
    }

    predicate Fallible() {
      this in {Initiated, WaitingCounterparty, WaitingSafeHeight, WaitingBroadcast}
    }
  }

  datatype PaymentStatus = Pending | Succeeded | PaymentFailed | Claimable | Claiming | Cancelled
  {
    predicate Terminal() {
      this in {Succeeded, PaymentFailed, Cancelled}
    }
  }

  datatype EventType = ConfirmedPending | TransferSettled | TransferFailed

  datatype PaymentEventType = PaymentSettledEvent | PaymentFailedEvent

  /** What a planner decides: the status to move to, and the event to emit with the move. */
  datatype Move<S, E> = Move(to: S, event: Option<E>)

  function Rank(s: TransferStatus): nat {
    match s
    case Initiated => 0
    case WaitingCounterparty => 1
    case WaitingSafeHeight => 2
    case WaitingBroadcast => 3
    case WaitingConfirmations => 4
    case Settled => 5
    case Failed => 5
  }

  function PlanTransition(from: TransferStatus, observed: TransferStatus): Option<Move<TransferStatus, EventType>> {
    if from.Terminal() || Rank(observed) <= Rank(from) then None else
    var event := match observed
      case WaitingConfirmations => Some(ConfirmedPending)
      case Settled => Some(TransferSettled)
      case Failed => Some(TransferFailed)
      case _ => None;
    Some(Move(observed, event))
  }

  /** The status a stored row has once an observation has been planned and applied. */
  function Advance(from: TransferStatus, observed: TransferStatus): TransferStatus {
    var plan := PlanTransition(from, observed);
    if plan.Some? then plan.value.to else from
  }

  /** The stages whose entry the webhook documentation promises to announce. */
  predicate Announced(s: TransferStatus) {
    s.Terminal() || s == WaitingConfirmations
  }

  function PaymentRank(s: PaymentStatus): nat {
    match s
    case Pending => 0
    case Claimable => 1
    case Claiming => 2
    case Succeeded => 3
    case PaymentFailed => 3
    case Cancelled => 3
  }

  function PlanPayment(from: PaymentStatus, observed: PaymentStatus): Option<Move<PaymentStatus, PaymentEventType>> {
    if from.Terminal() then
      // A failed or cancelled hash is reused by the node on a retry: restart silently.
      if observed != Pending || from == Succeeded then None else Some(Move(observed, None))
    else if PaymentRank(observed) <= PaymentRank(from) then None else
    var event := match observed
      case Succeeded => Some(PaymentSettledEvent)
      case PaymentFailed => Some(PaymentFailedEvent)
      case Cancelled => Some(PaymentFailedEvent)
      case _ => None;
    Some(Move(observed, event))
  }
}
