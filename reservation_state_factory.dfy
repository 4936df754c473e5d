/** `ReservationStateFactory.fromStatus`: the handler object for each status. */
module ReservationStateFactory {
  import opened ReservationStatus

  /** The three implementations of the `ReservationState` interface. */
  datatype ReservationState = PendingState | ConfirmedState | CancelledState {
    /** The status whose behaviour this handler implements. */
    function Handles(): Status {
      match this
      case PendingState => Pending
      case ConfirmedState => Confirmed
      case CancelledState => Cancelled
    }
  }

  /** An exhaustive switch: every status gets a handler, and none throws. The handler
      returned is the one for that very status, so no two statuses share one. */
  function FromStatus(status: Status): (state: ReservationState)
    ensures state.Handles() == status
  {
    match status
    case Pending => PendingState
    case Confirmed => ConfirmedState
    case Cancelled => CancelledState
  }

  /** Every handler is the factory's answer for the status it handles. */
  lemma FromStatusOnto(state: ReservationState)
    ensures FromStatus(state.Handles()) == state
  {
  }
}
