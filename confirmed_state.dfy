/** `ConfirmedState`: confirming again is refused; cancelling is allowed. */
module ConfirmedState {
  import opened Wrappers
  import opened Exceptions
  import opened ReservationStatus
  import opened Model

  const AlreadyConfirmed: string := "Reservation is already confirmed"

  /** Throws IllegalStateException; the reservation is not touched (no modifies clause). */
  method Confirm(reservation: Reservation) returns (outcome: Outcome<Exception>)
    ensures outcome == Fail(IllegalState(AlreadyConfirmed))
  {
    outcome := Fail(IllegalState(AlreadyConfirmed));
  }

  /** Sets the status to CANCELLED; an attached payment stays attached. */
  method Cancel(reservation: Reservation) returns (outcome: Outcome<Exception>)
    modifies reservation`status
    ensures outcome == Pass
    ensures reservation.status == Cancelled
    ensures reservation.payment == old(reservation.payment)
  {
    reservation.status := Cancelled;
    outcome := Pass;
  }
}
