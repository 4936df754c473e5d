/** `PendingState`: both actions are allowed and only rewrite the status. The handler
    never looks at the current status; which handler runs is the factory's choice. */
module PendingState {
  import opened Wrappers
  import opened Exceptions
  import opened ReservationStatus
  import opened Model

  /** Sets the status to CONFIRMED. No payment is created or attached. */
  method Confirm(reservation: Reservation) returns (outcome: Outcome<Exception>)
    modifies reservation`status
    ensures outcome == Pass
    ensures reservation.status == Confirmed
    ensures reservation.payment == old(reservation.payment)
  {
    reservation.status := Confirmed;
    outcome := Pass;
  }

  /** Sets the status to CANCELLED. */
  method Cancel(reservation: Reservation) returns (outcome: Outcome<Exception>)
    modifies reservation`status
    ensures outcome == Pass
    ensures reservation.status == Cancelled
    ensures reservation.payment == old(reservation.payment)
  {
    reservation.status := Cancelled;
    outcome := Pass;
  }
}
