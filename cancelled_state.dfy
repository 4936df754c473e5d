/** `CancelledState`: a cancelled reservation refuses both actions. */
module CancelledState {
  import opened Wrappers
  import opened Exceptions
  import opened Model

  const CannotConfirm: string := "Cancelled reservations cannot be confirmed"
  const AlreadyCancelled: string := "Reservation is already cancelled"

  /** Throws IllegalStateException; the reservation is not touched (no modifies clause). */
  method Confirm(reservation: Reservation) returns (outcome: Outcome<Exception>)
    ensures outcome == Fail(IllegalState(CannotConfirm))
  {
    outcome := Fail(IllegalState(CannotConfirm));
  }

  /** Throws IllegalStateException; the reservation is not touched (no modifies clause). */
  method Cancel(reservation: Reservation) returns (outcome: Outcome<Exception>)
    ensures outcome == Fail(IllegalState(AlreadyCancelled))
  {
    outcome := Fail(IllegalState(AlreadyCancelled));
  }
}
