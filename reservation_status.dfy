/** The `ReservationStatus` enum. */
module ReservationStatus {

  datatype Status = Pending | Confirmed | Cancelled
}
