/** `DateRangeValidator.isValid` on a reservation-creation request. */
module DateRangeValidator {
  import opened Wrappers
  import opened Dates
  import opened Model

  /** A missing date leaves the range to the not-null checks; otherwise check-out
      must fall strictly after check-in. */
  function IsValid(req: ReservationCreateRequest): (ok: bool)
    ensures req.checkInDate.None? || req.checkOutDate.None? ==> ok
    ensures req.checkInDate.Some? && req.checkOutDate.Some? && ok ==> req.checkOutDate != req.checkInDate
    ensures req.checkInDate.Some? && req.checkOutDate.Some?
            && req.checkInDate.value.Valid() && req.checkOutDate.value.Valid() ==>
              (ok <==> Ordinal(req.checkOutDate.value) > Ordinal(req.checkInDate.value))
  {
    req.checkInDate.None? || req.checkOutDate.None?
    || IsAfter(req.checkOutDate.value, req.checkInDate.value)
  }

  /** A stay that starts and ends on the same day is rejected. */
  lemma SameDayInvalid(req: ReservationCreateRequest, d: Date)
    requires req.checkInDate == Some(d) && req.checkOutDate == Some(d)
    ensures !IsValid(req)
  {
  }

  /** Only the two dates matter: people count, room and guest never change the verdict. */
  lemma OnlyDatesMatter(a: ReservationCreateRequest, b: ReservationCreateRequest)
    requires a.checkInDate == b.checkInDate && a.checkOutDate == b.checkOutDate
    ensures IsValid(a) <==> IsValid(b)
  {
  }

  /** Moving check-out later keeps a valid range valid. */
  lemma LaterCheckOutStaysValid(req: ReservationCreateRequest, later: Date)
    requires req.checkInDate.Some? && req.checkOutDate.Some? && IsValid(req)
    requires IsAfter(later, req.checkOutDate.value)
    ensures IsValid(req.(checkOutDate := Some(later)))
  {
    IsAfterStrictOrder(later, req.checkOutDate.value, req.checkInDate.value);
  }
}
