/** `HotelRepository.getTotalEarningsByHotel`: the native query
      SUM(p.total_amount) over payments JOIN reservations ON p.reservation_id = r.id
      JOIN rooms ON r.room_id = ro.id WHERE ro.hotel_id = :hotelId
    over the three tables as sequences of rows. Every joined row contributes the
    payment's amount once; SUM over no rows is NULL. */
module HotelRepository {
  import opened Wrappers
  import opened ReservationStatus
  import opened Model

  datatype PaymentRow = PaymentRow(id: Uuid, totalAmount: int, reservationId: Uuid)
  datatype ReservationRow = ReservationRow(id: Uuid, roomId: Uuid, status: Status)
  datatype RoomRow = RoomRow(id: Uuid, hotelId: Uuid, deleted: bool)

  function Sum(s: seq<int>): int {
    if s == [] then 0 else s[0] + Sum(s[1..])
  }

  function Repeat(x: int, n: nat): (s: seq<int>)
    ensures |s| == n && forall i :: 0 <= i < n ==> s[i] == x
  {
    if n == 0 then [] else [x] + Repeat(x, n - 1)
  }

  /** Rows of `rooms` joining a reservation on `room_id` and passing the hotel filter. */
  function RoomMatches(roomId: Uuid, hotelId: Uuid, rooms: seq<RoomRow>): nat {
    if rooms == [] then 0
    else (if rooms[0].id == roomId && rooms[0].hotelId == hotelId then 1 else 0)
         + RoomMatches(roomId, hotelId, rooms[1..])
  }

  /** (reservation, room) row pairs a payment joins, with the hotel filter applied. */
  function JoinCount(p: PaymentRow, hotelId: Uuid, reservations: seq<ReservationRow>, rooms: seq<RoomRow>): nat {
    if reservations == [] then 0
    else (if reservations[0].id == p.reservationId then RoomMatches(reservations[0].roomId, hotelId, rooms) else 0)
         + JoinCount(p, hotelId, reservations[1..], rooms)
  }

  /** The `p.total_amount` column of the joined, filtered rows, payment by payment. */
  function Joined(payments: seq<PaymentRow>, hotelId: Uuid, reservations: seq<ReservationRow>, rooms: seq<RoomRow>): seq<int> {
    if payments == [] then []
    else Repeat(payments[0].totalAmount, JoinCount(payments[0], hotelId, reservations, rooms))
         + Joined(payments[1..], hotelId, reservations, rooms)
  }

  /** The total is NULL exactly when no payment joins a room of the hotel. */
  function GetTotalEarningsByHotel(hotelId: Uuid, payments: seq<PaymentRow>,
                                   reservations: seq<ReservationRow>, rooms: seq<RoomRow>): (total: Option<int>)
    ensures total.None? <==>
              forall i :: 0 <= i < |payments| ==> JoinCount(payments[i], hotelId, reservations, rooms) == 0
  {
    JoinedEmptyIff(hotelId, payments, reservations, rooms);
    var rows := Joined(payments, hotelId, reservations, rooms);
    if rows == [] then None else Some(Sum(rows))
  }

  /** No joined rows exactly when every payment joins nothing. */
  lemma {:induction false} JoinedEmptyIff(hotelId: Uuid, payments: seq<PaymentRow>,
                                          reservations: seq<ReservationRow>, rooms: seq<RoomRow>)
    ensures Joined(payments, hotelId, reservations, rooms) == [] <==>
              forall i :: 0 <= i < |payments| ==> JoinCount(payments[i], hotelId, reservations, rooms) == 0
  {
    if payments != [] {
      JoinedEmptyIff(hotelId, payments[1..], reservations, rooms);
      assert forall i :: 1 <= i < |payments| ==> payments[i] == payments[1..][i - 1];
    }
  }

  // ---------------------------------------------------------------------------
  // Reference definition: follow each payment's foreign keys to its hotel.

  /** Primary keys: no two reservation rows, and no two room rows, share an id. */
  ghost predicate KeysUnique(reservations: seq<ReservationRow>, rooms: seq<RoomRow>) {
    && (forall i, j :: 0 <= i < j < |reservations| ==> reservations[i].id != reservations[j].id)
    && (forall i, j :: 0 <= i < j < |rooms| ==> rooms[i].id != rooms[j].id)
  }

  function FindRoom(id: Uuid, rooms: seq<RoomRow>): Option<RoomRow> {
    if rooms == [] then None else if rooms[0].id == id then Some(rooms[0]) else FindRoom(id, rooms[1..])
  }

  function FindReservation(id: Uuid, reservations: seq<ReservationRow>): Option<ReservationRow> {
    if reservations == [] then None
    else if reservations[0].id == id then Some(reservations[0])
    else FindReservation(id, reservations[1..])
  }

  /** The hotel a payment's money goes to: the hotel of its reservation's room. */
  function HotelOf(p: PaymentRow, reservations: seq<ReservationRow>, rooms: seq<RoomRow>): Option<Uuid> {
    match FindReservation(p.reservationId, reservations)
    case None => None
    case Some(r) =>
      match FindRoom(r.roomId, rooms)
      case None => None
      case Some(ro) => Some(ro.hotelId)
  }

  /** The amounts of the payments that belong to the hotel, each taken once. */
  function HotelAmounts(payments: seq<PaymentRow>, hotelId: Uuid, reservations: seq<ReservationRow>, rooms: seq<RoomRow>): seq<int> {
    if payments == [] then []
    else (if HotelOf(payments[0], reservations, rooms) == Some(hotelId) then [payments[0].totalAmount] else [])
         + HotelAmounts(payments[1..], hotelId, reservations, rooms)
  }

  // ---------------------------------------------------------------------------
  // The query against the reference.

  lemma {:induction false} RoomMatchesUnique(roomId: Uuid, hotelId: Uuid, rooms: seq<RoomRow>)
    requires forall i, j :: 0 <= i < j < |rooms| ==> rooms[i].id != rooms[j].id
    ensures RoomMatches(roomId, hotelId, rooms) ==
              (if FindRoom(roomId, rooms).Some? && FindRoom(roomId, rooms).value.hotelId == hotelId then 1 else 0)
  {
    if rooms != [] {
      RoomMatchesUnique(roomId, hotelId, rooms[1..]);
      if rooms[0].id == roomId {
        RoomAbsent(roomId, hotelId, rooms[1..]);
      }
    }
  }

  lemma {:induction false} RoomAbsent(roomId: Uuid, hotelId: Uuid, rooms: seq<RoomRow>)
    requires forall j :: 0 <= j < |rooms| ==> rooms[j].id != roomId
    ensures RoomMatches(roomId, hotelId, rooms) == 0
  {
    if rooms != [] {
      RoomAbsent(roomId, hotelId, rooms[1..]);
    }
  }

  lemma {:induction false} JoinCountUnique(p: PaymentRow, hotelId: Uuid, reservations: seq<ReservationRow>, rooms: seq<RoomRow>)
    requires KeysUnique(reservations, rooms)
    ensures JoinCount(p, hotelId, reservations, rooms) == (if HotelOf(p, reservations, rooms) == Some(hotelId) then 1 else 0)
  {
    if reservations != [] {
      JoinCountUnique(p, hotelId, reservations[1..], rooms);
      if reservations[0].id == p.reservationId {
        RoomMatchesUnique(reservations[0].roomId, hotelId, rooms);
        ReservationAbsent(p, hotelId, reservations[1..], rooms);
      }
    }
  }

  lemma {:induction false} ReservationAbsent(p: PaymentRow, hotelId: Uuid, reservations: seq<ReservationRow>, rooms: seq<RoomRow>)
    requires forall i :: 0 <= i < |reservations| ==> reservations[i].id != p.reservationId
    ensures JoinCount(p, hotelId, reservations, rooms) == 0
  {
    if reservations != [] {
      ReservationAbsent(p, hotelId, reservations[1..], rooms);
    }
  }

  /** With primary keys unique, each payment joins at most one row: the query sums the
      amounts of exactly the payments whose reservation's room is in the hotel, and is
      NULL when there is none. */
  lemma {:induction false} EarningsAreHotelPayments(hotelId: Uuid, payments: seq<PaymentRow>,
                                                    reservations: seq<ReservationRow>, rooms: seq<RoomRow>)
    requires KeysUnique(reservations, rooms)
    ensures Joined(payments, hotelId, reservations, rooms) == HotelAmounts(payments, hotelId, reservations, rooms)
    ensures GetTotalEarningsByHotel(hotelId, payments, reservations, rooms) ==
              (if HotelAmounts(payments, hotelId, reservations, rooms) == [] then None
               else Some(Sum(HotelAmounts(payments, hotelId, reservations, rooms))))
  {
    if payments != [] {
      JoinCountUnique(payments[0], hotelId, reservations, rooms);
      EarningsAreHotelPayments(hotelId, payments[1..], reservations, rooms);
    }
  }

  /** The result is NULL exactly when no payment belongs to the hotel. */
  lemma NullIffNoHotelPayment(hotelId: Uuid, payments: seq<PaymentRow>,
                              reservations: seq<ReservationRow>, rooms: seq<RoomRow>)
    requires KeysUnique(reservations, rooms)
    ensures GetTotalEarningsByHotel(hotelId, payments, reservations, rooms).None? <==>
              forall i :: 0 <= i < |payments| ==> HotelOf(payments[i], reservations, rooms) != Some(hotelId)
  {
    EarningsAreHotelPayments(hotelId, payments, reservations, rooms);
    HotelAmountsEmpty(hotelId, payments, reservations, rooms);
  }

  lemma {:induction false} HotelAmountsEmpty(hotelId: Uuid, payments: seq<PaymentRow>,
                                             reservations: seq<ReservationRow>, rooms: seq<RoomRow>)
    ensures HotelAmounts(payments, hotelId, reservations, rooms) == [] <==>
              forall i :: 0 <= i < |payments| ==> HotelOf(payments[i], reservations, rooms) != Some(hotelId)
  {
    if payments != [] {
      HotelAmountsEmpty(hotelId, payments[1..], reservations, rooms);
      assert forall i :: 1 <= i < |payments| ==> payments[i] == payments[1..][i - 1];
    }
  }

  // ---------------------------------------------------------------------------
  // Properties of the query itself, whatever the keys.

  lemma {:induction false} JoinedAppend(a: seq<PaymentRow>, b: seq<PaymentRow>, hotelId: Uuid,
                                        reservations: seq<ReservationRow>, rooms: seq<RoomRow>)
    ensures Joined(a + b, hotelId, reservations, rooms) ==
              Joined(a, hotelId, reservations, rooms) + Joined(b, hotelId, reservations, rooms)
  {
    if a != [] {
      assert (a + b)[1..] == a[1..] + b;
      JoinedAppend(a[1..], b, hotelId, reservations, rooms);
    } else {
      assert a + b == b;
    }
  }

  lemma {:induction false} NoJoinedRows(p: PaymentRow, hotelId: Uuid, reservations: seq<ReservationRow>, rooms: seq<RoomRow>)
    requires forall i, j :: 0 <= i < |reservations| && 0 <= j < |rooms|
               && reservations[i].id == p.reservationId && rooms[j].id == reservations[i].roomId
               ==> rooms[j].hotelId != hotelId
    ensures JoinCount(p, hotelId, reservations, rooms) == 0
  {
    if reservations != [] {
      if reservations[0].id == p.reservationId {
        RoomAbsentInHotel(reservations[0].roomId, hotelId, rooms);
      }
      NoJoinedRows(p, hotelId, reservations[1..], rooms);
    }
  }

  lemma {:induction false} RoomAbsentInHotel(roomId: Uuid, hotelId: Uuid, rooms: seq<RoomRow>)
    requires forall j :: 0 <= j < |rooms| && rooms[j].id == roomId ==> rooms[j].hotelId != hotelId
    ensures RoomMatches(roomId, hotelId, rooms) == 0
  {
    if rooms != [] {
      RoomAbsentInHotel(roomId, hotelId, rooms[1..]);
    }
  }

  /** A payment whose reservation's room belongs to another hotel (or to no room at all)
      changes nothing, wherever it sits in the payments table. */
  lemma OtherHotelPaymentIgnored(hotelId: Uuid, before: seq<PaymentRow>, p: PaymentRow, after: seq<PaymentRow>,
                                 reservations: seq<ReservationRow>, rooms: seq<RoomRow>)
    requires forall i, j :: 0 <= i < |reservations| && 0 <= j < |rooms|
               && reservations[i].id == p.reservationId && rooms[j].id == reservations[i].roomId
               ==> rooms[j].hotelId != hotelId
    ensures GetTotalEarningsByHotel(hotelId, before + [p] + after, reservations, rooms) ==
            GetTotalEarningsByHotel(hotelId, before + after, reservations, rooms)
  {
    NoJoinedRows(p, hotelId, reservations, rooms);
    JoinedAppend(before + [p], after, hotelId, reservations, rooms);
    JoinedAppend(before, [p], hotelId, reservations, rooms);
    JoinedAppend(before, after, hotelId, reservations, rooms);
    assert [p][1..] == [];
    assert Joined([p], hotelId, reservations, rooms) == [];
    assert Joined(before + [p], hotelId, reservations, rooms) == Joined(before, hotelId, reservations, rooms);
  }

  /** The query filters on neither the reservation's status nor the room's `deleted` flag:
      tables that agree on the joined columns give the same result. */
  lemma {:induction false} IgnoresStatusAndDeleted(hotelId: Uuid, payments: seq<PaymentRow>,
                                                   reservations: seq<ReservationRow>, rooms: seq<RoomRow>,
                                                   reservations': seq<ReservationRow>, rooms': seq<RoomRow>)
    requires |reservations'| == |reservations| && |rooms'| == |rooms|
    requires forall i :: 0 <= i < |reservations| ==>
               reservations'[i].id == reservations[i].id && reservations'[i].roomId == reservations[i].roomId
    requires forall j :: 0 <= j < |rooms| ==> rooms'[j].id == rooms[j].id && rooms'[j].hotelId == rooms[j].hotelId
    ensures GetTotalEarningsByHotel(hotelId, payments, reservations', rooms') ==
            GetTotalEarningsByHotel(hotelId, payments, reservations, rooms)
  {
    JoinedSameLinks(hotelId, payments, reservations, rooms, reservations', rooms');
  }

  lemma {:induction false} JoinedSameLinks(hotelId: Uuid, payments: seq<PaymentRow>,
                                           reservations: seq<ReservationRow>, rooms: seq<RoomRow>,
                                           reservations': seq<ReservationRow>, rooms': seq<RoomRow>)
    requires |reservations'| == |reservations| && |rooms'| == |rooms|
    requires forall i :: 0 <= i < |reservations| ==>
               reservations'[i].id == reservations[i].id && reservations'[i].roomId == reservations[i].roomId
    requires forall j :: 0 <= j < |rooms| ==> rooms'[j].id == rooms[j].id && rooms'[j].hotelId == rooms[j].hotelId
    ensures Joined(payments, hotelId, reservations', rooms') == Joined(payments, hotelId, reservations, rooms)
  {
    if payments != [] {
      JoinCountSameLinks(payments[0], hotelId, reservations, rooms, reservations', rooms');
      JoinedSameLinks(hotelId, payments[1..], reservations, rooms, reservations', rooms');
    }
  }

  lemma {:induction false} JoinCountSameLinks(p: PaymentRow, hotelId: Uuid,
                                              reservations: seq<ReservationRow>, rooms: seq<RoomRow>,
                                              reservations': seq<ReservationRow>, rooms': seq<RoomRow>)
    requires |reservations'| == |reservations| && |rooms'| == |rooms|
    requires forall i :: 0 <= i < |reservations| ==>
               reservations'[i].id == reservations[i].id && reservations'[i].roomId == reservations[i].roomId
    requires forall j :: 0 <= j < |rooms| ==> rooms'[j].id == rooms[j].id && rooms'[j].hotelId == rooms[j].hotelId
    ensures JoinCount(p, hotelId, reservations', rooms') == JoinCount(p, hotelId, reservations, rooms)
  {
    if reservations != [] {
      RoomMatchesSameLinks(reservations[0].roomId, hotelId, rooms, rooms');
      JoinCountSameLinks(p, hotelId, reservations[1..], rooms, reservations'[1..], rooms');
    }
  }

  lemma {:induction false} RoomMatchesSameLinks(roomId: Uuid, hotelId: Uuid, rooms: seq<RoomRow>, rooms': seq<RoomRow>)
    requires |rooms'| == |rooms|
    requires forall j :: 0 <= j < |rooms| ==> rooms'[j].id == rooms[j].id && rooms'[j].hotelId == rooms[j].hotelId
    ensures RoomMatches(roomId, hotelId, rooms') == RoomMatches(roomId, hotelId, rooms)
  {
    if rooms != [] {
      RoomMatchesSameLinks(roomId, hotelId, rooms[1..], rooms'[1..]);
    }
  }
}
