/** `ReservationServiceImpl.create`, `findById` and `findAll` over three stores: the
    reservations in save order, and the rooms and guests by id. */
module ReservationService {
  import opened Wrappers
  import opened Exceptions
  import opened ReservationStatus
  import opened Model

  const RoomNotFound: string := "Room not found"
  const GuestNotFound: string := "Guest not found"
  const ReservationNotFound: string := "Reservation not found"

  class ReservationServiceImpl {
    var reservations: seq<Reservation>
    var rooms: map<Uuid, Room>
    var guests: map<Uuid, Guest>

    /** Every room and guest is stored under its own id; saved reservations have
        distinct ids (the primary key) and a room and a guest. */
    ghost predicate Valid()
      reads this, reservations
    {
      && (forall k :: k in rooms ==> rooms[k].id == k)
      && (forall k :: k in guests ==> guests[k].id == k)
      && (forall i, j :: 0 <= i < j < |reservations| ==> reservations[i].id != reservations[j].id)
      && (forall i :: 0 <= i < |reservations| ==> reservations[i].room.Some? && reservations[i].guest.Some?)
    }

    constructor (rooms: map<Uuid, Room>, guests: map<Uuid, Guest>)
      requires forall k :: k in rooms ==> rooms[k].id == k
      requires forall k :: k in guests ==> guests[k].id == k
      ensures Valid() && reservations == [] && this.rooms == rooms && this.guests == guests
    {
      reservations := [];
      this.rooms := rooms;
      this.guests := guests;
    }

    /** `create(req)`: builds a PENDING reservation from the request's dates and people
        count, looks up the room and then the guest, and saves. `newId` is the id the
        database generates on save. The date range is not checked here. */
    method Create(req: ReservationCreateRequest, newId: Uuid)
        returns (result: Result<ReservationDto, Exception>)
      requires Valid()
      requires forall i :: 0 <= i < |reservations| ==> reservations[i].id != newId
      modifies this`reservations
      ensures Valid() && rooms == old(rooms) && guests == old(guests)
      ensures req.roomId !in rooms ==> result == Failure(EntityNotFound(RoomNotFound))
      ensures req.roomId in rooms && req.guestId !in guests ==> result == Failure(EntityNotFound(GuestNotFound))
      ensures result.Failure? ==> reservations == old(reservations)
      ensures result.Success? <==> req.roomId in rooms && req.guestId in guests
      ensures result.Success? ==>
                && |reservations| == |old(reservations)| + 1
                && reservations[..|old(reservations)|] == old(reservations)
                && fresh(reservations[|old(reservations)|])
                && result.value == reservations[|old(reservations)|].ToDto()
                && result.value == ReservationDto(newId, req.checkInDate, req.checkOutDate, req.peopleCount,
                                                  Pending, Some(req.roomId), Some(req.guestId))
                && reservations[|old(reservations)|].room == Some(rooms[req.roomId])
                && reservations[|old(reservations)|].guest == Some(guests[req.guestId])
                && reservations[|old(reservations)|].payment == null
    {
      var entity := new Reservation.Build(newId, req.checkInDate, req.checkOutDate, req.peopleCount);
      if req.roomId !in rooms {
        return Failure(EntityNotFound(RoomNotFound));
      }
      var room := rooms[req.roomId];
      if req.guestId !in guests {
        return Failure(EntityNotFound(GuestNotFound));
      }
      var guest := guests[req.guestId];
      entity.room := Some(room);
      entity.guest := Some(guest);
      reservations := reservations + [entity];
      return Success(entity.ToDto());
    }

    /** `findById(id)`: the stored reservation with that id, or EntityNotFoundException. */
    method FindById(id: Uuid) returns (result: Result<ReservationDto, Exception>)
      ensures result.Success? <==> exists i :: 0 <= i < |reservations| && reservations[i].id == id
      ensures result.Success? ==>
                exists i :: 0 <= i < |reservations| && reservations[i].id == id
                            && result.value == reservations[i].ToDto()
      ensures result.Success? ==> result.value.id == id
      ensures result.Failure? ==> result.error == EntityNotFound(ReservationNotFound)
    {
      var i := 0;
      while i < |reservations|
        invariant 0 <= i <= |reservations|
        invariant forall k :: 0 <= k < i ==> reservations[k].id != id
      {
        if reservations[i].id == id {
          return Success(reservations[i].ToDto());
        }
        i := i + 1;
      }
      return Failure(EntityNotFound(ReservationNotFound));
    }

    /** `findAll()`: one record per stored reservation, in store order. */
    method FindAll() returns (dtos: seq<ReservationDto>)
      ensures |dtos| == |reservations|
      ensures forall i :: 0 <= i < |reservations| ==> dtos[i] == reservations[i].ToDto()
    {
      dtos := [];
      for i := 0 to |reservations|
        invariant |dtos| == i
        invariant forall k :: 0 <= k < i ==> dtos[k] == reservations[k].ToDto()
      {
        dtos := dtos + [reservations[i].ToDto()];
      }
    }
  }
}
