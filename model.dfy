/** The entities the core reads and writes. Reservation and Payment are updated in
    place through their setters, so they are classes; Room, Guest and PaymentPlatform
    are only read here, so they are values. Amounts are whole cents. */
module Model {
  import opened Wrappers
  import opened Dates
  import opened ReservationStatus
  import opened ReservationStateFactory

  /** A `java.util.UUID`. */
  type Uuid = int

  datatype Room = Room(id: Uuid, hotelId: Uuid, deleted: bool)

  datatype Guest = Guest(id: Uuid, birthDate: Option<Date>)

  datatype PaymentPlatform = PaymentPlatform(id: Uuid, name: string, code: string, active: bool)

  datatype PaymentMethod = Cash | Transfer

  /** The fields of `ReservationCreateDTO`. The dates and the people count may be null;
      the room and guest ids are always given. */
  datatype ReservationCreateRequest = ReservationCreateRequest(
    checkInDate: Option<Date>,
    checkOutDate: Option<Date>,
    peopleCount: Option<int>,
    roomId: Uuid,
    guestId: Uuid)

  /** What `ReservationMapper.toDto` copies out of a reservation. */
  datatype ReservationDto = ReservationDto(
    id: Uuid,
    checkInDate: Option<Date>,
    checkOutDate: Option<Date>,
    peopleCount: Option<int>,
    status: Status,
    roomId: Option<Uuid>,
    guestId: Option<Uuid>)

  class Reservation {
    var id: Uuid
    var checkInDate: Option<Date>
    var checkOutDate: Option<Date>
    var peopleCount: Option<int>
    var status: Status
    var room: Option<Room>
    var guest: Option<Guest>
    var payment: Payment?

    /** `Reservation.builder()...build()` with the given dates and people count: the
        status takes its builder default PENDING, and room, guest and payment are null. */
    constructor Build(id: Uuid, checkInDate: Option<Date>, checkOutDate: Option<Date>, peopleCount: Option<int>)
      ensures this.id == id && this.checkInDate == checkInDate
      ensures this.checkOutDate == checkOutDate && this.peopleCount == peopleCount
      ensures status == Pending
      ensures room == None && guest == None && payment == null
    {
      this.id := id;
      this.checkInDate := checkInDate;
      this.checkOutDate := checkOutDate;
      this.peopleCount := peopleCount;
      status := Pending;
      room := None;
      guest := None;
      payment := null;
    }

    /** `getState()`: the factory's handler for the current status. */
    function GetState(): (state: ReservationState)
      reads this
      ensures state.Handles() == status
    {
      FromStatus(status)
    }

    /** The response record the mapper builds: room and guest reduced to their ids. */
    function ToDto(): (dto: ReservationDto)
      reads this
      ensures dto.id == id && dto.status == status && dto.peopleCount == peopleCount
      ensures dto.checkInDate == checkInDate && dto.checkOutDate == checkOutDate
      ensures dto.roomId.Some? <==> room.Some?
      ensures dto.guestId.Some? <==> guest.Some?
      ensures room.Some? ==> dto.roomId.value == room.value.id
      ensures guest.Some? ==> dto.guestId.value == guest.value.id
    {
      ReservationDto(id, checkInDate, checkOutDate, peopleCount, status,
                     if room.Some? then Some(room.value.id) else None,
                     if guest.Some? then Some(guest.value.id) else None)
    }
  }

  /** `getState()` reads nothing but the status. */
  lemma GetStateOnlyStatus(a: Reservation, b: Reservation)
    requires a.status == b.status
    ensures a.GetState() == b.GetState()
  {
  }

  class Payment {
    var totalAmount: int
    var paymentMethod: Option<PaymentMethod>
    var reservation: Reservation?
    var paymentPlatform: Option<PaymentPlatform>

    /** `Payment.builder()...build()` with amount, method and reservation; no platform. */
    constructor Build(totalAmount: int, paymentMethod: Option<PaymentMethod>, reservation: Reservation?)
      ensures this.totalAmount == totalAmount && this.paymentMethod == paymentMethod
      ensures this.reservation == reservation && paymentPlatform == None
    {
      this.totalAmount := totalAmount;
      this.paymentMethod := paymentMethod;
      this.reservation := reservation;
      paymentPlatform := None;
    }
  }
}
