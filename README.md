# Hotel reservations: reservation lifecycle, payment dispatch, earnings and input checks

A Dafny model of the core of a Spring Boot hotel-booking service. The model covers:

- the reservation status state machine. It has one handler per status (PENDING, CONFIRMED, CANCELLED), and the factory picks the handler for a reservation's current status;
- `PaymentServiceImpl.processPayment`. It checks the payment method (cash or transfer) against the platform id, looks up the platform, runs the platform's processor and saves the payment;
- the two `PaymentProcessorFactory` copies. Each upper-cases a platform code and maps it to a processor;
- `ReservationServiceImpl.create`, `findById` and `findAll`, over stores of reservations, rooms and guests;
- the native SQL query `HotelRepository.getTotalEarningsByHotel`;
- the bean validators `DateRangeValidator` (check-out after check-in) and `AdultValidator` (at least 18 years old).

Entities that the application updates in place are classes: `Reservation` (its status changes through the handlers) and `Payment` (its platform is set inside the payment service). The two services are classes too, and their repositories are fields. A store whose order matters is a sequence; a store looked up by id is a map. Rooms, guests and payment platforms are only read here, so they are datatypes. Amounts are whole numbers (cents). Dates are (year, month, day) triples. A Java exception becomes `Outcome.Fail` or `Result.Failure`, carrying the message the Java code passes. A nullable reference becomes an `Option`, or a nullable class type.

Modules follow the Java files: `PendingState`, `ConfirmedState`, `CancelledState`, `ReservationStateFactory` and `ReservationStates` (the `ReservationState` interface and the dispatch through it), `Model`, `PaymentService`, `ProcessorFactory` (package `factory`), `PaymentProcessorFactory` (package `payment.factory`), `ReservationService`, `HotelRepository`, `DateRangeValidator` and `AdultValidator`. The helper modules are `Wrappers`, `Exceptions`, `Dates` (ordering and `Period.between`) and `JavaStrings` (`toUpperCase`).

Behaviour of the code worth noting:
- a payment request with no method returns `null` instead of failing (PaymentServiceImpl.java:82);
- a platform's `active` flag is never consulted;
- earnings over no payments are NULL, not zero;
- confirming a reservation does not attach a payment, and cancelling does not remove one. No invariant ties a payment's presence to the CONFIRMED status.

## Model

| member | source | states |
|---|---|---|
| `ReservationStateFactory.FromStatus` | src/main/java/project/hotel_reservations/reservation/state/ReservationStateFactory.java:7-12 | The switch is exhaustive and never throws. Each status gets the handler for that very status. |
| `ReservationStateFactory.FromStatusOnto` | src/main/java/project/hotel_reservations/reservation/state/ReservationStateFactory.java:8-12 | Every handler is the factory's answer for the status it handles, so the mapping is a bijection. |
| `Model.Reservation.Build` | src/main/java/project/hotel_reservations/model/Reservation.java:33-36 | A freshly built reservation is PENDING by default. It has no room, guest or payment, and it keeps the given id, dates and people count. |
| `Model.Reservation.ToDto` | src/main/java/project/hotel_reservations/mapper/ReservationMapper.java:12-15 | The record copies id, dates, people count and status, and reduces room and guest to their ids: an id is present exactly when the room or guest is, and it is that entity's id. |
| `Model.Payment.Build` | src/main/java/project/hotel_reservations/service/PaymentServiceImpl.java:39-43 | The built payment has the request's amount, method and reservation, and no platform yet. |
| `Model.Reservation.GetState` | src/main/java/project/hotel_reservations/model/Reservation.java:49-51 | `getState()` is total and returns the handler of the current status. |
| `Model.GetStateOnlyStatus` | src/main/java/project/hotel_reservations/model/Reservation.java:49-51 | `getState()` depends only on `status`, not on dates, room, guest or payment. |
| `PendingState.Confirm` | src/main/java/project/hotel_reservations/reservation/state/PendingState.java:8-10 | Never throws and sets the status to CONFIRMED, with no precondition on the current status. Only `status` may change, and the payment reference stays as it was. |
| `PendingState.Cancel` | src/main/java/project/hotel_reservations/reservation/state/PendingState.java:13-15 | Never throws and sets the status to CANCELLED. Only `status` may change. |
| `ConfirmedState.Confirm` | src/main/java/project/hotel_reservations/state/ConfirmedState.java:8-10 | Throws IllegalStateException "Reservation is already confirmed" and modifies nothing. |
| `ConfirmedState.Cancel` | src/main/java/project/hotel_reservations/state/ConfirmedState.java:13-15 | Sets the status to CANCELLED. An attached payment and every other field stay in place. |
| `CancelledState.Confirm` | src/main/java/project/hotel_reservations/reservation/state/CancelledState.java:7-9 | Throws IllegalStateException "Cancelled reservations cannot be confirmed" and modifies nothing. |
| `CancelledState.Cancel` | src/main/java/project/hotel_reservations/reservation/state/CancelledState.java:12-14 | Throws IllegalStateException "Reservation is already cancelled" and modifies nothing. |
| `ReservationStates.Transition` | src/main/java/project/hotel_reservations/reservation/state/ReservationStateFactory.java:8-12 | Dispatch through the handlers succeeds exactly from PENDING, or for cancel from CONFIRMED. Confirm then leads to CONFIRMED and cancel to CANCELLED; every refusal is an IllegalStateException. |
| `ReservationStates.Apply` | src/main/java/project/hotel_reservations/reservation/state/ReservationStateFactory.java:8-12 | `reservation.getState().confirm/cancel(reservation)` follows the transition table. On success the status is the table's next status and `getState()` is that status's handler. On failure the handler's exception is returned and the status is unchanged. The payment never changes. |
| `ReservationStates.LegalMoves` | src/main/java/project/hotel_reservations/reservation/state/ReservationStateFactory.java:8-12 | Confirm succeeds exactly from PENDING and leads to CONFIRMED. Cancel succeeds exactly from PENDING or CONFIRMED and leads to CANCELLED. |
| `ReservationStates.TwoStepSequences` | src/main/java/project/hotel_reservations/reservation/state/ReservationStateFactory.java:8-12 | Starting from PENDING: confirm-then-confirm fails, cancel-then-cancel fails, cancel-then-confirm fails, and confirm-then-cancel ends CANCELLED. |
| `ReservationStates.CancelledIsAbsorbing` | src/main/java/project/hotel_reservations/reservation/state/CancelledState.java:6-15 | No sequence of actions leads out of CANCELLED. |
| `ReservationStates.RunNeverGoesBack` | src/main/java/project/hotel_reservations/reservation/state/ReservationStateFactory.java:8-12 | Along any sequence of actions the status only moves forward: PENDING, then CONFIRMED, then CANCELLED. |
| `ReservationStates.ConfirmAcceptedAtMostOnce` | src/main/java/project/hotel_reservations/reservation/state/ReservationStateFactory.java:8-12 | In any sequence of actions at most one confirm is accepted, and none unless the reservation starts PENDING. |
| `JavaStrings.ToUpper` | src/main/java/project/hotel_reservations/factory/PaymentProcessorFactory.java:8 | `toUpperCase` keeps the length and upper-cases each character (ASCII letters only). |
| `JavaStrings.ToUpperEqualIff` | src/main/java/project/hotel_reservations/factory/PaymentProcessorFactory.java:8 | Two codes upper-case to the same string exactly when they are equal ignoring case, position by position. |
| `ProcessorFactory.GetProcessor` | src/main/java/project/hotel_reservations/factory/PaymentProcessorFactory.java:7-12 | The PayPal processor exactly when the upper-cased code is "PAYPAL", the Stripe processor exactly when it is "STRIPE". Otherwise IllegalArgumentException "Unsupported payment platform: " followed by the original, not upper-cased, code. |
| `ProcessorFactory.GetProcessorIgnoresCase` | src/main/java/project/hotel_reservations/factory/PaymentProcessorFactory.java:8-11 | Against the reference "equals ignoring case": PayPal iff the code is "PAYPAL" up to case, Stripe iff it is "STRIPE" up to case, and failure iff neither. |
| `ProcessorFactory.SameOutcomeUpToCase` | src/main/java/project/hotel_reservations/factory/PaymentProcessorFactory.java:8 | Codes that differ only in letter case get the same processor, or both fail. |
| `PaymentProcessorFactory.GetProcessor` | src/main/java/project/hotel_reservations/payment/factory/PaymentProcessorFactory.java:10-15 | The same mapping in the duplicate factory: PAYPAL and STRIPE up to case, otherwise the exception quoting the original code. |
| `PaymentProcessorFactory.SameAsServiceFactory` | src/main/java/project/hotel_reservations/payment/factory/PaymentProcessorFactory.java:10-16 | For every platform the duplicate gives the same answer as the copy the service uses: the corresponding processor, or the identical exception. |
| `PaymentProcessorFactory.SameOutcomeUpToCase` | src/main/java/project/hotel_reservations/payment/factory/PaymentProcessorFactory.java:11 | In the duplicate too, codes equal up to case get the same processor, or both fail. |
| `PaymentService.Precheck` | src/main/java/project/hotel_reservations/service/PaymentServiceImpl.java:36-64 | A request is rejected before any lookup in exactly three cases: a null reservation (NullPointerException at the first dereference), CASH with a platform id, or TRANSFER without one. Both IllegalArgumentException messages are the ones `processPayment` throws. |
| `PaymentService.PaymentServiceImpl.ProcessPayment` | src/main/java/project/hotel_reservations/service/PaymentServiceImpl.java:35-83 | A rejected request throws with no lookup and no save. An absent method returns null and saves nothing. CASH saves one payment with no platform and never consults the platform store. A TRANSFER to an unknown id throws EntityNotFoundException "Payment platform not found" after one lookup, and saves nothing. A code with no processor propagates the factory's exception and saves nothing. On TRANSFER success, exactly one payment is saved; it carries the looked-up platform, whether active or not. The call trace is then lookup, processor (once), save. Every saved payment has the request's amount, method and reservation. The store invariant holds: cash has no platform; a transfer has a platform with a processor. |
| `PaymentService.PaymentServiceImpl.Process` | src/main/java/project/hotel_reservations/factory/PayPalProcessor.java:10-13 | A processor run only records that it happened; it changes neither the payment nor any store. |
| `PaymentService.PaymentServiceImpl.Save` | src/main/java/project/hotel_reservations/service/PaymentServiceImpl.java:79 | `repository.save` appends the payment to the store and returns it. |
| `ReservationService.ReservationServiceImpl.Create` | src/main/java/project/hotel_reservations/service/ReservationServiceImpl.java:37-53 | A missing room throws "Room not found" whatever the guest. With the room present, a missing guest throws "Guest not found". On either failure the store is unchanged. The call succeeds exactly when both exist, with no check of the dates. On success exactly one fresh reservation is appended. It has the request's dates and people count, the found room and guest, status PENDING and no payment, and the returned record describes it. |
| `ReservationService.ReservationServiceImpl.FindById` | src/main/java/project/hotel_reservations/service/ReservationServiceImpl.java:76-80 | Succeeds exactly when a stored reservation has the id, and returns that reservation's record. Otherwise throws EntityNotFoundException "Reservation not found". |
| `ReservationService.ReservationServiceImpl.FindAll` | src/main/java/project/hotel_reservations/service/ReservationServiceImpl.java:61-66 | One record per stored reservation, in store order. |
| `HotelRepository.GetTotalEarningsByHotel` | src/main/java/project/hotel_reservations/repository/HotelRepository.java:12-19 | The query returns NULL exactly when no payment joins a reservation whose room is in the hotel; otherwise it returns the sum over the joined rows. |
| `HotelRepository.JoinedEmptyIff` | src/main/java/project/hotel_reservations/repository/HotelRepository.java:14-17 | The join yields no rows exactly when every payment joins no (reservation, room) pair of the hotel. |
| `HotelRepository.EarningsAreHotelPayments` | src/main/java/project/hotel_reservations/repository/HotelRepository.java:12-19 | With unique primary keys, the query equals the sum of `total_amount` over exactly the payments whose reservation's room belongs to the hotel, each counted once. The result is NULL when there is none. |
| `HotelRepository.JoinCountUnique` | src/main/java/project/hotel_reservations/repository/HotelRepository.java:15-16 | With unique keys a payment joins at most one (reservation, room) row pair, and joins one exactly when it belongs to the hotel. |
| `HotelRepository.NullIffNoHotelPayment` | src/main/java/project/hotel_reservations/repository/HotelRepository.java:13 | SUM over no rows: the result is NULL, not zero, exactly when no payment belongs to the hotel. |
| `HotelRepository.OtherHotelPaymentIgnored` | src/main/java/project/hotel_reservations/repository/HotelRepository.java:17 | Whatever the keys, a payment on another hotel's room (or on no room) changes nothing, wherever it sits in the table. |
| `HotelRepository.IgnoresStatusAndDeleted` | src/main/java/project/hotel_reservations/repository/HotelRepository.java:12-18 | The query filters on neither reservation status nor the room's `deleted` flag. Tables that agree on the joined columns give the same result. |
| `Dates.IsAfter` | src/main/java/project/hotel_reservations/validation/validator/DateRangeValidator.java:15 | On valid dates, `isAfter` holds exactly when the first date lies at a later position than the second on a line of 31-day months. |
| `Dates.PeriodYears` | src/main/java/project/hotel_reservations/validation/validator/AdultValidator.java:16 | On valid dates, the whole years of `Period.between(start, end)` are never negative when `end` is not before `start`, and never positive when it is. |
| `Dates.IsAfterByOrdinal` | src/main/java/project/hotel_reservations/validation/validator/DateRangeValidator.java:15 | `isAfter`, compared year, then month, then day, agrees with an independent ordinal order on valid dates. |
| `Dates.PeriodYearsAtLeast` | src/main/java/project/hotel_reservations/validation/validator/AdultValidator.java:16 | `Period.between(start, end).getYears() >= n` holds exactly when `end` is not before (start.year + n, start.month, start.day). |
| `DateRangeValidator.IsValid` | src/main/java/project/hotel_reservations/validation/validator/DateRangeValidator.java:10-16 | A missing date is valid. With both dates, the range is valid exactly when check-out lies strictly after check-in, against an independent ordinal order of dates; a same-day range is never valid. |
| `DateRangeValidator.SameDayInvalid` | src/main/java/project/hotel_reservations/validation/validator/DateRangeValidator.java:15 | A same-day range is invalid. |
| `DateRangeValidator.OnlyDatesMatter` | src/main/java/project/hotel_reservations/validation/validator/DateRangeValidator.java:10-15 | People count, room id and guest id never change the verdict. |
| `DateRangeValidator.LaterCheckOutStaysValid` | src/main/java/project/hotel_reservations/validation/validator/DateRangeValidator.java:15 | Moving check-out later keeps a valid range valid. |
| `AdultValidator.IsValid` | src/main/java/project/hotel_reservations/validation/validator/AdultValidator.java:12-17 | A null birth date is valid. Otherwise the date is valid exactly when today is on or after the 18th birthday (lexicographic on year, month, day). |
| `AdultValidator.AdultAgeReached` | src/main/java/project/hotel_reservations/validation/validator/AdultValidator.java:16 | At least 18 whole years by `Period.between` holds exactly when today is not before the 18th birthday. |
| `AdultValidator.ValidOnEighteenthBirthday` | src/main/java/project/hotel_reservations/validation/validator/AdultValidator.java:16 | On the 18th birthday itself the date is valid. |
| `AdultValidator.InvalidTheDayBefore` | src/main/java/project/hotel_reservations/validation/validator/AdultValidator.java:16 | The day before the 18th birthday (same month) the date is invalid. |
| `AdultValidator.FutureBirthInvalid` | src/main/java/project/hotel_reservations/validation/validator/AdultValidator.java:16 | A birth date after today is invalid. |
| `AdultValidator.ValidStaysValid` | src/main/java/project/hotel_reservations/validation/validator/AdultValidator.java:16 | Once valid, a birth date stays valid for every later today. |

## Left out

- Controllers, security (Spring Security wiring, JWT parsing) and the record-CRUD services, mappers and DTOs other than the fields used here: web plumbing and generated code. `ReservationDto` keeps the mapped scalar fields and the room and guest ids. It leaves out the nested payment record.
- Confirm and cancel orchestration in the reservation service, `findReservationsByRoom` and grouping by status: the service interface and its tests name them, but the implementation has no body for them. The tests expect `ReservationNotFoundException` where `findById` throws `EntityNotFoundException`; the model follows the implementation.
- Transactions, rollback and concurrent access: the model is sequential. Nothing is saved before a throw, and nothing more is claimed.
- Clock reads: the payment `date` set on persist and the user timestamps are not modelled. `AdultValidator` takes `today` as a parameter instead of reading `LocalDate.now()`.
- Logging in the payment service and in the processors. A processor run appears only as an entry in a ghost call trace.
- Identifier generation: `Create` takes the id the database will generate as a parameter and requires it to be unused.
- ReservationService.ReservationServiceImpl.Create: null room or guest ids are not modelled. The request's ids are never null here; Spring Data would reject a null id. The entity's NOT NULL columns `check_in_date`, `check_out_date` and `people_count` (Reservation.java:24-31) are not modelled either: with one of those fields missing, the model still stores the reservation, where `repository.save` would fail and store nothing. Requests reach the service with these fields set, because the creation DTO marks them `@NotNull` (ReservationCreateDTO.java:13-20).
- Room lookups through Hibernate's implicit soft-delete filter: the room store holds only the rooms that `findById` can return.
- Bean-validation annotations (`@NotNull`, `@Email`, ...). Only the two custom validators are modelled.
- JavaStrings.ToUpper: upper-cases ASCII letters only. Java's locale and Unicode case mapping are not modelled.
- Dates.Date: a date is valid when its month is in 1..12 and its day in 1..31. Month lengths and leap years are not checked, because neither `isAfter` nor the whole-years part of `Period.between` depends on them.
- Amounts are exact integers (cents); BigDecimal scale is not modelled.
- PaymentService.PaymentServiceImpl.ProcessPayment: `PaymentCreateDTO.totalAmount` carries no `@NotNull` (PaymentCreateDTO.java:12) and may be null in Java; the model's amount is an `int`, so a payment with a null amount is not modelled.
- The `ConfirmedState` class sits in package `state` while the factory lives in `reservation.state`. The model treats it as the factory's CONFIRMED handler.
