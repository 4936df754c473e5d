/** `PaymentServiceImpl.processPayment`: build a payment from the request, check the
    method against the platform id, look the platform up and run its processor for a
    transfer, then save. The payment store is a sequence of saved payments in save order;
    the platform store a map from id to platform. */
module PaymentService {
  import opened Wrappers
  import opened Exceptions
  import opened Model
  import ProcessorFactory

  /** `PaymentCreateDTO`. */
  datatype PaymentCreateRequest = PaymentCreateRequest(
    totalAmount: int,
    paymentMethod: Option<PaymentMethod>,
    reservation: Reservation?,
    paymentPlatformId: Option<Uuid>)

  /** What `processPayment` does with a request: return the saved payment, return null,
      or throw. */
  datatype PaymentResult = Saved(payment: Payment) | NullResult | Thrown(error: Exception)

  /** Calls on the two repositories and on the processor, in order. */
  datatype Event = PlatformLookup(id: Uuid) | Processed(processor: ProcessorFactory.PaymentProcessor) | PaymentSaved

  const CashWithPlatform: string := "CASH payments must not specify a payment platform"
  const TransferWithoutPlatform: string := "TRANSFER payments require a payment platform"
  const PlatformNotFound: string := "Payment platform not found"

  /** The checks that reject a request, in the order `processPayment` makes them, before
      anything is looked up or saved. */
  function Precheck(req: PaymentCreateRequest): (r: Option<Exception>)
    ensures req.reservation == null ==> r == Some(NullPointer)
    ensures req.reservation != null && r.Some? ==>
              (req.paymentMethod == Some(Cash) && req.paymentPlatformId.Some?
               && r.value == IllegalArgument(CashWithPlatform))
              || (req.paymentMethod == Some(Transfer) && req.paymentPlatformId.None?
                  && r.value == IllegalArgument(TransferWithoutPlatform))
    ensures r.None? <==>
              req.reservation != null
              && (req.paymentMethod == Some(Cash) ==> req.paymentPlatformId.None?)
              && (req.paymentMethod == Some(Transfer) ==> req.paymentPlatformId.Some?)
  {
    if req.reservation == null then Some(NullPointer)
    else if req.paymentMethod == Some(Cash) && req.paymentPlatformId.Some? then
      Some(IllegalArgument(CashWithPlatform))
    else if req.paymentMethod == Some(Transfer) && req.paymentPlatformId.None? then
      Some(IllegalArgument(TransferWithoutPlatform))
    else None
  }

  /** Every saved payment is consistent with its method: a cash payment has no platform;
      a transfer carries a platform whose code has a processor. */
  ghost predicate Consistent(p: Payment)
    reads p
  {
    && (p.paymentMethod == Some(Cash) ==> p.paymentPlatform.None?)
    && (p.paymentMethod == Some(Transfer) ==>
          p.paymentPlatform.Some? && ProcessorFactory.GetProcessor(p.paymentPlatform.value).Success?)
    && p.paymentMethod.Some?
  }

  class PaymentServiceImpl {
    var payments: seq<Payment>
    var platforms: map<Uuid, PaymentPlatform>
    ghost var events: seq<Event>

    ghost predicate Valid()
      reads this, payments
    {
      forall i :: 0 <= i < |payments| ==> Consistent(payments[i])
    }

    constructor (platforms: map<Uuid, PaymentPlatform>)
      ensures Valid() && this.platforms == platforms && payments == [] && events == []
    {
      this.platforms := platforms;
      payments := [];
      events := [];
    }

    /** `processor.process(entity)`: both processors only log. */
    method Process(processor: ProcessorFactory.PaymentProcessor, entity: Payment)
      modifies this`events
      ensures events == old(events) + [Processed(processor)]
    {
      events := events + [Processed(processor)];
    }

    /** `repository.save(entity)`: appends the payment to the store. */
    method Save(entity: Payment) returns (saved: Payment)
      modifies this`payments, this`events
      ensures saved == entity
      ensures payments == old(payments) + [entity] && events == old(events) + [PaymentSaved]
    {
      payments := payments + [entity];
      events := events + [PaymentSaved];
      saved := entity;
    }

    method ProcessPayment(req: PaymentCreateRequest) returns (result: PaymentResult)
      requires Valid()
      modifies this`payments, this`events
      ensures Valid() && platforms == old(platforms)
      // A rejected request throws before any lookup or save.
      ensures Precheck(req).Some? ==>
                result == Thrown(Precheck(req).value) && payments == old(payments) && events == old(events)
      // Absent method: null, and nothing looked up or saved.
      ensures Precheck(req).None? && req.paymentMethod.None? ==>
                result == NullResult && payments == old(payments) && events == old(events)
      // Cash: saved directly with no platform; the platform store is never consulted.
      ensures Precheck(req).None? && req.paymentMethod == Some(Cash) ==>
                && result.Saved? && fresh(result.payment)
                && result.payment.paymentPlatform.None?
                && payments == old(payments) + [result.payment]
                && events == old(events) + [PaymentSaved]
      // Transfer to an unknown platform id: not found, nothing saved.
      ensures Precheck(req).None? && req.paymentMethod == Some(Transfer)
              && req.paymentPlatformId.value !in platforms ==>
                && result == Thrown(EntityNotFound(PlatformNotFound))
                && payments == old(payments)
                && events == old(events) + [PlatformLookup(req.paymentPlatformId.value)]
      // Transfer to a platform whose code has no processor: the factory's exception, nothing saved.
      ensures Precheck(req).None? && req.paymentMethod == Some(Transfer)
              && req.paymentPlatformId.value in platforms
              && ProcessorFactory.GetProcessor(platforms[req.paymentPlatformId.value]).Failure? ==>
                && result == Thrown(ProcessorFactory.GetProcessor(platforms[req.paymentPlatformId.value]).error)
                && payments == old(payments)
                && events == old(events) + [PlatformLookup(req.paymentPlatformId.value)]
      // Transfer success: the looked-up platform (active or not) is attached, its processor
      // runs once, then the payment is saved.
      ensures Precheck(req).None? && req.paymentMethod == Some(Transfer)
              && req.paymentPlatformId.value in platforms
              && ProcessorFactory.GetProcessor(platforms[req.paymentPlatformId.value]).Success? ==>
                && result.Saved? && fresh(result.payment)
                && result.payment.paymentPlatform == Some(platforms[req.paymentPlatformId.value])
                && payments == old(payments) + [result.payment]
                && events == old(events) + [PlatformLookup(req.paymentPlatformId.value),
                                            Processed(ProcessorFactory.GetProcessor(platforms[req.paymentPlatformId.value]).value),
                                            PaymentSaved]
      // A saved payment carries the request's amount, method and reservation.
      ensures result.Saved? ==>
                && result.payment.totalAmount == req.totalAmount
                && result.payment.paymentMethod == req.paymentMethod
                && result.payment.reservation == req.reservation
    {
      if req.reservation == null {
        return Thrown(NullPointer);
      }
      var entity := new Payment.Build(req.totalAmount, req.paymentMethod, req.reservation);

      if entity.paymentMethod == Some(Cash) {
        if req.paymentPlatformId.Some? {
          return Thrown(IllegalArgument(CashWithPlatform));
        }
        var saved := Save(entity);
        return Saved(saved);
      }

      if entity.paymentMethod == Some(Transfer) {
        if req.paymentPlatformId.None? {
          return Thrown(IllegalArgument(TransferWithoutPlatform));
        }
        var id := req.paymentPlatformId.value;
        events := events + [PlatformLookup(id)];
        if id !in platforms {
          return Thrown(EntityNotFound(PlatformNotFound));
        }
        var platform := platforms[id];
        entity.paymentPlatform := Some(platform);

        var processor := ProcessorFactory.GetProcessor(platform);
        if processor.Failure? {
          return Thrown(processor.error);
        }
        Process(processor.value, entity);
        var saved := Save(entity);
        return Saved(saved);
      }

      return NullResult;
    }
  }
}
