/** The second `PaymentProcessorFactory`, in package `payment.factory`, which builds the
    processors of package `payment.processor`. Nothing calls it; it maps codes exactly as
    the `factory` copy does. */
module PaymentProcessorFactory {
  import opened Wrappers
  import opened Exceptions
  import opened JavaStrings
  import opened Model
  import ProcessorFactory

  datatype PaymentProcessor = PayPalProcessor | StripeProcessor

  const Unsupported: string := "Unsupported payment platform: "

  function GetProcessor(platform: PaymentPlatform): (r: Result<PaymentProcessor, Exception>)
    ensures r == Success(PayPalProcessor) <==> ToUpper(platform.code) == "PAYPAL"
    ensures r == Success(StripeProcessor) <==> ToUpper(platform.code) == "STRIPE"
    ensures r.Failure? ==> r.error == IllegalArgument(Unsupported + platform.code)
  {
    match ToUpper(platform.code)
    case "PAYPAL" => Success(PayPalProcessor)
    case "STRIPE" => Success(StripeProcessor)
    case _ => Failure(IllegalArgument(Unsupported + platform.code))
  }

  /** The same processor, under its counterpart in the `factory` package. */
  function Counterpart(p: PaymentProcessor): ProcessorFactory.PaymentProcessor {
    match p
    case PayPalProcessor => ProcessorFactory.PayPalProcessor
    case StripeProcessor => ProcessorFactory.StripeProcessor
  }

  /** Both copies give every platform the same answer: the corresponding processor, or
      the identical exception. */
  lemma SameAsServiceFactory(platform: PaymentPlatform)
    ensures GetProcessor(platform).Success? <==> ProcessorFactory.GetProcessor(platform).Success?
    ensures GetProcessor(platform).Success? ==>
              Counterpart(GetProcessor(platform).value) == ProcessorFactory.GetProcessor(platform).value
    ensures GetProcessor(platform).Failure? ==>
              GetProcessor(platform).error == ProcessorFactory.GetProcessor(platform).error
  {
  }

  /** Codes equal up to letter case get the same processor, or both fail. */
  lemma SameOutcomeUpToCase(a: PaymentPlatform, b: PaymentPlatform)
    requires EqualsIgnoreCase(a.code, b.code)
    ensures GetProcessor(a).Success? <==> GetProcessor(b).Success?
    ensures GetProcessor(a).Success? ==> GetProcessor(a).value == GetProcessor(b).value
  {
    ToUpperEqualIff(a.code, b.code);
  }
}
