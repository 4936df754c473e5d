/** `PaymentProcessorFactory.getProcessor` in package `factory`, the copy the payment
    service uses. The processors themselves only log, so a processor is just its kind. */
module ProcessorFactory {
  import opened Wrappers
  import opened Exceptions
  import opened JavaStrings
  import opened Model

  datatype PaymentProcessor = PayPalProcessor | StripeProcessor

  const Unsupported: string := "Unsupported payment platform: "

  /** Switch on the upper-cased code: PAYPAL and STRIPE have a processor; any other code
      throws IllegalArgumentException quoting the code as the platform holds it. */
  function GetProcessor(platform: PaymentPlatform): (r: Result<PaymentProcessor, Exception>)
    ensures r == Success(PayPalProcessor) <==> ToUpper(platform.code) == "PAYPAL"
    ensures r == Success(StripeProcessor) <==> ToUpper(platform.code) == "STRIPE"
    ensures r.Failure? ==> r.error == IllegalArgument(Unsupported + platform.code)
  {
    match ToUpper(platform.code)
    case "PAYPAL" => Success(PayPalProcessor)
    case "STRIPE" => Success(StripeProcessor)
    case _ => Failure(IllegalArgument(Unsupported + platform.code))
  }

  /** Against the reference "equals ignoring case": a platform gets the PayPal processor
      exactly when its code is "PAYPAL" up to case, the Stripe one exactly when it is
      "STRIPE" up to case, and an error otherwise. */
  lemma GetProcessorIgnoresCase(platform: PaymentPlatform)
    ensures GetProcessor(platform) == Success(PayPalProcessor) <==> EqualsIgnoreCase(platform.code, "PAYPAL")
    ensures GetProcessor(platform) == Success(StripeProcessor) <==> EqualsIgnoreCase(platform.code, "STRIPE")
    ensures GetProcessor(platform).Failure? <==>
              !EqualsIgnoreCase(platform.code, "PAYPAL") && !EqualsIgnoreCase(platform.code, "STRIPE")
  {
    ToUpperIsIgnoreCase(platform.code, "PAYPAL");
    ToUpperIsIgnoreCase(platform.code, "STRIPE");
  }

  /** Two platforms whose codes differ only in letter case get the same processor, or
      both fail. */
  lemma SameOutcomeUpToCase(a: PaymentPlatform, b: PaymentPlatform)
    requires EqualsIgnoreCase(a.code, b.code)
    ensures GetProcessor(a).Success? <==> GetProcessor(b).Success?
    ensures GetProcessor(a).Success? ==> GetProcessor(a).value == GetProcessor(b).value
  {
    ToUpperEqualIff(a.code, b.code);
  }
}
