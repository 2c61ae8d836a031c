/** The payment-link request (services/payment.service.ts): the tolerant
    extraction of the link from the server's answer. */
module Payment {
  import opened Wrappers
  import opened Json

  /** The places a link may be, in the order they are tried. */
  function LinkCandidates(resp: Json): seq<Json> {
    [Get(resp, "PaymentLink"), Get(resp, "paymentLink"),
     Get(Get(resp, "data"), "paymentLink"), Get(Get(resp, "data"), "PaymentLink")]
  }

  /** `extractPaymentLink` */
  function ExtractPaymentLink(resp: Json): (link: Option<Json>)
    ensures link.Some? ==> Truthy(link.value)
  {
    if Truthy(Get(resp, "PaymentLink")) then Some(Get(resp, "PaymentLink"))
    else if Truthy(Get(resp, "paymentLink")) then Some(Get(resp, "paymentLink"))
    else if Truthy(Get(Get(resp, "data"), "paymentLink")) then Some(Get(Get(resp, "data"), "paymentLink"))
    else if Truthy(Get(Get(resp, "data"), "PaymentLink")) then Some(Get(Get(resp, "data"), "PaymentLink"))
    else None
  }

  /** The extraction picks the first truthy candidate: a top-level
      `PaymentLink` first, `paymentLink` only when that is absent or empty,
      the nested fields only after both; nothing when none is truthy. */
  lemma ExtractIsFirstTruthy(resp: Json)
    ensures ExtractPaymentLink(resp) == FirstTruthy(LinkCandidates(resp))
  {
    var c := LinkCandidates(resp);
    if Truthy(c[0]) {
      FirstTruthyIsFirst(c, 0);
    } else if Truthy(c[1]) {
      FirstTruthyIsFirst(c, 1);
    } else if Truthy(c[2]) {
      FirstTruthyIsFirst(c, 2);
    } else if Truthy(c[3]) {
      FirstTruthyIsFirst(c, 3);
    } else {
      assert forall i :: 0 <= i < |c| ==> !Truthy(c[i]);
    }
  }

  /** A returned string link is never empty. */
  lemma StringLinkNonEmpty(resp: Json)
    requires ExtractPaymentLink(resp).Some? && ExtractPaymentLink(resp).value.Str?
    ensures ExtractPaymentLink(resp).value.s != ""
  {
  }

  /** `createPaymentLink` after the request: the link, or the error. */
  function CreatePaymentLink(resp: Json): (r: Result<Json, string>)
    ensures r.Failure? <==> ExtractPaymentLink(resp).None?
    ensures r.Failure? ==> r.error == "Payment link not returned by server"
    ensures r.Success? ==> r.value == ExtractPaymentLink(resp).value
  {
    match ExtractPaymentLink(resp)
    case None => Failure("Payment link not returned by server")
    case Some(link) => Success(link)
  }
}
