/**
 The payment-checkout view: its two fixed base URLs and its decoder, which turns a
 script message into at most one call on a `CheckoutVPOSDelegate`.
 */
module CheckoutView {
  import opened Wrappers
  import opened Bridge

  /** The two calls of a checkout delegate: `paymentSuccess` and `paymentFailed`. */
  datatype CheckoutOutcome = Success(returnURL: string) | Failure(returnURL: string)

  const ProductionBaseURL := "https://vpos.infonet.com.py/checkout/new?"
  const SandboxBaseURL := "https://vpos.infonet.com.py:8888/checkout/new?"

  /** The path both endpoints share after the host (and, in the sandbox, the port). */
  const Path := "/checkout/new?"

  lemma ProductionIsHostAndPath()
    ensures ProductionBaseURL == Host + Path
  {
  }

  lemma SandboxIsHostPortAndPath()
    ensures SandboxBaseURL == Host + ":8888" + Path
  {
  }

  /** The sandbox URL is the production URL with the port `:8888` inserted after the host. */
  lemma SandboxAddsOnlyPort()
    ensures |Host| <= |ProductionBaseURL|
    ensures SandboxBaseURL == Host + ":8888" + ProductionBaseURL[|Host|..]
  {
    ProductionIsHostAndPath();
    SandboxIsHostPortAndPath();
    assert ProductionBaseURL[|Host|..] == Path;
  }

  /**
   `handleMessage` of the checkout view: a message that fails the guard is dropped;
   the tag "payment_success" is a success, and every other tag is a failure.
   */
  function Decode(msg: ScriptMessage): (r: Option<CheckoutOutcome>)
    ensures r.Some? <==> ReadEnvelope(msg).Some?
    ensures r.Some? ==> r.value.returnURL == ReadEnvelope(msg).value.returnURL
    ensures r.Some? ==> (r.value.Success? <==> ReadEnvelope(msg).value.result == PaymentSuccess)
  {
    match ReadEnvelope(msg)
    case None => None
    case Some(e) =>
      if e.result == PaymentSuccess then Some(Success(e.returnURL))
      else Some(Failure(e.returnURL))
  }

  /** The success message of the wire format decodes to exactly that success. */
  lemma SuccessMessageDecoded(returnURL: string, details: Option<string>)
    ensures Decode(WireMessage(PaymentSuccess, returnURL, details)) == Some(Success(returnURL))
  {
  }

  /** Any other tag decodes to a failure with the message's return URL. */
  lemma OtherTagDecodedAsFailure(result: string, returnURL: string, details: Option<string>)
    requires result != PaymentSuccess
    ensures Decode(WireMessage(result, returnURL, details)) == Some(Failure(returnURL))
  {
  }

  /** The card view's success tag is just another failure to the checkout view. */
  lemma CardSuccessTagIsFailure(returnURL: string)
    ensures Decode(WireMessage(CreationSuccess, returnURL, None)) == Some(Failure(returnURL))
  {
  }

  /** A body without a `payload` entry, or whose `payload` is not a dictionary, is dropped. */
  lemma MissingPayloadDropped(msg: ScriptMessage)
    requires msg.body.Dict? ==> PayloadKey !in msg.body.entries || !msg.body.entries[PayloadKey].Dict?
    ensures Decode(msg).None?
  {
  }

  /** A payload whose `message` or `return_url` is missing or not a string is dropped. */
  lemma MissingFieldDropped(name: string, payload: map<string, Value>)
    requires StrAt(payload, MessageKey).None? || StrAt(payload, ReturnUrlKey).None?
    ensures Decode(ScriptMessage(name, Dict(map[PayloadKey := Dict(payload)]))).None?
  {
  }

  /**
   `details` is never read: two messages that agree on the tag and the return URL
   decode alike, whatever else their payloads hold.
   */
  lemma DecodeIgnoresDetails(m1: ScriptMessage, m2: ScriptMessage)
    requires ReadEnvelope(m1).Some? && ReadEnvelope(m2).Some?
    requires ReadEnvelope(m1).value.result == ReadEnvelope(m2).value.result
    requires ReadEnvelope(m1).value.returnURL == ReadEnvelope(m2).value.returnURL
    ensures Decode(m1) == Decode(m2)
  {
  }
}
