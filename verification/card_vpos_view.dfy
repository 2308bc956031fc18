/**
 The card-registration view: its two fixed base URLs and its decoder, which turns a
 script message into at most one call on a `CardVPOSDelegate`.
 */
module CardView {
  import opened Wrappers
  import opened Bridge

  /** The two calls of a card delegate: `cardCreationSuccess` and `cardCreationFailed`. */
  datatype CardOutcome = Success(returnURL: string) | Failure(details: string, returnURL: string)

  const ProductionBaseURL := "https://vpos.infonet.com.py/checkout/register_card/new?"
  const SandboxBaseURL := "https://vpos.infonet.com.py:8888/checkout/register_card/new?"

  /** The path both endpoints share after the host (and, in the sandbox, the port). */
  const Path := "/checkout/register_card/new?"

  lemma ProductionIsHostAndPath()
    ensures ProductionBaseURL == Host + Path
  {
  }

  lemma SandboxIsHostPortAndPath()
    ensures SandboxBaseURL == Host + ":8888" + Path
  {
  }

  /** The sandbox URL is the production URL with the port `:8888` inserted after the host. */
  lemma SandboxAddsOnlyPort()
    ensures |Host| <= |ProductionBaseURL|
    ensures SandboxBaseURL == Host + ":8888" + ProductionBaseURL[|Host|..]
  {
    ProductionIsHostAndPath();
    SandboxIsHostPortAndPath();
    assert ProductionBaseURL[|Host|..] == Path;
  }

  /** The optional `details` string of a failure; absent or not a string reads as "". */
  function Details(payload: map<string, Value>): (d: string)
    ensures DetailsKey in payload && payload[DetailsKey].Str? ==> d == payload[DetailsKey].s
    ensures !(DetailsKey in payload && payload[DetailsKey].Str?) ==> d == ""
  {
    match StrAt(payload, DetailsKey)
    case Some(d) => d
    case None => ""
  }

  /**
   `handleMessage` of the card view: a message that fails the guard is dropped; the
   tag "add_new_card_success" is a success, and every other tag is a failure.
   */
  function Decode(msg: ScriptMessage): (r: Option<CardOutcome>)
    ensures r.Some? <==> ReadEnvelope(msg).Some?
    ensures r.Some? ==> r.value.returnURL == ReadEnvelope(msg).value.returnURL
    ensures r.Some? ==> (r.value.Success? <==> ReadEnvelope(msg).value.result == CreationSuccess)
    ensures r.Some? && r.value.Failure? ==> r.value.details == Details(ReadEnvelope(msg).value.payload)
  {
    match ReadEnvelope(msg)
    case None => None
    case Some(e) =>
      if e.result == CreationSuccess then Some(Success(e.returnURL))
      else Some(Failure(Details(e.payload), e.returnURL))
  }

  /** The success message of the wire format decodes to exactly that success, whatever details it carries. */
  lemma SuccessMessageDecoded(returnURL: string, details: Option<string>)
    ensures Decode(WireMessage(CreationSuccess, returnURL, details)) == Some(Success(returnURL))
  {
  }

  /** Any other tag decodes to a failure carrying the message's details, or "" when it has none. */
  lemma OtherTagDecodedAsFailure(result: string, returnURL: string, details: Option<string>)
    requires result != CreationSuccess
    ensures Decode(WireMessage(result, returnURL, details))
         == Some(Failure(if details.Some? then details.value else "", returnURL))
  {
  }

  /** A body without a `payload` entry, or whose `payload` is not a dictionary, is dropped. */
  lemma MissingPayloadDropped(msg: ScriptMessage)
    requires msg.body.Dict? ==> PayloadKey !in msg.body.entries || !msg.body.entries[PayloadKey].Dict?
    ensures Decode(msg).None?
  {
  }

  /** A payload whose `message` or `return_url` is missing or not a string is dropped. */
  lemma MissingFieldDropped(name: string, payload: map<string, Value>)
    requires StrAt(payload, MessageKey).None? || StrAt(payload, ReturnUrlKey).None?
    ensures Decode(ScriptMessage(name, Dict(map[PayloadKey := Dict(payload)]))).None?
  {
  }

  /**
   The outcome depends on nothing but the tag, the return URL and the details
   string: two messages that agree on those decode alike.
   */
  lemma DecodeDeterminedByFields(m1: ScriptMessage, m2: ScriptMessage)
    requires ReadEnvelope(m1).Some? && ReadEnvelope(m2).Some?
    requires ReadEnvelope(m1).value.result == ReadEnvelope(m2).value.result
    requires ReadEnvelope(m1).value.returnURL == ReadEnvelope(m2).value.returnURL
    requires StrAt(ReadEnvelope(m1).value.payload, DetailsKey) == StrAt(ReadEnvelope(m2).value.payload, DetailsKey)
    ensures Decode(m1) == Decode(m2)
  {
  }
}
