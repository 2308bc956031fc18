/**
 The message bridge shared by both VPOS views: the fixed keys of the wire format,
 the channel name the injected script posts to, the untyped message body, and the
 guard chain of lookups and casts that both decoders start with.
 */
module Bridge {
  import opened Wrappers

  // VPOSKeys: keys used for decoding inbound messages and encoding the outbound query.
  const PayloadKey := "payload"
  const PaymentSuccess := "payment_success"
  const CreationSuccess := "add_new_card_success"
  const ReturnUrlKey := "return_url"
  const DetailsKey := "details"
  const MessageKey := "message"
  const ProcessIdKey := "process_id"
  const StylesKey := "styles"

  /** The host of the VPOS service, shared by every base URL, before any port or path. */
  const Host := "https://vpos.infonet.com.py"

  /** Identifier of the script-message channel from the web content to native code. */
  const HandlerName := "callbackHandler"

  /**
   The untyped body of a script message, as the web view hands it over: a string,
   a dictionary with string keys, or anything else (numbers, arrays, null, booleans),
   which no cast in the bridge accepts.
   */
  datatype Value = Str(s: string) | Dict(entries: map<string, Value>) | Other

  /** A script message: the channel it was posted on and its body. */
  datatype ScriptMessage = ScriptMessage(name: string, body: Value)

  /** What survives the guard chain: the status tag, the return URL and the payload dictionary. */
  datatype Envelope = Envelope(result: string, returnURL: string, payload: map<string, Value>)

  /** `value[key] as? [String: Any]` applied to a dictionary. */
  function DictAt(entries: map<string, Value>, key: string): Option<map<string, Value>> {
    if key in entries && entries[key].Dict? then Some(entries[key].entries) else None
  }

  /** `value[key] as? String` applied to a dictionary. */
  function StrAt(entries: map<string, Value>, key: string): Option<string> {
    if key in entries && entries[key].Str? then Some(entries[key].s) else None
  }

  /**
   The guard shared by both decoders: the channel must be the bridge's, the body a
   dictionary whose `payload` is a dictionary holding the string fields `message` and
   `return_url`. Any mismatch yields None, and nothing is reported.
   */
  function ReadEnvelope(msg: ScriptMessage): (r: Option<Envelope>)
    ensures msg.name != HandlerName ==> r.None?
    ensures !msg.body.Dict? ==> r.None?
    ensures r.Some? <==>
      && msg.name == HandlerName
      && msg.body.Dict?
      && PayloadKey in msg.body.entries
      && msg.body.entries[PayloadKey].Dict?
      && MessageKey in msg.body.entries[PayloadKey].entries
      && msg.body.entries[PayloadKey].entries[MessageKey].Str?
      && ReturnUrlKey in msg.body.entries[PayloadKey].entries
      && msg.body.entries[PayloadKey].entries[ReturnUrlKey].Str?
    ensures r.Some? ==>
      && msg.body.entries[PayloadKey] == Dict(r.value.payload)
      && r.value.payload[MessageKey] == Str(r.value.result)
      && r.value.payload[ReturnUrlKey] == Str(r.value.returnURL)
  {
    if msg.name != HandlerName || !msg.body.Dict? then None
    else match DictAt(msg.body.entries, PayloadKey)
      case None => None
      case Some(payload) =>
        match (StrAt(payload, MessageKey), StrAt(payload, ReturnUrlKey))
        case (Some(result), Some(returnURL)) => Some(Envelope(result, returnURL, payload))
        case _ => None
  }

  /**
   The message the injected script posts on the bridge channel:
   `{ "payload": { "message": result, "return_url": returnURL [, "details": d] } }`.
   */
  function WireMessage(result: string, returnURL: string, details: Option<string>): (msg: ScriptMessage)
    ensures msg.name == HandlerName
  {
    var fields := map[MessageKey := Str(result), ReturnUrlKey := Str(returnURL)];
    var payload := if details.Some? then fields[DetailsKey := Str(details.value)] else fields;
    ScriptMessage(HandlerName, Dict(map[PayloadKey := Dict(payload)]))
  }

  /** Every wire message passes the guard, with its own tag, return URL and details. */
  lemma WireMessagePassesGuard(result: string, returnURL: string, details: Option<string>)
    ensures ReadEnvelope(WireMessage(result, returnURL, details)).Some?
    ensures ReadEnvelope(WireMessage(result, returnURL, details)).value.result == result
    ensures ReadEnvelope(WireMessage(result, returnURL, details)).value.returnURL == returnURL
    ensures StrAt(ReadEnvelope(WireMessage(result, returnURL, details)).value.payload, DetailsKey) == details
  {
  }

  /** A message on any other channel never passes the guard, whatever its body. */
  lemma OtherChannelDropped(msg: ScriptMessage, name: string)
    requires name != HandlerName
    ensures ReadEnvelope(msg.(name := name)).None?
  {
  }
}
