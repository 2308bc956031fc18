/**
 The common part of both VPOS views: the endpoint mode, the base URL it selects,
 the request `load` hands to the web view, and the forwarding of every script
 message to the variant's decoder and from there to the (weakly held) delegate.
 */
module VposView {
  import opened Wrappers
  import opened Bridge
  import CardView
  import CheckoutView

  /** `VPOSMode`: which of the two endpoints a view talks to. */
  datatype Mode = Sandbox | Production

  /** The subclass a view is: card registration (`CardVPOSView`) or payment checkout (`CheckoutVPOSView`). */
  datatype Variant = Card | Checkout

  /** The `productionBaseURL` override of each subclass. */
  function ProductionBaseURL(variant: Variant): string {
    match variant
    case Card => CardView.ProductionBaseURL
    case Checkout => CheckoutView.ProductionBaseURL
  }

  /** The `sandboxBaseURL` override of each subclass. */
  function SandboxBaseURL(variant: Variant): string {
    match variant
    case Card => CardView.SandboxBaseURL
    case Checkout => CheckoutView.SandboxBaseURL
  }

  /**
   The `baseURL` getter: the production URL exactly in production mode and the
   sandbox URL exactly in sandbox mode. Every base URL starts with the service's
   host and ends in `?`, so an id appended to it lands in the query.
   */
  function Endpoint(variant: Variant, mode: Mode): (url: string)
    ensures mode == Production ==> url == ProductionBaseURL(variant)
    ensures mode == Sandbox ==> url == SandboxBaseURL(variant)
    ensures |Host| < |url| && url == Host + url[|Host|..]
    ensures url[|url| - 1] == '?'
  {
    match mode
    case Production => ProductionBaseURL(variant)
    case Sandbox => SandboxBaseURL(variant)
  }

  /** The four endpoints are pairwise distinct: the URL determines both the variant and the mode. */
  lemma EndpointDeterminesVariantAndMode(v1: Variant, m1: Mode, v2: Variant, m2: Mode)
    requires Endpoint(v1, m1) == Endpoint(v2, m2)
    ensures v1 == v2 && m1 == m2
  {
  }

  /** A `URLQueryItem`. */
  datatype QueryItem = QueryItem(name: string, value: string)

  /**
   `URLComponents` as far as `load` uses them: the string they were parsed from,
   and the query items once they have been assigned (None while the query is still
   the one parsed from `source`).
   */
  datatype UrlComponents = UrlComponents(source: string, queryItems: Option<seq<QueryItem>>)

  /** The value of the first query item with the given name. */
  function QueryValue(items: seq<QueryItem>, name: string): (v: Option<string>)
    ensures v.Some? <==> exists i :: 0 <= i < |items| && items[i].name == name
    ensures v.Some? ==> exists i :: 0 <= i < |items| && items[i] == QueryItem(name, v.value)
  {
    if items == [] then None
    else if items[0].name == name then Some(items[0].value)
    else QueryValue(items[1..], name)
  }

  /**
   The request `load(with:styles:)` issues, if any. `parses` stands for
   `URLComponents(string:)` succeeding, `styleText` for the pretty-printed JSON of the
   styles (None when encoding fails), and `formsUrl` for the components' `url` being
   non-nil. The base URL and the id are concatenated as they are; when the styles
   encode, the query is replaced by exactly `process_id` then `styles`; otherwise no
   query item is set, `process_id` included.
   */
  function LoadRequest(baseURL: string, processId: string, styleText: Option<string>,
                       parses: string -> bool, formsUrl: UrlComponents -> bool): (r: Option<UrlComponents>)
    ensures !parses(baseURL + processId) ==> r.None?
    ensures r.Some? ==> r.value.source == baseURL + processId && formsUrl(r.value)
    ensures r.Some? ==> (r.value.queryItems.Some? <==> styleText.Some?)
    ensures r.Some? && styleText.Some? ==>
      r.value.queryItems == Some([QueryItem(ProcessIdKey, processId), QueryItem(StylesKey, styleText.value)])
    ensures r.None? && parses(baseURL + processId) ==>
      !formsUrl(UrlComponents(baseURL + processId,
        if styleText.Some? then Some([QueryItem(ProcessIdKey, processId), QueryItem(StylesKey, styleText.value)])
        else None))
  {
    var source := baseURL + processId;
    if !parses(source) then None
    else
      var components := match styleText
        case Some(text) => UrlComponents(source, Some([QueryItem(ProcessIdKey, processId), QueryItem(StylesKey, text)]))
        case None => UrlComponents(source, None);
      if formsUrl(components) then Some(components) else None
  }

  /** When the styles encode, the issued URL's query gives back the id and the style text under their keys. */
  lemma QueryRoundTrip(baseURL: string, processId: string, styleText: string,
                       parses: string -> bool, formsUrl: UrlComponents -> bool)
    requires LoadRequest(baseURL, processId, Some(styleText), parses, formsUrl).Some?
    ensures var items := LoadRequest(baseURL, processId, Some(styleText), parses, formsUrl).value.queryItems.value;
      QueryValue(items, ProcessIdKey) == Some(processId) && QueryValue(items, StylesKey) == Some(styleText)
  {
  }

  /** `process_id` reaches the query items exactly when the styles encode: both items or neither. */
  lemma ProcessIdOnlyWithStyles(baseURL: string, processId: string, styleText: Option<string>,
                                parses: string -> bool, formsUrl: UrlComponents -> bool)
    requires LoadRequest(baseURL, processId, styleText, parses, formsUrl).Some?
    ensures var q := LoadRequest(baseURL, processId, styleText, parses, formsUrl).value.queryItems;
      (q.Some? && QueryValue(q.value, ProcessIdKey).Some?) <==> styleText.Some?
  {
  }

  /** One delegate call, of either variant's delegate protocol. */
  datatype Call = CardCall(card: CardView.CardOutcome) | CheckoutCall(checkout: CheckoutView.CheckoutOutcome)

  /**
   The delegate calls one script message causes: the variant's decoder picks at most
   one outcome, and it is delivered only when a delegate is present.
   */
  function Handle(variant: Variant, delegatePresent: bool, msg: ScriptMessage): (calls: seq<Call>)
    ensures |calls| <= 1
    ensures !delegatePresent || msg.name != HandlerName ==> calls == []
    ensures delegatePresent ==> (|calls| == 1 <==> ReadEnvelope(msg).Some?)
    ensures |calls| == 1 && variant == Card ==> calls[0] == CardCall(CardView.Decode(msg).value)
    ensures |calls| == 1 && variant == Checkout ==> calls[0] == CheckoutCall(CheckoutView.Decode(msg).value)
  {
    if !delegatePresent then []
    else match variant
      case Card =>
        (match CardView.Decode(msg)
         case Some(o) => [CardCall(o)]
         case None => [])
      case Checkout =>
        (match CheckoutView.Decode(msg)
         case Some(o) => [CheckoutCall(o)]
         case None => [])
  }

  /**
   The delegate calls a stream of script messages causes, in arrival order: each
   message is handled on its own, with no memory of earlier ones.
   */
  function Deliver(variant: Variant, delegatePresent: bool, msgs: seq<ScriptMessage>): (calls: seq<Call>)
    ensures |calls| <= |msgs|
    ensures !delegatePresent ==> calls == []
  {
    if msgs == [] then []
    else Deliver(variant, delegatePresent, msgs[..|msgs| - 1]) + Handle(variant, delegatePresent, msgs[|msgs| - 1])
  }

  /** Handling is stateless: the calls of two consecutive streams are the calls of each, concatenated. */
  lemma {:induction false} DeliverConcat(variant: Variant, present: bool, a: seq<ScriptMessage>, b: seq<ScriptMessage>)
    ensures Deliver(variant, present, a + b) == Deliver(variant, present, a) + Deliver(variant, present, b)
  {
    if b == [] {
      assert a + b == a;
    } else {
      var n := |b|;
      assert (a + b)[..|a + b| - 1] == a + b[..n - 1];
      assert (a + b)[|a + b| - 1] == b[n - 1];
      DeliverConcat(variant, present, a, b[..n - 1]);
    }
  }

  /**
   No deduplication: a message that passes the guard, delivered n times to a present
   delegate, causes n identical calls.
   */
  lemma {:induction false} RepeatedMessageRepeatsCall(variant: Variant, msg: ScriptMessage, n: nat)
    requires ReadEnvelope(msg).Some?
    ensures var calls := Deliver(variant, true, seq(n, _ => msg));
      |calls| == n && forall i :: 0 <= i < n ==> calls[i] == Handle(variant, true, msg)[0]
  {
    if n > 0 {
      var msgs := seq(n, _ => msg);
      assert msgs[..n - 1] == seq(n - 1, _ => msg);
      RepeatedMessageRepeatsCall(variant, msg, n - 1);
    }
  }

  /** The delegate, reduced to the calls it has received so far. */
  class Delegate {
    var received: seq<Call>

    constructor ()
      ensures received == []
    {
      received := [];
    }
  }

  /**
   A VPOS view: its variant (fixed at construction), its mode, its weakly held
   delegate (null once released or never set), and the requests it has handed to
   its web view so far.
   */
  class View {
    const variant: Variant
    var mode: Mode
    var delegate: Delegate?
    var loads: seq<UrlComponents>

    /** A new view talks to production, has no delegate and has loaded nothing. */
    constructor (variant: Variant)
      ensures this.variant == variant && mode == Production && delegate == null && loads == []
    {
      this.variant := variant;
      mode := Production;
      delegate := null;
      loads := [];
    }

    /** The `baseURL` of this view in its current mode. */
    function BaseURL(): string
      reads this
    {
      Endpoint(variant, mode)
    }

    /**
     `load(with:styles:)`: builds the components from the base URL and the id, sets
     the query items when the styles encode, and hands the request to the web view
     unless no URL can be formed. `encode` stands for the JSON encoder.
     */
    method Load(processId: string, styles: map<string, string>, encode: map<string, string> -> Option<string>,
                parses: string -> bool, formsUrl: UrlComponents -> bool) returns (request: Option<UrlComponents>)
      modifies this`loads
      ensures request == LoadRequest(Endpoint(variant, mode), processId, encode(styles), parses, formsUrl)
      ensures loads == old(loads) + (if request.Some? then [request.value] else [])
    {
      var source := BaseURL() + processId;
      var urlComponents: Option<UrlComponents> := if parses(source) then Some(UrlComponents(source, None)) else None;
      var styleString := encode(styles);
      if styleString.Some? && urlComponents.Some? {
        urlComponents := Some(urlComponents.value.(queryItems :=
          Some([QueryItem(ProcessIdKey, processId), QueryItem(StylesKey, styleString.value)])));
      }
      if urlComponents.None? || !formsUrl(urlComponents.value) {
        return None;
      }
      request := urlComponents;
      loads := loads + [urlComponents.value];
    }

    /** `handleMessage` of the view's subclass: at most one call on the delegate, if there is one. */
    method HandleMessage(msg: ScriptMessage)
      modifies delegate
      ensures delegate != null ==> delegate.received == old(delegate.received) + Handle(variant, true, msg)
    {
      match variant {
        case Card =>
          var outcome := CardView.Decode(msg);
          if outcome.Some? && delegate != null {
            delegate.received := delegate.received + [CardCall(outcome.value)];
          }
        case Checkout =>
          var outcome := CheckoutView.Decode(msg);
          if outcome.Some? && delegate != null {
            delegate.received := delegate.received + [CheckoutCall(outcome.value)];
          }
      }
    }

    /** `userContentController(_:didReceive:)`: every script message goes to `handleMessage`, once and unchanged. */
    method DidReceive(msg: ScriptMessage)
      modifies delegate
      ensures delegate != null ==> delegate.received == old(delegate.received) + Handle(variant, true, msg)
    {
      HandleMessage(msg);
    }
  }
}
