# Bancard VPOS connector: the message bridge

A Dafny model of the message bridge of the Bancard VPOS iOS connector. The connector
is a view that hosts the VPOS web form (card registration or payment checkout) and
does two things of substance:

- **outbound**: `load(with:styles:)` builds the URL of the form from the base URL of
  the view's variant and mode, the process id, and the JSON-encoded styles, and hands
  it to the web view;
- **inbound**: every script message the web content posts goes to `handleMessage`,
  which drops anything malformed and otherwise makes exactly one call on the weakly
  held delegate: success or failure, with the return URL (and, for cards, the details).

Modules:

- `Wrappers` (`wrappers.dfy`): `Option`.
- `Bridge` (`bridge.dfy`): the `VPOSKeys` constants, the channel name
  `"callbackHandler"`, the untyped message body `Value` (string, dictionary, or
  anything else), `ScriptMessage`, and `ReadEnvelope`, the guard chain of lookups and
  casts both decoders share. `WireMessage` builds the message the injected script
  posts (`{payload: {message, return_url[, details]}}`); it is the decoders' partner.
- `CardView` (`card_vpos_view.dfy`): the card base URLs and the card decoder.
- `CheckoutView` (`checkout_vpos_view.dfy`): the checkout base URLs and the checkout decoder.
- `VposView` (`vpos_view.dfy`): `Mode`, the `baseURL` switch (`Endpoint`), the request
  that `load` issues (`LoadRequest`), the delegate calls one message causes (`Handle`)
  and a stream of messages causes (`Deliver`), and the class `View` with its mutable
  `mode`, its nullable `delegate` and the requests handed to its web view (`loads`).

Modelling choices:

- The two subclasses become a `Variant` fixed at construction; `View.HandleMessage`
  dispatches on it to `CardView.Decode` or `CheckoutView.Decode`.
- The weak delegate is a nullable field. A `Delegate` is reduced to the calls it has
  received. Null stands for "never set" and for "already released". No call is made
  then, and nothing fails.
- The Foundation collaborators are parameters of `Load`: `encode` stands for
  `JSONEncoder` with pretty printing followed by UTF-8 decoding (None when either
  fails), `parses` for `URLComponents(string:)` succeeding, and `formsUrl` for the
  components' `url` being non-nil. `UrlComponents` records the string that was parsed
  and, once assigned, the query items that replace the parsed query.
- `webView.load(URLRequest(url:))` is modelled as appending the request to `loads`.
- The inbound key for the return URL is `"return_url"`, and only that key is read
  (`VPOSKeys.returnURL`); no `returnURL` spelling is accepted.
- Preserved as written: when the styles cannot be encoded, no query item is set at
  all, so `process_id` is lost too (`ProcessIdOnlyWithStyles`). The base URL and the
  id are concatenated without escaping (`LoadRequest`). Any tag other than the success
  tag is a failure. Repeated messages are not deduplicated (`RepeatedMessageRepeatsCall`).

## Model

| member | source | states |
|---|---|---|
| `Bridge.ReadEnvelope` | BancardVposConnector/Core/CardVPOSView.swift:30-36 | a message passes the guard exactly when it is on `callbackHandler`, its body is a dictionary, `payload` is a dictionary and `message` and `return_url` are strings; the result carries those two strings and the payload |
| `Bridge.WireMessagePassesGuard` | BancardVposConnector/Core/CheckoutVPOSView.swift:30-36 | every well-formed wire message passes the guard and gives back its own tag, return URL and details |
| `Bridge.OtherChannelDropped` | BancardVposConnector/Core/CardVPOSView.swift:31 | a message on any channel other than `callbackHandler` is dropped, whatever its body |
| `CardView.SandboxAddsOnlyPort` | BancardVposConnector/Core/CardVPOSView.swift:21-27 | the card sandbox URL is the card production URL with `:8888` inserted after the host |
| `CardView.Details` | BancardVposConnector/Core/CardVPOSView.swift:41 | the failure details are the payload's `details` string when it is present and a string, and "" otherwise |
| `CardView.Decode` | BancardVposConnector/Core/CardVPOSView.swift:29-44 | an outcome exists exactly when the guard passes; it is a success exactly when the tag is `add_new_card_success`; it carries the return URL, and a failure carries the details |
| `CardView.SuccessMessageDecoded` | BancardVposConnector/Core/CardVPOSView.swift:37-39 | the success wire message decodes to exactly `Success(returnURL)`, whatever details it holds |
| `CardView.OtherTagDecodedAsFailure` | BancardVposConnector/Core/CardVPOSView.swift:40-42 | any other tag decodes to `Failure(details, returnURL)`, with details "" when the message has none; there is no unknown case |
| `CardView.MissingPayloadDropped` | BancardVposConnector/Core/CardVPOSView.swift:32-33 | a body that is not a dictionary, or lacks a dictionary `payload`, yields no outcome |
| `CardView.MissingFieldDropped` | BancardVposConnector/Core/CardVPOSView.swift:34-35 | a payload whose `message` or `return_url` is missing or not a string yields no outcome |
| `CardView.DecodeDeterminedByFields` | BancardVposConnector/Core/CardVPOSView.swift:29-44 | two messages that agree on tag, return URL and details string decode to the same outcome |
| `CheckoutView.SandboxAddsOnlyPort` | BancardVposConnector/Core/CheckoutVPOSView.swift:21-27 | the checkout sandbox URL is the checkout production URL with `:8888` inserted after the host |
| `CheckoutView.Decode` | BancardVposConnector/Core/CheckoutVPOSView.swift:29-43 | an outcome exists exactly when the guard passes; it is a success exactly when the tag is `payment_success`; it carries the return URL |
| `CheckoutView.SuccessMessageDecoded` | BancardVposConnector/Core/CheckoutVPOSView.swift:37-39 | the success wire message decodes to exactly `Success(returnURL)` |
| `CheckoutView.OtherTagDecodedAsFailure` | BancardVposConnector/Core/CheckoutVPOSView.swift:40-41 | any other tag decodes to `Failure(returnURL)` |
| `CheckoutView.CardSuccessTagIsFailure` | BancardVposConnector/Core/CheckoutVPOSView.swift:37-41 | the card success tag `add_new_card_success` is a failure to the checkout view |
| `CheckoutView.MissingPayloadDropped` | BancardVposConnector/Core/CheckoutVPOSView.swift:32-33 | a body that is not a dictionary, or lacks a dictionary `payload`, yields no outcome |
| `CheckoutView.MissingFieldDropped` | BancardVposConnector/Core/CheckoutVPOSView.swift:34-35 | a payload whose `message` or `return_url` is missing or not a string yields no outcome |
| `CheckoutView.DecodeIgnoresDetails` | BancardVposConnector/Core/CheckoutVPOSView.swift:29-43 | `details` is never read: messages that agree on tag and return URL decode alike |
| `VposView.Endpoint` | BancardVposConnector/Core/VPOSView.swift:54-61 | production URL exactly in production mode, sandbox URL exactly in sandbox mode, for both variants; every base URL starts with the service host and ends in `?` |
| `VposView.EndpointDeterminesVariantAndMode` | BancardVposConnector/Core/VPOSView.swift:54-61 | the four base URLs are pairwise distinct, so the URL identifies variant and mode |
| `VposView.LoadRequest` | BancardVposConnector/Core/VPOSView.swift:109-121 | no request unless `baseURL + processId` parses and a URL forms; the parsed string is exactly `baseURL + processId`; query items are set exactly when the styles encode, and are then exactly `process_id`, `styles` in that order |
| `VposView.QueryRoundTrip` | BancardVposConnector/Core/VPOSView.swift:113-118 | with encodable styles, the issued query gives back `processId` under `process_id` and the style text under `styles` |
| `VposView.ProcessIdOnlyWithStyles` | BancardVposConnector/Core/VPOSView.swift:113-119 | `process_id` is among the query items exactly when the styles encode |
| `VposView.Handle` | BancardVposConnector/Core/CardVPOSView.swift:19-44 | one message causes at most one delegate call; none without a delegate or off the bridge channel; with a delegate, exactly one when the guard passes, and it is the variant decoder's outcome |
| `VposView.Deliver` | BancardVposConnector/Core/VPOSView.swift:158-161 | a stream of messages causes no more calls than it has messages, and none without a delegate |
| `VposView.DeliverConcat` | BancardVposConnector/Core/VPOSView.swift:158-161 | handling is stateless: the calls of two consecutive streams are the calls of each, concatenated |
| `VposView.RepeatedMessageRepeatsCall` | BancardVposConnector/Core/CheckoutVPOSView.swift:29-43 | a well-formed message delivered n times makes n identical calls; there is no deduplication |
| `VposView.View.constructor` | BancardVposConnector/Core/VPOSView.swift:52 | a new view is in production mode, has no delegate and has issued no request |
| `VposView.View.Load` | BancardVposConnector/Core/VPOSView.swift:109-121 | the request issued is `LoadRequest` of the current base URL, the id and the encoded styles; it is appended to the web view's loads, and nothing is appended when none forms |
| `VposView.View.HandleMessage` | BancardVposConnector/Core/CardVPOSView.swift:29-44 | the delegate, if present, receives exactly the calls `Handle` prescribes; nothing else changes |
| `VposView.View.DidReceive` | BancardVposConnector/Core/VPOSView.swift:158-161 | every received script message is passed unchanged to `handleMessage`, once |

## Left out

- Web view, content controller and script injection setup (`contentController`, `webView`): platform plumbing.
- Reading `EventHandler.js` from the bundle (`loadScriptFromJS`): file I/O. The message shape it posts is modelled by `Bridge.WireMessage`.
- The initialisers, `awakeFromNib` and the Auto Layout code in `setup`: UI only. The model keeps only the default mode set at construction.
- `JSONEncoder` pretty printing and `URLComponents` parsing and percent-encoding: foreign library calls. Their results are the parameters `encode`, `parses` and `formsUrl`.
- `webView.load` itself: a network side effect. Only the request is modelled, as an entry of `loads`.
- Weak-reference lifetime beyond "present or null": the model does not release the delegate by itself.
- The base class used on its own, with its empty base URLs and the `assertionFailure` in its `handleMessage`: only the two subclasses are variants of the model.
- The example app's `ViewController`: storyboard wiring and printing, no logic.
- `VposView.QueryRoundTrip`: gives back the encoded style text, not the style map. Decoding the JSON text back into a map is not modelled.
- `VposView.Endpoint`: does not state that the final `?` is the only one in each base URL.
