/** The `SDK` class: its immutable configuration, the requests each public
    operation issues, the ad-config reshaping, and the translation of a
    transport failure into a `TopsortException`. The HTTP client is left out:
    an operation yields the `Call` it would issue, and `Settle` gives the value
    the returned promise settles with once the client reports an outcome. */
module Sdk {
  import opened Wrappers
  import opened PhpValues
  import opened Transfer
  import opened TopsortExceptions

  const SdkVersion: string := "v1.2.3"
  const DefaultUrl: string := "https://topsort.com"

  /** The User-Agent the constructor sends. Inside a double-quoted PHP string
      only `{$` starts an interpolation, so the constant's name and its braces
      are sent literally. */
  const UserAgentAsWritten: string := "Topsort/PHP-SDK {TOPSORT_SDK_VERSION}"

  const AuctionFailed: string := "Auction creation failed"
  const GetAuctionFailed: string := "Failed to get auction"
  const EventFailed: string := "Event creation failed"
  const DeprecationNotice: string := "Deprecation: use create_banner_auction instead"

  const AuctionsV1: string := "/v1/auctions"
  const AuctionsV2: string := "/v2/auctions"
  const EventsV1: string := "/v1/events"

  /** What the constructor fixes once: the marketplace, the API key, and the
      base URI and default headers it gives the HTTP client. */
  datatype Config = Config(marketplace: string, apiKey: string, baseUri: string,
                           headers: map<string, string>)

  function NewSdk(marketplace: string, apiKey: string, url: string := DefaultUrl): (c: Config)
    ensures c.marketplace == marketplace && c.apiKey == apiKey && c.baseUri == url
    ensures c.headers.Keys == {"Authorization", "User-Agent"}
    ensures c.headers["User-Agent"] == UserAgentAsWritten
    ensures "Bearer " <= c.headers["Authorization"]
    ensures c.headers["Authorization"][7..] == apiKey
  {
    Config(marketplace, apiKey, url,
           map["Authorization" := "Bearer " + apiKey, "User-Agent" := UserAgentAsWritten])
  }

  /** The bearer token is the API key and nothing else: distinct keys give
      distinct Authorization headers. */
  lemma AuthorizationDeterminesKey(m1: string, k1: string, u1: string,
                                                      m2: string, k2: string, u2: string)
    requires NewSdk(m1, k1, u1).headers["Authorization"] == NewSdk(m2, k2, u2).headers["Authorization"]
    ensures k1 == k2
  {
  }

  /** The as-written User-Agent never names the SDK version: it ends with the
      constant's name where the version should be. */
  lemma UserAgentOmitsVersion()
    ensures UserAgentAsWritten[16..] == "{TOPSORT_SDK_VERSION}"
    ensures UserAgentAsWritten != UserAgentIntended(SdkVersion)
  {
  }

  /** The evidently intended User-Agent: the product name followed by the
      version. */
  function UserAgentIntended(version: string): (ua: string)
    ensures "Topsort/PHP-SDK " <= ua && ua[16..] == version
  {
    "Topsort/PHP-SDK " + version
  }

  datatype Verb = GET | POST

  /** One request an operation issues: its method, its path relative to the
      base URI, its JSON body (none for a GET), the failure the rejection
      handler prefixes to failure messages, and the notices raised on the way. */
  datatype Call = Call(verb: Verb, path: string, json: Option<Value>,
                       failureLabel: string, notices: seq<string>)

  // ---------------------------------------------------------------- auctions

  /** `create_auction`: a legacy auction. The banner options only raise a
      deprecation notice; they never reach the body. */
  function CreateAuction(slots: Value, products: Value, session: Value,
                         bannerOptions: Option<Value> := None): (c: Call)
    requires IsArray(slots) && IsArray(products) && IsArray(session)
    requires bannerOptions.Some? ==> IsArray(bannerOptions.value)
    ensures c.verb == POST && c.path == AuctionsV1 && c.failureLabel == AuctionFailed
    ensures c.json.Some? && c.json.value.Obj?
    ensures c.json.value.fields.Keys == {"slots", "products", "session"}
    ensures c.json.value.fields["slots"] == slots
    ensures c.json.value.fields["products"] == products
    ensures c.json.value.fields["session"] == session
    ensures c.notices == if bannerOptions.Some? then [DeprecationNotice] else []
  {
    var body := map["slots" := slots, "products" := products, "session" := session];
    var notices := if bannerOptions.Some? then [DeprecationNotice] else [];
    Call(POST, AuctionsV1, Some(Obj(body)), AuctionFailed, notices)
  }

  /** The one auction object of a `{auctions: [auction]}` body, if the call
      carries a body of exactly that shape. */
  function SoleAuction(c: Call): Option<map<string, Value>> {
    if c.json.Some? && c.json.value.Obj? && c.json.value.fields.Keys == {"auctions"}
       && c.json.value.fields["auctions"].List?
       && |c.json.value.fields["auctions"].items| == 1
       && c.json.value.fields["auctions"].items[0].Obj?
    then Some(c.json.value.fields["auctions"].items[0].fields)
    else None
  }

  /** `create_banner_auction`: the options merged over `type => banners`,
      wrapped as the only auction of a v2 auction request. */
  function CreateBannerAuction(bannerOptions: map<string, Value>): (c: Call)
    ensures c.verb == POST && c.path == AuctionsV2 && c.failureLabel == AuctionFailed
    ensures c.notices == []
    ensures SoleAuction(c).Some?
    ensures SoleAuction(c).value.Keys == bannerOptions.Keys + {"type"}
    ensures forall k :: k in bannerOptions ==> SoleAuction(c).value[k] == bannerOptions[k]
    ensures "type" !in bannerOptions ==> SoleAuction(c).value["type"] == Str("banners")
  {
    var auction := ArrayMerge(map["type" := Str("banners")], bannerOptions);
    Call(POST, AuctionsV2, Some(Obj(map["auctions" := List([Obj(auction)])])), AuctionFailed, [])
  }

  /** The caller's options can be read back from the banner auction: exactly
      the auction object when they name a `type`, and the auction object
      without its `type` entry otherwise. */
  lemma BannerOptionsRecovered(bannerOptions: map<string, Value>)
    ensures "type" in bannerOptions ==> SoleAuction(CreateBannerAuction(bannerOptions)).value == bannerOptions
    ensures "type" !in bannerOptions ==> SoleAuction(CreateBannerAuction(bannerOptions)).value - {"type"} == bannerOptions
  {
  }

  /** The path `get_auction` requests: the id appended to "/v1/auctions" with
      no separator. */
  function AuctionPath(auctionId: string): (p: string)
    ensures AuctionsV1 <= p
    ensures p[|AuctionsV1|..] == auctionId
  {
    AuctionsV1 + auctionId
  }

  /** `get_auction`: a body-less GET of `AuctionPath`. */
  function GetAuction(auctionId: string): (c: Call)
    ensures c.verb == GET && c.json.None? && c.notices == []
    ensures c.failureLabel == GetAuctionFailed
    ensures AuctionsV1 <= c.path && c.path[|AuctionsV1|..] == auctionId
  {
    Call(GET, AuctionPath(auctionId), None, GetAuctionFailed, [])
  }

  /** Distinct auction ids are requested at distinct paths. */
  lemma AuctionPathInjective(a: string, b: string)
    requires AuctionPath(a) == AuctionPath(b)
    ensures a == b
  {
  }

  /** Without a separator the id is glued onto the collection name: the
      auction "123" is requested at "/v1/auctions123", not at the
      collection member "/v1/auctions/123". */
  lemma AuctionPathMissesMember()
    ensures AuctionPath("123") == "/v1/auctions123"
    ensures AuctionPath("123") != AuctionPathIntended("123")
  {
  }

  /** The evidently intended path: the id as one more path segment. */
  function AuctionPathIntended(auctionId: string): (p: string)
    ensures AuctionsV1 + "/" <= p
    ensures p[|AuctionsV1| + 1..] == auctionId
  {
    AuctionsV1 + "/" + auctionId
  }

  /** The intended path puts a separator right after "/v1/auctions", and
      distinct ids still give distinct paths. */
  lemma AuctionPathIntendedSeparates(a: string, b: string)
    requires AuctionPathIntended(a) == AuctionPathIntended(b)
    ensures a == b
    ensures AuctionPathIntended(a)[|AuctionsV1|] == '/'
  {
  }

  // ------------------------------------------------------------------ events

  /** A legacy event call: a POST to "/v1/events" whose body holds every key of
      `data` with its value, plus `eventType`, which is `eventType` unless
      `data` supplies its own. */
  ghost predicate IsEventCall(c: Call, eventType: string, data: map<string, Value>) {
    && c.verb == POST && c.path == EventsV1 && c.failureLabel == EventFailed
    && c.notices == []
    && c.json.Some? && c.json.value.Obj?
    && c.json.value.fields.Keys == data.Keys + {"eventType"}
    && (forall k :: k in data ==> c.json.value.fields[k] == data[k])
    && ("eventType" !in data ==> c.json.value.fields["eventType"] == Str(eventType))
  }

  /** `create_event`: `data` merged over `eventType => event_type`. */
  function CreateEvent(eventType: string, data: map<string, Value>): (c: Call)
    ensures IsEventCall(c, eventType, data)
  {
    Call(POST, EventsV1, Some(Obj(ArrayMerge(map["eventType" := Str(eventType)], data))), EventFailed, [])
  }

  /** `report_click`: an event labelled "Click". */
  function ReportClick(data: map<string, Value>): (c: Call)
    ensures IsEventCall(c, "Click", data)
  {
    CreateEvent("Click", data)
  }

  /** `report_impressions`: an event labelled "Impression". */
  function ReportImpressions(data: map<string, Value>): (c: Call)
    ensures IsEventCall(c, "Impression", data)
  {
    CreateEvent("Impression", data)
  }

  /** `report_purchase`: an event labelled "Purchase" in which `purchasedAt`
      is replaced by its RFC 3339 rendering `format(purchasedAt)`. When
      `purchasedAt` is missing or not a DateTime, calling `format` on it
      fails and no request is issued. */
  function ReportPurchase(data: map<string, Value>, format: DateTime -> string): (r: Result<Call, Fatal>)
    ensures r.Success? <==> "purchasedAt" in data && data["purchasedAt"].Date?
    ensures r.Failure? ==> r.error == MemberCallOnNonObject("format")
    ensures r.Success? ==>
      IsEventCall(r.value, "Purchase", data["purchasedAt" := Str(format(data["purchasedAt"].at))])
  {
    if "purchasedAt" in data && data["purchasedAt"].Date? then
      var stamp := Str(format(data["purchasedAt"].at));
      Success(CreateEvent("Purchase", ArrayMerge(data, map["purchasedAt" := stamp])))
    else
      Failure(MemberCallOnNonObject("format"))
  }

  /** A purchase body differs from `data` only in `purchasedAt`, which holds
      the formatted date, and in the added `eventType`. */
  lemma PurchaseReplacesOnlyPurchasedAt(data: map<string, Value>, format: DateTime -> string)
    requires "purchasedAt" in data && data["purchasedAt"].Date?
    ensures var body := ReportPurchase(data, format).value.json.value.fields;
      && body.Keys == data.Keys + {"eventType"}
      && body["purchasedAt"] == Str(format(data["purchasedAt"].at))
      && (forall k :: k in data && k != "purchasedAt" ==> body[k] == data[k])
      && ("eventType" !in data ==> body["eventType"] == Str("Purchase"))
  {
  }

  // --------------------------------------------------------------- ad config

  /** `get_placement_page`: the page name for an ad position. */
  function GetPlacementPage(position: string): (page: string)
    ensures page == "Search" || page == "Category" || page == "Home-Page"
    ensures page == "Search" <==> position == "search"
    ensures page == "Category" <==> position == "category"
  {
    match position
    case "search" => "Search"
    case "category" => "Category"
    case "home" => "Home-Page"
    case _ => "Home-Page"
  }

  /** The ad config makes `transform_ad_config` read an offset of an object:
      its `dimensions` entry, or that entry's first element, is a DateTime. */
  ghost predicate ReadsThroughObject(adConfig: map<string, Value>) {
    && "dimensions" in adConfig
    && var dims := adConfig["dimensions"];
    || dims.Date?
    || (dims.List? && |dims.items| > 0 && dims.items[0].Date?)
    || (dims.Obj? && "0" in dims.fields && dims.fields["0"].Date?)
  }

  /** `transform_ad_config`: the size and aspect ratio of the first dimension
      and the placement page of the position. Missing entries read as null;
      reading an offset of a DateTime is an error, raised before the position
      is looked at; a position that is not a string is refused by
      `get_placement_page`'s string parameter. */
  function TransformAdConfig(adConfig: map<string, Value>): (r: Result<Value, Fatal>)
    ensures r.Success? <==> !ReadsThroughObject(adConfig) && "position" in adConfig && adConfig["position"].Str?
    ensures ReadsThroughObject(adConfig) ==> r == Failure(ObjectAsArray)
    ensures r.Failure? && !ReadsThroughObject(adConfig) ==> r.error == TypeError("position")
    ensures r.Success? ==> r.value.Obj? && r.value.fields.Keys == {"dimensions", "aspectRatio", "placement"}
    ensures r.Success? ==>
      && r.value.fields["placement"].Obj?
      && r.value.fields["placement"].fields.Keys == {"page"}
      && r.value.fields["placement"].fields["page"] == Str(GetPlacementPage(adConfig["position"].s))
  {
    // reading a key of the config itself cannot fail: it is an array
    var dims := if "dimensions" in adConfig then adConfig["dimensions"] else Null;
    var first :- First(dims);
    var size :- Field(first, "size");
    // `first` was read once already, so this second read succeeds too
    var aspectRatio := Field(first, "aspectRatio").value;
    var position := if "position" in adConfig then adConfig["position"] else Null;
    if position.Str? then
      Success(Obj(map["dimensions" := size, "aspectRatio" := aspectRatio,
                      "placement" := Obj(map["page" := Str(GetPlacementPage(position.s))])]))
    else
      Failure(TypeError("position"))
  }

  /** When the first dimension is an object, its `size` and `aspectRatio` are
      copied (under the keys `dimensions` and `aspectRatio`). */
  lemma TransformCopiesFirstDimension(adConfig: map<string, Value>, d: map<string, Value>)
    requires "position" in adConfig && adConfig["position"].Str?
    requires "dimensions" in adConfig && adConfig["dimensions"].List?
    requires |adConfig["dimensions"].items| > 0 && adConfig["dimensions"].items[0] == Obj(d)
    requires "size" in d && "aspectRatio" in d
    ensures TransformAdConfig(adConfig).value.fields["dimensions"] == d["size"]
    ensures TransformAdConfig(adConfig).value.fields["aspectRatio"] == d["aspectRatio"]
  {
  }

  /** With no dimensions at all, both copied entries are null. */
  lemma TransformWithoutDimensions(adConfig: map<string, Value>)
    requires "position" in adConfig && adConfig["position"].Str?
    requires "dimensions" !in adConfig
    ensures TransformAdConfig(adConfig).value.fields["dimensions"] == Null
    ensures TransformAdConfig(adConfig).value.fields["aspectRatio"] == Null
  {
  }

  // ------------------------------------------------------------------ errors

  /** Line 248 of the handler: the conjunction of "a response exists" and "its
      body is truthy", a boolean and not the body text. */
  predicate ResponseContent(response: Option<HttpResponse>)
    ensures response.None? ==> !ResponseContent(response)
    ensures ResponseContent(response) ==> response.value.body != ""
    ensures response.Some? && |response.value.body| >= 2 ==> ResponseContent(response)
    ensures response.Some? && response.value.body == "0" ==> !ResponseContent(response)
  {
    response.Some? && Truthy(response.value.body)
  }

  /** `handleException($failure)` applied to a transfer error: the exception it
      throws, or None when it returns without throwing. A request error
      reports "Content: " followed by the boolean content (so "1"), or else
      "Message:" and the error's message; a connection error reports the URI;
      any other error is swallowed. */
  function HandleException(failure: string, err: TransferError): (r: Option<TopsortException>)
    ensures r.None? <==> err.OtherErr?
    ensures r.Some? ==> r.value.code == 0 && r.value.previous == Some(err)
    ensures r.Some? ==> failure + ": " <= r.value.message
    ensures err.ConnectErr? ==>
      && failure + ": Could not connect to " <= r.value.message
      && r.value.message[|failure| + 23..] == err.uri
  {
    match err
    case RequestErr(response, message) =>
      var content := ResponseContent(response);
      // `$content && $content != ''`: a true boolean is loosely unequal to ''
      var errorMessage := if content then "Content: " + BoolToString(content) else "Message:" + message;
      Some(TopsortException(failure + ": " + errorMessage, 0, Some(err)))
    case ConnectErr(uri, _) =>
      Some(TopsortException(failure + ": Could not connect to " + uri, 0, Some(err)))
    case OtherErr(_) =>
      None
  }

  /** A request error whose response has a truthy body always reports
      "Content: 1", whatever the body says. */
  lemma TruthyBodyReportsOne(failure: string, response: HttpResponse, message: string)
    requires Truthy(response.body)
    ensures HandleException(failure, RequestErr(Some(response), message)).value.message == failure + ": Content: 1"
  {
  }

  /** Without a truthy body the transport message follows "Message:" with no
      space, and can be read back from the exception message. */
  lemma NoContentReportsMessage(failure: string, response: Option<HttpResponse>, message: string)
    requires !ResponseContent(response)
    ensures HandleException(failure, RequestErr(response, message)).value.message == failure + ": Message:" + message
    ensures HandleException(failure, RequestErr(response, message)).value.message[|failure| + 10..] == message
  {
  }

  /** Two request errors with different truthy bodies give the same message:
      the body text never reaches the caller. */
  lemma ContentLosesBody(failure: string, r1: HttpResponse, m1: string, r2: HttpResponse, m2: string)
    requires Truthy(r1.body) && Truthy(r2.body)
    ensures HandleException(failure, RequestErr(Some(r1), m1)).value.message
         == HandleException(failure, RequestErr(Some(r2), m2)).value.message
  {
  }

  /** The evidently intended handler: a truthy body is reported as text. */
  function HandleExceptionIntended(failure: string, err: TransferError): (r: Option<TopsortException>)
    ensures r.None? <==> err.OtherErr?
    ensures r.Some? ==> r.value.code == 0 && r.value.previous == Some(err)
    ensures r.Some? ==> failure + ": " <= r.value.message
  {
    match err
    case RequestErr(response, message) =>
      var errorMessage := if ResponseContent(response) then "Content: " + response.value.body else "Message:" + message;
      Some(TopsortException(failure + ": " + errorMessage, 0, Some(err)))
    case ConnectErr(uri, _) =>
      Some(TopsortException(failure + ": Could not connect to " + uri, 0, Some(err)))
    case OtherErr(_) =>
      None
  }

  /** The intended handler carries the body text after "Content: ", so it can
      be read back, and it agrees with the as-written handler on every error
      that has no truthy body. */
  lemma IntendedContentCarriesBody(failure: string, err: TransferError)
    requires err.RequestErr? && ResponseContent(err.response)
    ensures HandleExceptionIntended(failure, err).value.message[|failure| + 11..] == err.response.value.body
  {
  }

  lemma IntendedAgreesWithoutContent(failure: string, err: TransferError)
    requires !(err.RequestErr? && ResponseContent(err.response))
    ensures HandleExceptionIntended(failure, err) == HandleException(failure, err)
  {
  }

  /** How the client reports the request's outcome: a decoded response body
      (decoding is the client's), or a transfer failure. */
  datatype Transport = Delivered(decoded: Value) | Failed(err: TransferError)

  /** What the promise an operation returns settles with. */
  datatype Settled = Fulfilled(value: Value) | Rejected(exception: TopsortException)

  /** The promise of a call settles with the decoded body on success, is
      rejected with the handler's exception on a request or connection error,
      and is fulfilled with null when the handler swallows the error. */
  function Settle(c: Call, t: Transport): (s: Settled)
    ensures t.Delivered? ==> s == Fulfilled(t.decoded)
    ensures t.Failed? && t.err.OtherErr? ==> s == Fulfilled(Null)
    ensures t.Failed? && !t.err.OtherErr? ==> s == Rejected(HandleException(c.failureLabel, t.err).value)
    ensures t.Failed? && !t.err.OtherErr? ==> s.exception.code == 0 && s.exception.previous == Some(t.err)
    ensures s.Rejected? ==> c.failureLabel + ": " <= s.exception.message
  {
    match t
    case Delivered(decoded) => Fulfilled(decoded)
    case Failed(err) =>
      match HandleException(c.failureLabel, err)
      case Some(e) => Rejected(e)
      case None => Fulfilled(Null)
  }

  /** A connection failure on any auction creation renders, through
      `__toString`, as the class name, the failure, the URI and the transport
      message. */
  lemma ConnectFailureRendering(c: Call, uri: string, message: string)
    requires c.failureLabel == AuctionFailed
    ensures Settle(c, Failed(ConnectErr(uri, message))).Rejected?
    ensures ToString(Settle(c, Failed(ConnectErr(uri, message))).exception)
         == ClassName + " " + AuctionFailed + ": Could not connect to " + uri + ": " + message
  {
  }
}
