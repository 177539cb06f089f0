# Topsort PHP SDK: request shaping and error translation

A Dafny model of the logic in the Topsort PHP SDK (`src/SDK.php`) that does not depend on the HTTP client. It covers the following:

- the immutable client configuration and its default headers;
- the request each public operation issues: `create_auction`, `create_banner_auction`, `get_auction`, `create_event` and the `report_click`, `report_impressions` and `report_purchase` wrappers;
- the reshaping of an ad config into a placement (`transform_ad_config`, `get_placement_page`);
- the rejection handler that turns a transfer error into a `TopsortException`;
- `TopsortException::__toString`.

No operation in the source loops or updates state. Each one is an expression, sometimes behind an `if` or a `switch`. So the model is made of functions and lemmas over a PHP value datatype (`PhpValues.Value`). An operation returns a `Call`, made of:

- the HTTP verb;
- the path;
- the JSON body;
- the failure label the handler prefixes to messages;
- the notices raised along the way.

`Sdk.Settle` gives the value a call's promise settles with, once the client reports a decoded body or a transfer error.

Modules:
- `Wrappers`: Option and Result.
- `PhpValues`: the values, plus the bits of PHP semantics the SDK relies on. These are `array_merge` on string keys (the later array wins), truthiness of strings, reading an array offset, and converting a boolean to a string.
- `Transfer`: the HTTP client's transfer errors, as a tagged datatype. The tags are a request error (with an optional response), a connection error and any other error.
- `TopsortExceptions`: the exception and its rendering.
- `Sdk`: the `SDK` class.

Behaviours of the code that the model keeps as written:
- Events are legacy v1 events. They are POSTed to `/v1/events` as `data` merged over `eventType`. There is no `{clicks: [...]}` wrapping. Nothing fills in a default `id`, timestamp or opaque user id.
- The default base URL is `https://topsort.com`.
- A request error whose response has a truthy body (not empty and not "0") is reported as `Content: 1`, not as `Content: <body>`.
- `get_auction` appends the id to `/v1/auctions` with no separator.
- A transfer error that is neither a request error nor a connection error is swallowed. The handler returns nothing, so the promise is fulfilled with null instead of being rejected.

## Model

| member | source | states |
|---|---|---|
| PhpValues.ArrayMerge | src/SDK.php:147 | every key of either array is kept, and on a shared key the later array's value wins |
| PhpValues.Truthy | src/SDK.php:248-249 | only "" and "0" are falsy: a truthy string is non-empty, every string of two or more characters is truthy, and "0" is not |
| PhpValues.BoolToString | src/SDK.php:250 | true converts to "1" and false to "", so the result is truthy exactly when the boolean is true |
| PhpValues.Field | src/SDK.php:207-208 | reading a string key fails exactly on a DateTime object; it gives the entry when an array holds the key, and null otherwise |
| PhpValues.First | src/SDK.php:207-208 | reading offset 0 fails exactly on a DateTime object; it gives a non-empty list's first element, null for an empty list, and null for a scalar |
| TopsortExceptions.PreviousMessage | src/SDK.php:278-279 | the previous exception's message, or "" when there is none |
| TopsortExceptions.ToString | src/SDK.php:276-281 | the rendering is the class name `Topsort\TopsortException`, a space, the message, then ": " and the previous message, with the exact length of those parts |
| TopsortExceptions.ToStringRecoversPrevious | src/SDK.php:276-281 | for a fixed message, the rendering determines the previous message |
| Sdk.NewSdk | src/SDK.php:55-66 | the configuration keeps the marketplace, the key and the URL; it sends exactly the Authorization and User-Agent headers; Authorization is "Bearer " followed by the key; User-Agent is the literal as written |
| Sdk.AuthorizationDeterminesKey | src/SDK.php:62 | two configurations with equal Authorization headers have equal API keys |
| Sdk.UserAgentOmitsVersion | src/SDK.php:63 | the as-written User-Agent ends in the literal `{TOPSORT_SDK_VERSION}`, so it differs from the intended one |
| Sdk.UserAgentIntended | src/SDK.php:63 | the intended User-Agent is the product name followed by the version |
| Sdk.CreateAuction | src/SDK.php:79-95 | a POST to /v1/auctions labelled "Auction creation failed"; the body has exactly the keys slots, products and session, each holding its argument unchanged; banner options only add the deprecation notice |
| Sdk.CreateBannerAuction | src/SDK.php:104-120 | a POST to /v2/auctions whose body is an object whose only key `auctions` holds a list of exactly one auction object; that object has every option key with its value; `type` is "banners" unless the options supply their own `type` |
| Sdk.BannerOptionsRecovered | src/SDK.php:106-113 | the caller's options can be read back from the body: they are the auction object itself when they name a type, and the object minus `type` otherwise |
| Sdk.AuctionPath | src/SDK.php:129 | the path starts with "/v1/auctions" and the rest of it is exactly the id |
| Sdk.GetAuction | src/SDK.php:127-133 | a body-less GET labelled "Failed to get auction", at a path that starts with "/v1/auctions" and continues with the id |
| Sdk.AuctionPathInjective | src/SDK.php:129 | distinct auction ids are requested at distinct paths |
| Sdk.AuctionPathMissesMember | src/SDK.php:129 | the id "123" is requested at "/v1/auctions123", which is not the intended member path |
| Sdk.AuctionPathIntended | src/SDK.php:129 | the intended path is "/v1/auctions/" followed by the id |
| Sdk.AuctionPathIntendedSeparates | src/SDK.php:129 | the intended path always has "/" after the collection name, and distinct ids give distinct paths |
| Sdk.CreateEvent | src/SDK.php:144-152 | a POST to /v1/events labelled "Event creation failed"; the body keeps every key of data with its value and adds `eventType`; `eventType` is the given type unless data supplies one |
| Sdk.ReportClick | src/SDK.php:159-162 | an event call with the type "Click" over the caller's data |
| Sdk.ReportImpressions | src/SDK.php:169-172 | an event call with the type "Impression" over the caller's data |
| Sdk.ReportPurchase | src/SDK.php:180-186 | succeeds exactly when `purchasedAt` is a DateTime, and is then an event call with the type "Purchase" over data with `purchasedAt` replaced by its formatted string; otherwise the call to `format` fails |
| Sdk.PurchaseReplacesOnlyPurchasedAt | src/SDK.php:182-185 | the purchase body has data's keys plus `eventType`; `purchasedAt` holds the formatted date; every other key of data keeps its value |
| Sdk.GetPlacementPage | src/SDK.php:215-227 | total, always one of "Search", "Category" or "Home-Page"; "Search" exactly for "search"; "Category" exactly for "category"; "Home-Page" for everything else |
| Sdk.TransformAdConfig | src/SDK.php:204-213 | succeeds exactly when no DateTime is read as an array and `position` is a string; reading `dimensions` or its first element as an array when it is a DateTime fails first, and otherwise a non-string position fails with a type error; on success the keys are exactly dimensions, aspectRatio and placement, and placement holds only the page of the position |
| Sdk.TransformCopiesFirstDimension | src/SDK.php:207-208 | the first dimension's `size` lands under `dimensions` and its `aspectRatio` under `aspectRatio` |
| Sdk.TransformWithoutDimensions | src/SDK.php:207-208 | without dimensions, both copied entries are null |
| Sdk.ResponseContent | src/SDK.php:247-248 | the boolean content: false without a response, false for the bodies "" and "0", true for every body of two or more characters |
| Sdk.HandleException | src/SDK.php:243-258 | throws exactly when the error is a request or connection error; the exception has code 0, wraps the error, and its message starts with the label and ": "; a connection error's message ends with "Could not connect to " and the URI |
| Sdk.TruthyBodyReportsOne | src/SDK.php:247-252 | a request error whose response body is truthy gives the message label + ": Content: 1" |
| Sdk.NoContentReportsMessage | src/SDK.php:249-252 | without a truthy body, the message is label + ": Message:" + the error message, with no space, and that error message can be read back |
| Sdk.ContentLosesBody | src/SDK.php:248-250 | request errors with different truthy bodies give identical messages |
| Sdk.HandleExceptionIntended | src/SDK.php:246-257 | the corrected handler throws on the same errors, with the same code, cause and label prefix |
| Sdk.IntendedContentCarriesBody | src/SDK.php:249-250 | under the corrected handler, the body text can be read back after "Content: " |
| Sdk.IntendedAgreesWithoutContent | src/SDK.php:246-257 | the corrected handler equals the as-written one on every error without a truthy body |
| Sdk.Settle | src/SDK.php:89-94 | the promise is fulfilled with the decoded body on success; on a request or connection error it is rejected with exactly the exception the handler builds for the call's label (code 0, wrapping the error, prefixed by the label); it is fulfilled with null for any other error |
| Sdk.ConnectFailureRendering | src/SDK.php:253-255 | a connection failure of an auction creation renders as the class name, the label, "Could not connect to " with the URI, and the transport message |

## Left out

- The HTTP client is not modelled: its construction, `requestAsync`, promises and `then` chaining. Each operation returns the `Call` it would issue. `Sdk.Settle` stands for the pair of `then` handlers.
- `json_decode` in `handleResponse` is library code. `Sdk.Settle` takes the decoded body as its input.
- `get_ad_locations` is network I/O. Its `array_map` over a response body that is still a string is not modelled. Only `transform_ad_config` and `get_placement_page` are.
- `DateTime::format` with the RFC 3339 format is library code. `Sdk.ReportPurchase` takes the formatting as a function parameter.
- `trigger_error` is a runtime side effect. It appears only as the notice recorded in the `Call`.
- The HTTP client's exception hierarchy is version-dependent. In some versions a connection error is also a request error, and would then take the first branch, with no response. The model uses three disjoint tags and tests them in the handler's order.
- A response body is taken to be exactly what reading its stream yields. Stream positions are not modelled.
- PHP arrays are modelled as maps with string keys or as lists, so three PHP behaviours are lost. Key order is not kept. Integer-like string keys, which `array_merge` renumbers, are not modelled. A list passed where a keyed array is expected is not modelled either.
- Floating-point values are not in the value datatype.
- Reading an offset of a string or other scalar gives null in the model. Reading one of a DateTime fails, as PHP's error does. PHP's string-offset rules and the warnings PHP prints are not modelled.
- `marketplace` and the static `$base_url` are stored but never used by the source. They carry no behaviour.
- tests/SDKTest.php needs a live server and asserts nothing about the code.
- src/SDK.php has no opaque user id provider and no v2 event shape; neither is modelled.

## Findings

| source | as written | input that shows it | evidently intended | confidence | as-written member | corrected member |
|---|---|---|---|---|---|---|
| src/SDK.php:248-250 | the content is the boolean `response && body`, so a truthy body is reported as "Content: 1" | a request error with response body "invalid auction" gives "Auction creation failed: Content: 1" | "Auction creation failed: Content: invalid auction" | high; not executed | Sdk.ContentLosesBody | Sdk.IntendedContentCarriesBody |
| src/SDK.php:63 | a constant inside a double-quoted string is not interpolated | any construction sends "Topsort/PHP-SDK {TOPSORT_SDK_VERSION}" | "Topsort/PHP-SDK v1.2.3" | high; not executed | Sdk.UserAgentOmitsVersion | Sdk.UserAgentIntended |
| src/SDK.php:129 | the id is appended with no separator | the id "123" gives "/v1/auctions123" | "/v1/auctions/123" | medium; not executed | Sdk.AuctionPathMissesMember | Sdk.AuctionPathIntendedSeparates |

Each operation keeps the behaviour as written, because the model follows the code. The corrected members are defined and proved alongside, as the replacements for their as-written counterparts.
