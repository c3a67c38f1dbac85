# DeltaExchange-Bot in Dafny

A verified model of the core of the DeltaExchange-Bot: a grid trading bot for
the Delta Exchange perpetual futures API, together with the REST and
WebSocket clients of its dashboard. The model covers:

- the **strategy engine** (`compute_next_orders`): it seeds a one-lot buy when
  flat; in a position it always asks for a take-profit that flips the position
  by one lot, and averages on the same side while the risk cap allows;
- the **utilities**: tick and step quantisation (`clamp_to_step`,
  `round_price`, `round_qty`) and the `HAIDER-` client order id format;
- the **bot cycle** (`haider_bot/main.py`): reading the configuration,
  normalising the exchange's position payload, shading prices to the
  maker-safe side, and `sync_intents`. That function places every intent,
  then cancels the bot's own resting orders that match no target;
- the bot's **REST adapter**: base URL selection, the HMAC signing message,
  the request handed to `requests`, classifying the reply into data or
  `DeltaAPIError`, product parsing, and the bodies and parameters of the
  calls the bot's cycle makes (product lookup, positions, open orders,
  placing and cancelling); the adapter's leverage, ticker and cancel-all
  calls are left out;
- the two **REST clients** of the dashboard (`src/delta_client.py` and the
  older `delta_client.py`). This covers how each signs and shapes a request
  and how each folds failures into results. It also covers the three-step
  cancel fallback, the mark price read from candles, the query or data each
  wrapper builds that does more than forward its arguments, and the
  connection test;
- the two **WebSocket clients** (`src/ws_client.py` and `ws_client.py`): the
  subscription messages, authentication, the outbox that holds messages until
  the socket is connected and authenticated, and the reducer that keeps the
  latest marks, positions and open orders.

The model is written module by module, matching the source:

| module | file | models |
|---|---|---|
| `Strategy` | strategy.dfy | haider_bot/core/strategy.py |
| `BotUtils` | utils.dfy | haider_bot/utils.py |
| `BotMain` | bot_main.dfy | haider_bot/main.py |
| `DeltaAdapter` | delta_adapter.dfy | haider_bot/adapters/delta_adapter.py |
| `SrcDeltaClient` | src_delta_client.dfy | src/delta_client.py |
| `RootDeltaClient` | root_delta_client.dfy | delta_client.py |
| `SrcWsClient` | src_ws_client.dfy | src/ws_client.py |
| `RootWsClient` | ws_client.dfy | ws_client.py |
| `PyJson`, `Text`, `Http`, `Wrappers` | json.dfy, text.dfy, http.dfy, wrappers.dfy | the Python values, string methods and HTTP shapes these use |

Modelling conventions:

- **Numbers.** Prices are exact `real`s. Python's `round` is round-half-to-even
  (`BotUtils.RoundHalfEven`). `int()` of a float truncates toward zero.
- **JSON.** Values are the `PyJson.Json` datatype. Integers and floats are
  kept apart, as `json.loads` keeps them. An object is an ordered list of
  pairs, and a lookup sees the last binding of a key.
- **Codecs.** Serialising and hashing are given as a `Http.Codec` of functions
  the model does not look inside: the three `json.dumps` variants,
  `urlencode`, HMAC-SHA256 in hex, and `str()` of a float. A property that
  holds "for every codec" is a property of the program's own logic.
- **I/O.** Everything outside the program is a parameter:
  - the clock appears as epoch seconds or an ISO stamp;
  - an HTTP exchange is an `Http.Exchange`, either a reply (status, text and
    decoded-or-undecodable body) or no reply with the exception's text;
  - the outcome of `json.loads` on a WebSocket frame is an `Option<Json>`;
  - whether the n-th `ws.send` succeeds comes from the client's `wire` oracle;
  - the outcomes of the bot's adapter calls are functions of the call index.
- **Exceptions** are results: a `Wrappers.Attempt` (done or raised), or the
  adapter's `Outcome`, which separates `DeltaAPIError` from every other
  exception.

## Model

| member | source | states |
|---|---|---|
| Strategy.ComputeNextOrders | haider_bot/core/strategy.py:32-58 | When flat there is exactly one intent: a SEED buy of one lot at mark minus the seed offset. In a position there is exactly one TP, always last: it is on the opposite side, for open lots plus one, at entry plus or minus the TP step. There is no SEED. There is an AVG exactly when open lots plus averaging lots fit the cap; it comes first, on the same side, for open lots times the multiplier, at entry minus or plus the averaging step. |
| Strategy.EntryPrice | haider_bot/core/strategy.py:41 | A missing or zero average falls back to the mark price; any other average is used as it is. |
| Strategy.SideName | haider_bot/core/strategy.py:44-49 | A side is spelled "buy" or "sell", and "buy" exactly for Buy. |
| BotUtils.RoundHalfEven | haider_bot/utils.py:24 | The result is within 1/2 of x, and on a tie it is the even integer. |
| BotUtils.RoundHalfEvenNearest | haider_bot/utils.py:24 | No integer is closer to x than round(x). |
| BotUtils.RoundHalfEvenOfInteger | haider_bot/utils.py:24 | An integer rounds to itself. |
| BotUtils.ClampToStep | haider_bot/utils.py:21-25 | A step that is not positive returns the value. Otherwise the result is a multiple of the step within half a step of the value. |
| BotUtils.ClampToStepNearest | haider_bot/utils.py:21-25 | No multiple of the step is closer to the value than the clamped result. |
| BotUtils.ClampToStepIdempotent | haider_bot/utils.py:21-25 | Clamping twice is clamping once. |
| BotUtils.ClampOnGrid | haider_bot/utils.py:21-25 | A value already on the grid is returned unchanged. |
| BotUtils.RoundPrice | haider_bot/utils.py:28-31 | A tick that is not positive returns the price. Otherwise the result is on the tick grid and within half a tick of the price. |
| BotUtils.RoundPriceIdempotent | haider_bot/utils.py:28-31 | Rounding a rounded price changes nothing. |
| PyJson.Trunc | haider_bot/utils.py:38 | int() of a float truncates toward zero: the result is the integer between zero and x that is less than one away from x. |
| BotUtils.RoundQty | haider_bot/utils.py:34-39 | A step that is not positive returns the quantity. Otherwise the result is on the step grid. A non-negative quantity is rounded down by less than one step and never below zero; a negative one is rounded up the same way. |
| BotUtils.ClientOrderId | haider_bot/utils.py:16-18 | The id is `HAIDER-` followed by the upper-cased environment, the clock stamp, the upper-cased type and side, and the sequence number zero-padded to two digits, joined by dashes. |
| BotUtils.ClientOrderIdsDistinct | haider_bot/utils.py:16-18 | Within one clock reading, different sequence numbers give different ids. |
| Text.Pad2 | haider_bot/utils.py:18 | `{seq:02d}` has at least two decimal digits whose value is the number. |
| Text.Pad2Injective | haider_bot/utils.py:18 | Two numbers with the same two-digit text are equal. |
| Text.UpperHasNoLowerCase | haider_bot/utils.py:18 | An upper-cased name holds no lower-case ASCII letter. |
| BotMain.PollIntervalSec | haider_bot/main.py:59 | The poll interval in seconds is the larger of 0.2 and milliseconds/1000. |
| BotMain.LoadConfig | haider_bot/main.py:32-66 | A loaded configuration always has a poll interval of at least 0.2 s. A file that is not a mapping (after `or {}`) raises. |
| BotMain.ReadSettings | haider_bot/main.py:41-66 | Settings read from the five sections always have a poll interval of at least 0.2 s. |
| BotMain.GridDefaults | haider_bot/main.py:41-47 | Empty grid and risk sections give seed offset 5, TP step 20, averaging step 20, multiplier 1, and a cap of 10 lots. |
| BotMain.SettingsDefaults | haider_bot/main.py:48-66 | With only the poll setting given, every other setting takes its documented default. |
| BotMain.LoadConfigDefaults | haider_bot/main.py:32-66 | An empty file with an empty environment gives BTCUSD in demo mode, 1 s polling, post-only, one shade tick and INFO logging. |
| BotMain.LoadConfigPoll | haider_bot/main.py:50-59 | A configured `poll_interval_ms` is used in seconds, clamped to at least 0.2. |
| BotMain.ExchangeOnlySections | haider_bot/main.py:36-39 | A file with only an `exchange` section reads every other section as empty. |
| BotMain.ShadePrice | haider_bot/main.py:111-116 | With no shading the base price is rounded to the tick. With shading, a buy moves down by `shade_ticks` ticks and anything else moves up, and then the price is rounded. |
| BotMain.ShadeIsMakerSafe | haider_bot/main.py:111-116 | With a positive tick and at least one tick of shade, a buy is priced strictly below the base and a sell strictly above. |
| BotMain.ShadeOnGrid | haider_bot/main.py:111-116 | A base price already on the tick grid moves by exactly `shade_ticks` ticks. |
| BotMain.ParsePosition | haider_bot/main.py:69-100 | A failed positions call is flat. A reply that is not a dict raises. A result with no recognised records is flat. A parsed average is never 0. |
| BotMain.ParseRecord | haider_bot/main.py:89-100 | A first item that is not a dict is flat. A parsed average is never 0. |
| BotMain.ParsePositionRoundTrip | haider_bot/main.py:69-100 | Every position reads back from its exchange payload, in each of the four shapes, unless its average is recorded as 0. |
| BotMain.SideRoundTrip | haider_bot/main.py:92-97 | `buy` reads as long, `sell` as short, and anything else as flat. |
| BotMain.RecordRoundTrip | haider_bot/main.py:89-100 | One position record reads back as the position it describes. |
| BotMain.NumericKeyIsNotAName | haider_bot/main.py:81-84 | A product id's text is never `positions`, so a record keyed by the product id is never read as the `positions` list. |
| BotMain.ParsePositionFirstItemOnly | haider_bot/main.py:89 | Only the first record of a list counts. |
| BotMain.Target | haider_bot/main.py:140-141 | A target records the intent's side name and its shaded price. |
| BotMain.PlaceCall | haider_bot/main.py:143-152 | The k-th placement is a limit order call. |
| BotMain.PlaceCallCarriesIntent | haider_bot/main.py:143-152 | A placement asks for the intent's side and size at the target price, on the product, post-only as configured, good till cancelled, not reduce-only, with the `HAIDER-` id whose sequence number is k+1. |
| BotMain.Placements | haider_bot/main.py:139-155 | There is one placement per handled intent, in order. |
| BotMain.Targets | haider_bot/main.py:137-141 | There is one target per handled intent, in order. |
| BotMain.FirstFatal | haider_bot/main.py:154-155 | Finds the first placement that raised something other than `DeltaAPIError`, if there is one; none before it did. |
| BotMain.FirstFatalStable | haider_bot/main.py:139-155 | Once a placement has escaped, later intents do not change which one stopped the loop. |
| BotMain.OpenItems | haider_bot/main.py:129-134 | A failed listing call is read as no open orders. |
| BotMain.OwnedId | haider_bot/main.py:160-162 | An owned id starts with `HAIDER-` and is the order's own text `client_order_id`. |
| BotMain.Decide | haider_bot/main.py:159-174 | A listed item that is not a dict raises. An order is cancelled exactly when it is bot-owned and its side and rounded price are not a target; the cancel names its own id. |
| BotMain.SyncIntents | haider_bot/main.py:119-174 | The calls, targets and escape of one cycle are those of the cycle's specification `SyncSpec`. |
| BotMain.PlaceIntents | haider_bot/main.py:137-155 | The placement loop raises exactly when some placement escapes. It makes the placements and records the targets of every intent up to and including that one. |
| BotMain.CancelStale | haider_bot/main.py:158-174 | The cancel loop issues the cancels of `CancelPass` and raises when that does. |
| BotMain.CancelPassStops | haider_bot/main.py:159-174 | Once the cancel loop has raised on a prefix of the listing, the rest of the listing changes nothing. |
| BotMain.CancelPassSound | haider_bot/main.py:159-174 | Every cancel is for some listed bot-owned order that matches no target. |
| BotMain.CancelPassComplete | haider_bot/main.py:159-174 | When every listed order is a dict the loop completes and cancels each bot-owned order that matches no target. |
| BotMain.SyncNoCancelsWhenListingFails | haider_bot/main.py:129-134 | When listing the open orders fails, the cycle cancels nothing. |
| BotMain.SyncCancelsOnlyOwned | haider_bot/main.py:159-174 | Every cancel of a cycle names the product and a `HAIDER-` client id that is the owned id of some dict in the listing, and never an exchange order id. |
| BotMain.SyncCancelsExactlyStale | haider_bot/main.py:119-174 | When no placement escapes and the listing holds dicts only, the cycle completes. It cancels a client id exactly when a listed bot-owned order carries it with a side and rounded price not among the targets. |
| BotMain.SyncPlacesEveryIntent | haider_bot/main.py:137-155 | While placements fail only with `DeltaAPIError`, every intent is placed in order with sequence numbers 1, 2, … and every target is recorded. |
| BotMain.SyncHead | haider_bot/main.py:129-155 | A cycle's calls start with the listing and then the placements it handled, and its targets are theirs. |
| BotMain.SyncStopsAtEscape | haider_bot/main.py:139-155 | When placement k raises something other than `DeltaAPIError`, the cycle stops there. Its target is recorded, no later intent is placed and nothing is cancelled. |
| DeltaAdapter.BaseUrl | haider_bot/adapters/delta_adapter.py:9-31 | "live" selects the live host; every other mode selects the demo host. |
| DeltaAdapter.QueryString | haider_bot/adapters/delta_adapter.py:60-62 | The query string is empty exactly when there are no params; otherwise it is `?` followed by the urlencoded params. |
| DeltaAdapter.Payload | haider_bot/adapters/delta_adapter.py:56-59 | The payload is compact JSON of the body when there is one, and empty otherwise. |
| DeltaAdapter.SignedMessage | haider_bot/adapters/delta_adapter.py:45-62 | The signed text is the verb, the epoch seconds, the path, the query string with its `?`, and the payload. |
| DeltaAdapter.PrepareRequest | haider_bot/adapters/delta_adapter.py:53-67 | The request has the verb and the base URL plus path, and the params go to `requests`. A body is sent exactly when the payload is not empty. `Accept` and `User-Agent` are always present. Only an authenticated request carries the key, the clock and the signature of `SignedMessage`. |
| DeltaAdapter.AuthHeaderValues | haider_bot/adapters/delta_adapter.py:35-43 | Each of the six authenticated headers has its value. |
| DeltaAdapter.PublicHeaderValues | haider_bot/adapters/delta_adapter.py:63 | A public request carries `Accept` and `User-Agent` and no key or signature. |
| DeltaAdapter.Classify | haider_bot/adapters/delta_adapter.py:67-75 | Status 429 is a rate-limit `DeltaAPIError` and any other error status is an HTTP `DeltaAPIError`. A dict whose `success` is False is rejected. No reply, or a body that cannot be decoded from an ok status, is some other exception. Everything else is the decoded data. |
| DeltaAdapter.Forward | haider_bot/adapters/delta_adapter.py:79 | A failed request's exception propagates unchanged. |
| DeltaAdapter.ParseProduct | haider_bot/adapters/delta_adapter.py:78-93 | A failed request propagates. A reply that is not a dict is some other exception. A dict reply gives the instrument or a bad-product `DeltaAPIError`. |
| DeltaAdapter.ProductRoundTrip | haider_bot/adapters/delta_adapter.py:78-93 | Every instrument reads back from its own product payload. |
| DeltaAdapter.ProductFields | haider_bot/adapters/delta_adapter.py:78-93 | A parsed product holds `int()` of `id`, `str()` of `symbol` and `float()` of `tick_size` and `contract_value`, each 0 when missing; a dict result parses exactly when `id` and `symbol` are present and all four values read. |
| DeltaAdapter.ProductDefaults | haider_bot/adapters/delta_adapter.py:84-85 | A missing tick size or contract value reads as 0. |
| DeltaAdapter.ProductNeedsId | haider_bot/adapters/delta_adapter.py:81-87 | A product without an `id` is a bad-product `DeltaAPIError`. |
| DeltaAdapter.OpenOrdersParams | haider_bot/adapters/delta_adapter.py:113-117 | `states` is always first; `product_ids` follows exactly when it is truthy. |
| DeltaAdapter.PositionsParams | haider_bot/adapters/delta_adapter.py:105-111 | Each filter that is not None appears once, `product_id` first, and no other filter appears. |
| DeltaAdapter.PlaceBody | haider_bot/adapters/delta_adapter.py:119-131 | Gives each fixed field of a limit order its value, the price as its text. `client_order_id` is present exactly when it is truthy. |
| DeltaAdapter.CancelBody | haider_bot/adapters/delta_adapter.py:134-141 | The keys are exactly those of `id`, `client_order_id` and `product_id` that are not None, in that order, each with its value. |
| DeltaAdapter.ProductRequestIsPublic | haider_bot/adapters/delta_adapter.py:78-79 | The product lookup is a GET of the product's path with no params, no body, no key and no signature. |
| DeltaAdapter.ReadRequestsAreSigned | haider_bot/adapters/delta_adapter.py:105-117 | The position and open-order reads are signed GETs that carry their filters as params and send no body. |
| DeltaAdapter.WriteRequestsCarryBody | haider_bot/adapters/delta_adapter.py:119-142 | A placement is a POST and a cancel a DELETE, both signed, to `/v2/orders`, with no params and their body as compact JSON. |
| DeltaAdapter.CallBody | haider_bot/adapters/delta_adapter.py:119-142 | Exactly the writing calls have a body. |
| SrcDeltaClient.NewClient | src/delta_client.py:35-46 | Keeps the credentials. The base URL loses its trailing slashes and never ends with one. |
| SrcDeltaClient.SigningMessage | src/delta_client.py:85-90 | The signed text is the verb, the clock and the path; then `?` and the query only when there is a query; then the body. |
| SrcDeltaClient.Target | src/delta_client.py:121-133 | The target is the endpoint, followed by `?` and the joined query when there are params. |
| SrcDeltaClient.RequestBody | src/delta_client.py:136-138 | The body is compact non-ASCII-preserving JSON when data is given, and empty otherwise. |
| SrcDeltaClient.RequestHeaders | src/delta_client.py:149-162 | JSON content type and accept are always present. A public GET carries no key, signature or clock; any other request carries all three. |
| SrcDeltaClient.BuildRequest | src/delta_client.py:107-172 | Returns nothing exactly for an unsupported verb. The query is put in the URL. A GET sends no body; other verbs send the body when it is non-empty. The headers are those of `RequestHeaders`. |
| SrcDeltaClient.SignatureCoversSentRequest | src/delta_client.py:121-170 | For a signed request, the signature covers the verb, the clock, the exact target sent and the exact body sent. |
| SrcDeltaClient.SigningMessageIsTarget | src/delta_client.py:85-90 | The signed text is the verb, the clock, the request target and the body. |
| SrcDeltaClient.ErrorDict | src/delta_client.py:177-199 | The error dict has exactly the keys `success`, `status` and `error`. |
| SrcDeltaClient.Respond | src/delta_client.py:174-199 | An ok reply gives its decoded body. An error status gives an error dict with the status and the decoded body, or the text when the body cannot be decoded. An undecodable ok reply gives status None and the decode error. No reply gives status None and the exception's text. |
| SrcDeltaClient.FailuresAreFlagged | src/delta_client.py:174-199 | Unless the exchange succeeded with a decodable body, the result says `success: False`. |
| SrcDeltaClient.CollectPieces | src/delta_client.py:129-131 | The loop collects `k=v` for each param, in order. |
| SrcDeltaClient.JoinPieces | src/delta_client.py:129-133 | Joining the pieces with `&` is the query string. |
| SrcDeltaClient.MakeRequest | src/delta_client.py:107-199 | The request sent is `BuildRequest`'s. An unsupported verb raises. Anything else returns the error-folding result of the exchange. |
| SrcDeltaClient.CancelPayload | src/delta_client.py:437-441 | The first batch names the order, then the product id when given, else the product symbol; with neither it is the bare batch. |
| SrcDeltaClient.Noted | src/delta_client.py:445-447 | Adding the note sets `note` and keeps every other key. |
| SrcDeltaClient.NotedKeepsSuccess | src/delta_client.py:445-447 | A noted reply succeeds exactly when the reply did. |
| SrcDeltaClient.DeleteRequest | src/delta_client.py:169-170 | A DELETE is always built. |
| SrcDeltaClient.CancelOrder | src/delta_client.py:413-465 | First comes the batch with context. On failure with context, the bare batch follows; otherwise, or if that also fails, the DELETE on the order's path follows. There are 1 to 3 requests, at most 2 without context. A success returns the reply with a note naming the step. |
| SrcDeltaClient.AfterBatch | src/delta_client.py:450-465 | After a failed first batch comes the bare batch when there was context, then the DELETE on the path. |
| SrcDeltaClient.CancelSuccessIsNoted | src/delta_client.py:445-456 | A cancel that succeeds at a batch step reports success with that step's note. |
| SrcDeltaClient.CancelBatchesCarryPayload | src/delta_client.py:437-465 | The first batch goes to the batch URL with its payload as the body; with product context the bare batch goes there with its own payload; the path DELETE, sent second without context or third after both batches fail, goes to `/v2/orders/{id}` with no body. |
| SrcDeltaClient.PositionsParams | src/delta_client.py:224-231 | There is exactly one filter: the id list when ids are given, else the underlying asset when it is given, else `BTC`. |
| SrcDeltaClient.NoCommaInInt | src/delta_client.py:225 | An integer's text has no comma. |
| SrcDeltaClient.IdListRoundTrip | src/delta_client.py:225 | Splitting the `product_ids` filter at commas and reading each piece gives the ids back. |
| SrcDeltaClient.MarkCandleParams | src/delta_client.py:299-310 | Asks for `MARK:` plus the symbol over the two minutes before the end time. |
| SrcDeltaClient.MarkFromCandles | src/delta_client.py:312-328 | A reply that is not a dict is a failure, and an unsuccessful one comes back unchanged. A success without candles is the "No candle data available" failure; otherwise the result is a mark price or a failure. |
| SrcDeltaClient.MarkIsLastClose | src/delta_client.py:312-328 | For any successful reply with candles, the mark price is the last candle's `close` read by `float()`. A last candle that is not a dict, has no `close`, or whose `close` cannot be read gives the failure. |
| SrcDeltaClient.MarkOfCandleReply | src/delta_client.py:314-324 | On the exchange's reply shape, whatever candles come earlier, the mark price is the last candle's close. |
| SrcDeltaClient.MarkPassesFailureThrough | src/delta_client.py:312-324 | A failed candle request comes back unchanged. |
| SrcDeltaClient.GetMarkPrice | src/delta_client.py:284-328 | The candle request is the public unsigned GET of the candle history, and the result is read from its reply. |
| SrcDeltaClient.OrdersParams | src/delta_client.py:236-254 | The query is the page size and the state, then the id list exactly when ids are given. |
| SrcDeltaClient.ProductsParams | src/delta_client.py:256-270 | The query is empty exactly when no contract types are given; otherwise it is the types joined by commas. |
| SrcDeltaClient.CandleWindow | src/delta_client.py:347-350 | A missing or zero end is the clock. A missing or zero start is an hour before the end. Given bounds are kept. |
| SrcDeltaClient.DefaultWindowIsLastHour | src/delta_client.py:347-350 | With no bounds, or zero bounds, the window is the hour before the clock. |
| SrcDeltaClient.CandleParams | src/delta_client.py:352-359 | The query holds the symbol, the resolution, `start` and `end`, in that order. |
| SrcDeltaClient.CandleParamsReadBack | src/delta_client.py:352-359 | The `start` and `end` sent read back as the window's bounds. |
| SrcDeltaClient.OrderBase | src/delta_client.py:396-404 | The fixed order fields are the seven keys in order, with the product id, size and side given. |
| SrcDeltaClient.GivenField | src/delta_client.py:406-409 | The optional field is present exactly when its string is given and non-empty. |
| SrcDeltaClient.PlaceOrderData | src/delta_client.py:396-411 | The keys are the seven fixed ones, then `limit_price` and then `client_order_id`, each exactly when it is given and non-empty. |
| SrcDeltaClient.PlaceOrderDataValues | src/delta_client.py:396-411 | The product id, size and side hold their values. `limit_price` and `client_order_id` hold their strings when given and non-empty, and are absent otherwise. |
| SrcDeltaClient.TestConnection | src/delta_client.py:484-496 | A dict gives its `success`, False when absent. Any other value gives its truth, and an exception gives False. |
| SrcDeltaClient.TestConnectionMeansSucceeded | src/delta_client.py:484-496 | On a dict the test passes exactly when the reply succeeded. Every failure `_make_request` folds in fails the test. |
| RootDeltaClient.NewClient | delta_client.py:14-30 | Keeps the credentials. The base URL loses its trailing slashes and never ends with one. |
| RootDeltaClient.SigningMessage | delta_client.py:32-54 | The signed text is exactly the verb, the clock, the path, the query with no `?`, and the body. |
| RootDeltaClient.MessagesDisagreeOnQuery | delta_client.py:46 | With a query, this client and the `src` client never sign the same text for the same request. |
| RootDeltaClient.MessagesAgreeWithoutQuery | delta_client.py:46 | Without a query both clients sign the same text. |
| RootDeltaClient.SignedBody | delta_client.py:77-78 | The signed body is `json.dumps` of the data when the data is truthy, and empty otherwise. |
| RootDeltaClient.Headers | delta_client.py:84-89 | Every request carries the key, the signature, the clock and a JSON content type. |
| RootDeltaClient.BuildRequest | delta_client.py:56-99 | Returns nothing exactly for an unsupported verb. GET and DELETE pass the params and send no body. POST sends `json=` data encoded by `json.dumps`. Every request is signed. |
| RootDeltaClient.Respond | delta_client.py:101-113 | A decoded body is returned whatever the status. No reply, or an undecodable body, re-raises. |
| RootDeltaClient.StatusDoesNotMatter | delta_client.py:101-113 | Two replies with the same body give the same result. |
| RootDeltaClient.MakeRequest | delta_client.py:56-113 | The request sent is `BuildRequest`'s. An unsupported verb raises. Anything else gives `Respond`'s result. |
| RootDeltaClient.SignatureCoversBody | delta_client.py:77-97 | When the signed body is the body sent, the signature covers the path, the raw query and the bytes sent. |
| RootDeltaClient.CancelOrderRequest | delta_client.py:260-270 | A DELETE on the order's own path with no params and no body, signed over verb, clock and path. |
| RootDeltaClient.MarkPriceResult | delta_client.py:186-206 | An exception, or a reply that is not a dict, gives a failure with the exception's text. An unsuccessful product reply comes back unchanged. A successful one whose `result` is a dict (`{}` when absent) gives success and the product's `mark_price`, or None; any other `result` is a failure. |
| RootDeltaClient.MarkPriceFromProduct | delta_client.py:196-204 | Any successful product reply whose `result` is a dict gives success and the product's `mark_price`, or None when the product has none. |
| RootDeltaClient.CancelAllData | delta_client.py:272-286 | The data is falsy exactly when no product ids are given. |
| RootDeltaClient.CancelAllRequest | delta_client.py:272-286 | As written: a DELETE that sends no body but is signed over the data. |
| RootDeltaClient.CancelAllSignsUnsentBody | delta_client.py:272-286 | With product ids, the signed text is not the text of the request sent. |
| RootDeltaClient.CancelAllRequestFixed | delta_client.py:272-286 | Corrected: the signature covers the body the request carries. With no ids there is no body; with ids the body is the `json.dumps` of the data. |
| RootDeltaClient.PositionsParams | delta_client.py:124-138 | The query is empty exactly when no ids are given; otherwise it is the id list. |
| RootDeltaClient.OrdersParams | delta_client.py:140-156 | The query is the page size, then the id list exactly when ids are given, and never a state. |
| RootDeltaClient.TestConnection | delta_client.py:288-300 | A dict gives its `success`, False when absent. Anything else, and an exception, gives False. |
| RootDeltaClient.TestConnectionsDiffer | delta_client.py:288-300 | The two clients' connection tests differ exactly on a truthy reply that is not a dict. |
| SrcWsClient.WsUrl | src/ws_client.py:26-28 | The testnet flag selects the testnet host and otherwise the live host. |
| SrcWsClient.MarkSymbols | src/ws_client.py:96 | Every symbol asked for gets `MARK:` in front, in order. |
| SrcWsClient.AuthSigningMessage | src/ws_client.py:268-271 | The auth signature covers `GET`, the seconds and `/live`. |
| SrcWsClient.AuthOf | src/ws_client.py:156-158 | There is an auth message exactly when both credentials are set. |
| SrcWsClient.OfferLosesNothing | src/ws_client.py:291-304 | Offering a message sends it or queues it, and keeps what was sent and queued before. |
| SrcWsClient.FlushSplitsQueue | src/ws_client.py:306-317 | A flush splits the queue between the messages sent and the messages kept. |
| SrcWsClient.FlushLosesNothing | src/ws_client.py:306-317 | A flush loses no message and keeps what was sent before. |
| SrcWsClient.FlushOverGoodWire | src/ws_client.py:306-317 | When every send succeeds, the whole queue goes out in order and the outbox empties. |
| SrcWsClient.FlushOverDeadWire | src/ws_client.py:306-317 | When every send fails, the outbox is unchanged. |
| SrcWsClient.PositionKey | src/ws_client.py:230-232 | A position key is non-empty and stripped. |
| SrcWsClient.PositionKeyFromProductSymbol | src/ws_client.py:230-232 | A non-empty `product_symbol` string decides the key: its stripped text, or no key when that is empty. |
| SrcWsClient.PositionKeyFromSymbol | src/ws_client.py:230-232 | When `product_symbol` is missing or falsy, a non-empty `symbol` string decides the key in the same way. |
| SrcWsClient.PositionKeyMissing | src/ws_client.py:230-232 | With neither symbol truthy there is no key. |
| SrcWsClient.PositionEffect | src/ws_client.py:229-233 | A non-dict raises. A record without a usable symbol is skipped; any other record is stored under its key. |
| SrcWsClient.OrderEffect | src/ws_client.py:247-261 | A non-dict raises and an item without an id is skipped. A closed state drops the id's key. An open record is stored under the text of its id. |
| SrcWsClient.ReduceAppend | src/ws_client.py:229-261 | A list whose items all go through is reduced piece by piece. |
| SrcWsClient.OrdersStayOpen | src/ws_client.py:247-261 | After order updates, the store still holds only open orders. |
| SrcWsClient.LastOrderUpdateWins | src/ws_client.py:247-261 | The last update for an id decides it: a closed state removes the key, an open one stores the record, and an update without an id changes nothing. |
| SrcWsClient.Items | src/ws_client.py:222-227 | A list is taken as it is, a dict as a one-item list, and anything else as no items. |
| SrcWsClient.MarkUpdate | src/ws_client.py:203-214 | There is an update exactly when the symbol is text starting with `MARK:` and the price is present and readable. It is stored under the text after `MARK:`. |
| SrcWsClient.MarkRoundTrip | src/ws_client.py:91-100 | A price for a subscribed channel symbol lands under the product symbol asked for. |
| SrcWsClient.Classify | src/ws_client.py:180-262 | Non-dicts, undecodable frames and heartbeats are ignored. Authentication is exactly the `success`/`Authenticated` pair. A `mark_price`, `positions` or `orders` type gives that frame with its fields or items, and any other type is ignored. |
| SrcWsClient.WsClient.constructor | src/ws_client.py:25-51 | A fresh client has the chosen URL, no socket, no flags, no credentials, empty stores and an empty outbox. |
| SrcWsClient.WsClient.ConfigureAuth | src/ws_client.py:54-57 | Stores the credentials. |
| SrcWsClient.WsClient.Connect | src/ws_client.py:59-79 | Afterwards the socket exists. |
| SrcWsClient.WsClient.SendOrQueue | src/ws_client.py:291-304 | The outgoing state becomes `Offer` of the old one. |
| SrcWsClient.WsClient.FlushOutbox | src/ws_client.py:306-317 | The outgoing state becomes `Flush` of the old one. |
| SrcWsClient.WsClient.SubscribeMark | src/ws_client.py:91-100 | Offers the mark subscription as a message that needs authentication. |
| SrcWsClient.WsClient.SubscribePrivateChannels | src/ws_client.py:102-113 | Offers the private subscription as a message that needs authentication. |
| SrcWsClient.WsClient.EnableHeartbeat | src/ws_client.py:115-118 | Offers the heartbeat request without waiting for authentication. |
| SrcWsClient.WsClient.SendAuth | src/ws_client.py:265-289 | Without both credentials nothing changes; otherwise the signed auth message is offered without waiting for authentication. |
| SrcWsClient.WsClient.OnOpen | src/ws_client.py:150-169 | The client is connected. It offers the auth message when there is one, then the heartbeat request, then flushes. |
| SrcWsClient.WsClient.OnClose | src/ws_client.py:171-175 | The client is neither connected nor authenticated. |
| SrcWsClient.WsClient.ApplyPositions | src/ws_client.py:228-233 | The positions store becomes the reduction of the items. |
| SrcWsClient.WsClient.ApplyOrders | src/ws_client.py:246-261 | The order store becomes the reduction of the items and holds only open orders. |
| SrcWsClient.WsClient.OnMessage | src/ws_client.py:180-262 | Each kind of frame changes exactly its own part of the state. Ignored frames change nothing. Auth marks the client authenticated and offers the private subscription. Marks, positions and orders update their stores. |
| SrcWsClient.WsClient.OnAuthenticated | src/ws_client.py:192-196 | As written: authenticated, and the private subscription is offered, with no flush. |
| SrcWsClient.WsClient.OnAuthenticatedFixed | src/ws_client.py:192-196 | Corrected: the same steps followed by a flush of the outbox. |
| SrcWsClient.WsClient.GetLatestMark | src/ws_client.py:121-123 | Gives the stored mark for the symbol, or None. |
| SrcWsClient.WsClient.GetPositions | src/ws_client.py:125-128 | Gives the positions store. |
| SrcWsClient.WsClient.GetOrders | src/ws_client.py:130-132 | Gives the order store, which holds only open orders. |
| SrcWsClient.AuthenticatedReplyAuthenticates | src/ws_client.py:192 | The exchange's `Authenticated` reply takes the authentication branch. |
| SrcWsClient.OpenedClient | src/ws_client.py:150-169 | After auth is configured, a connected client over a reliable wire has sent the auth message and the heartbeat request and is not yet authenticated. |
| SrcWsClient.QueuedMarkAsWritten | src/ws_client.py:192-196 | As written: a mark subscription made before the `Authenticated` reply stays queued after it. |
| SrcWsClient.QueuedMarkFixed | src/ws_client.py:192-196 | Corrected: the queued mark subscription goes out after authentication. |
| RootWsClient.MarkUpdate | ws_client.py:42-53 | There is an update exactly when the symbol starts with `MARK:` and the price is readable and non-zero. It is stored under the text after `MARK:`. |
| RootWsClient.MarkFrame | ws_client.py:36-42 | Exactly decoded dicts of type `mark_price` are mark frames. |
| RootWsClient.ClientsAgreeOnNonzeroPrices | ws_client.py:50 | On a price that is not zero, both WebSocket clients store the same key and value. |
| RootWsClient.ZeroPriceIsIgnoredHereOnly | ws_client.py:50 | A zero price is stored by the `src` client and ignored by this one. |
| RootWsClient.MarkRoundTrip | ws_client.py:90-103 | A non-zero price for a subscribed channel symbol lands under the product symbol asked for. |
| RootWsClient.WsClient.constructor | ws_client.py:12-22 | A fresh client has the chosen URL, no socket, no connection and no marks. |
| RootWsClient.WsClient.Connect | ws_client.py:55-68 | Afterwards the socket exists. |
| RootWsClient.WsClient.OnOpen | ws_client.py:24-26 | The client is connected. |
| RootWsClient.WsClient.OnClose | ws_client.py:28-30 | The client is not connected. |
| RootWsClient.WsClient.OnMessage | ws_client.py:35-53 | Only a mark frame changes the marks, and then only by its update. |
| RootWsClient.WsClient.SubscribeMark | ws_client.py:90-107 | Without a socket it does nothing. Otherwise it makes one send attempt; a failed send is lost. |
| RootWsClient.WsClient.GetLatestMark | ws_client.py:109-111 | Gives the stored mark for the symbol, or None. |
| Text.Strip | src/ws_client.py:230 | The result has no leading or trailing whitespace, and text without whitespace is unchanged. |
| Text.StripIsSlice | src/ws_client.py:230 | The result is a slice of the text, with only whitespace cut from either side. |
| Text.RStrip | src/delta_client.py:46 | Drops exactly the trailing run of the character. |
| Text.IntToStringRoundTrip | src/delta_client.py:225 | `int(str(i)) == i`. |
| Text.FloatOfIntText | haider_bot/main.py:98 | `float(str(i)) == i`. |
| Text.SplitJoin | src/delta_client.py:225 | Splitting a join at a separator no part contains gives the parts back. |
| PyJson.Get | haider_bot/main.py:75 | A key is found exactly when the dict holds it. |
| PyJson.Put | src/delta_client.py:446 | Setting a key binds it and keeps every other key. |
| PyJson.PyFloat | haider_bot/main.py:98-99 | `float()` reads ints and floats, and refuses None, lists and dicts. |
| Http.QueryJoinContainsPairs | src/delta_client.py:129-133 | Every `k=v` of the params appears in the query string. |
| Http.QueryJoinAppend | src/delta_client.py:129-133 | One more param adds `&k=v` at the end. |

## Left out

- Loading YAML and reading `.env` are left out. `BotMain.LoadConfig` starts from the value `yaml.safe_load` gives, and the environment is a map.
- `run_bot`, `cli` and the signal handler (haider_bot/main.py:177-312) are left out: the polling loop, sleeping, logging setup and process exit codes are I/O around one cycle, which is what `BotMain.SyncIntents` models.
- `ensure_leverage` and the adapter's `set_order_leverage` are left out: they are a single logged call with no logic to prove.
- The adapter's `get_ticker` and `get_mark_price` are left out. They return `result or {}` and `float(mark_price)`, or NaN, and floating-point NaN is not modelled.
- The adapter's `cancel_all` is left out: it is the same DELETE as `cancel_order` on another path.
- Rate limiting in `src/delta_client.py` (the sleep on wall-clock time), `DELTA_FORCE_IPV4`, and the debug logging of the environment are left out: they are timing and sockets, with no effect on the values.
- In `src/delta_client.py`, the wrappers' queries and data are modelled (`SrcDeltaClient.PositionsParams`, `OrdersParams`, `ProductsParams`, `CandleParams`, `PlaceOrderData`, `CancelPayload`, `RootDeltaClient.CancelAllData`) and so is `test_connection` (`SrcDeltaClient.TestConnection`). The step that hands them to `_make_request` is not restated per wrapper; it is `SrcDeltaClient.MakeRequest`. Four wrappers build nothing of their own and only forward to it: `get_account_balance` (GET `/v2/wallet/balances`, no params), `get_product_by_symbol` (GET `/v2/products/{symbol}`), `get_orderbook` (GET `/v2/products/{symbol}/orders` with `depth`), and `cancel_all_orders`, whose data is `RootDeltaClient.CancelAllData`'s and is sent as the body. The file's second `DeltaWebSocketClient` class is not part of this model.
- In `delta_client.py`, the queries of `get_positions` and `get_orders` are modelled (`RootDeltaClient.PositionsParams`, `RootDeltaClient.OrdersParams`), and so is `test_connection` (`RootDeltaClient.TestConnection`). `get_products` builds the same query as `SrcDeltaClient.ProductsParams`, and `place_order` the same data as `SrcDeltaClient.PlaceOrderData`. `get_account_balance`, `get_product_by_symbol` and `get_orderbook` only forward to `_make_request`, which is `RootDeltaClient.MakeRequest`.
- Threads, locks and events are left out: `_run_forever`, the wait in `connect`, `close` and the reconnect loop. Each callback is modelled as one atomic step. The `get_latest_mark_price` aliases are the same as `GetLatestMark`.
- `Text.Lower`, `Text.Upper`: only ASCII letters change case; Python's full Unicode case mapping is not modelled.
- `PyJson.PyStr`: `str()` is rendered only for None, booleans, integers and strings, not for floats, lists or dicts. A WebSocket position or order keyed by such a value is skipped, and a product whose symbol is such a value is a bad product. `BotMain.LoadConfig` (through `BotMain.ReadSettings`) raises for a float, list or dict `symbol`, `mode` or logging `level`, where haider_bot/main.py:48-54 would keep its `str()` text.
- `Text.ParseFloatText`: `float()` of text reads optionally signed decimals after stripping surrounding whitespace. Exponents, `inf`, `nan`, `_` digit separators and non-ASCII digits are not read.
- `Text.ParseIntText`: `int()` of text reads optionally signed ASCII digit strings after stripping surrounding whitespace. The `_` digit separators (`"1_000"`) and non-ASCII digits that Python's `int()` also accepts are not read.
- `BotUtils.RoundPrice`, `BotUtils.RoundQty`: the re-reading through ten decimal places (`:.10f`) is not modelled. On exact reals it only matters for ticks finer than 1e-10, and it exists to shed binary floating-point noise, which exact reals do not have.
- `SrcDeltaClient.Respond`: an undecodable body on an ok status is modelled as the error dict with status None, the way `requests`' decode error reaches the handler without a response. The text of an exception (`str(e)`) is given as a parameter.
- `SrcWsClient.WsClient.SendAuth`: the path where computing the HMAC raises is not modelled, since the HMAC is a total function of the codec. An exception raised inside a WebSocket callback is modelled only as ending the loop it was raised in.
- `BotMain.SyncIntents`: sequence numbers increase only for placements that got as far as the id, so the clock reading for each id is a parameter. Intents are not deduplicated, as in the source.
- `DeltaAdapter.RequestFor`: its properties are stated in `DeltaAdapter.ProductRequestIsPublic`, `DeltaAdapter.ReadRequestsAreSigned` and `DeltaAdapter.WriteRequestsCarryBody`, not on the function itself.
- `BotMain.LoadConfig`: the contract states the poll clamp and the failure on a file that is not a mapping. Each default is stated by `BotMain.LoadConfigDefaults`, `BotMain.SettingsDefaults` and `BotMain.GridDefaults`, not field by field for every input.

## Findings

| source | as written | input that shows it | evidently intended | confidence | as-written member | corrected member |
|---|---|---|---|---|---|---|
| delta_client.py:272-286 | `cancel_all_orders` sends its `product_ids` data with DELETE. `_make_request` signs `json.dumps(data)` but sends a DELETE with no body (delta_client.py:96-97). The signature covers bytes the exchange never receives. | `cancel_all_orders(product_ids=[1])` | The signed body is the body sent. | not executed | RootDeltaClient.CancelAllSignsUnsentBody | RootDeltaClient.CancelAllRequestFixed |
| src/ws_client.py:192-196 | After the `Authenticated` reply, the handler subscribes to the private channels but never flushes the outbox. Subscriptions queued while waiting for authentication (src/ws_client.py:297-298) stay queued until the next reconnect. | credentials set, `connect`, socket opens, `subscribe_mark(["BTCUSD"])` before the reply, then the `Authenticated` reply | Messages queued for authentication go out once the client is authenticated. | not executed | SrcWsClient.QueuedMarkAsWritten | SrcWsClient.QueuedMarkFixed |
