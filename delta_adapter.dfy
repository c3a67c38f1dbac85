/**
 * The bot's REST adapter: base URL selection, the HMAC signing message, the
 * request it hands to `requests`, the classification of the reply into data
 * or `DeltaAPIError`, product parsing, and the bodies and query parameters of
 * the calls the bot makes. Nothing is retried: one call is one request.
 */
module DeltaAdapter {
  import opened Wrappers
  import opened Text
  import opened PyJson
  import opened Http

  const LiveUrl: string := "https://api.india.delta.exchange"
  const DemoUrl: string := "https://cdn-ind.testnet.deltaex.org"

  /** `BASE_URLS.get(mode, BASE_URLS["demo"])`: "live" picks the live host, every other mode the demo host. */
  function BaseUrl(mode: string): (url: string)
    ensures url == LiveUrl <==> mode == "live"
    ensures url == DemoUrl <==> mode != "live"
  {
    assert LiveUrl[8] != DemoUrl[8];
    if mode == "live" then LiveUrl else DemoUrl
  }

  /** The adapter's settings; `DeltaAdapter(key, secret, mode, ua)` is `Adapter(key, secret, BaseUrl(mode), ua)`. */
  datatype Adapter = Adapter(apiKey: string, apiSecret: string, baseUrl: string, userAgent: string)

  // ---------------------------------------------------------------- signing and the request

  /** The query string `_request` signs: `"?" + urlencode(params)` when there are params, else empty. */
  function QueryString(codec: Codec, params: seq<(string, string)>): (qs: string)
    ensures qs == "" <==> params == []
    ensures params != [] ==> qs == "?" + codec.urlencode(params)
  {
    if params != [] then "?" + codec.urlencode(params) else ""
  }

  /** The payload `_request` signs and sends: compact JSON of the body when one is given, else empty. */
  function Payload(codec: Codec, body: Option<Json>): (p: string)
    ensures body.None? ==> p == ""
    ensures body.Some? ==> p == codec.compactJson(body.value)
  {
    match body
    case None => ""
    case Some(b) => codec.compactJson(b)
  }

  /**
   * The message `_sign` authenticates for a request: the verb, the clock
   * reading in whole seconds, the path, then the query string with its `?`
   * and the payload.
   */
  function SignedMessage(codec: Codec, verb: string, path: string, params: seq<(string, string)>, body: Option<Json>, epoch: int): (m: string)
    ensures params != [] ==> m == verb + IntToString(epoch) + path + "?" + codec.urlencode(params) + Payload(codec, body)
    ensures params == [] ==> m == verb + IntToString(epoch) + path + Payload(codec, body)
    ensures params == [] && body.None? ==> m == verb + IntToString(epoch) + path
  {
    verb + IntToString(epoch) + path + QueryString(codec, params) + Payload(codec, body)
  }

  /** `_headers(signature, timestamp)`. */
  function AuthHeaders(a: Adapter, signature: string, timestamp: string): seq<(string, string)> {
    [("api-key", a.apiKey), ("timestamp", timestamp), ("signature", signature),
     ("User-Agent", a.userAgent), ("Content-Type", "application/json"), ("Accept", "application/json")]
  }

  /** The headers of an unauthenticated request. */
  function PublicHeaders(a: Adapter): seq<(string, string)> {
    [("Accept", "application/json"), ("User-Agent", a.userAgent)]
  }

  /**
   * What `_request` hands to `requests.request`: the URL is the base URL and
   * the path, `requests` encodes `params` itself, the body is the payload or
   * nothing when the payload is empty, and only an authenticated request
   * carries the key, the clock reading and the signature.
   */
  function PrepareRequest(a: Adapter, codec: Codec, verb: string, path: string, params: seq<(string, string)>,
                          body: Option<Json>, auth: bool, epoch: int): (r: Request)
    ensures r.verb == verb && r.url == a.baseUrl + path && r.params == params
    ensures Payload(codec, body) == "" ==> r.data == None
    ensures Payload(codec, body) != "" ==> r.data == Some(Payload(codec, body))
    ensures Header(r.headers, "Accept") == Some("application/json")
    ensures Header(r.headers, "User-Agent") == Some(a.userAgent)
    ensures !auth ==> "api-key" !in Keys(r.headers) && "signature" !in Keys(r.headers)
                      && "timestamp" !in Keys(r.headers)
    ensures auth ==> Header(r.headers, "api-key") == Some(a.apiKey)
                     && Header(r.headers, "timestamp") == Some(IntToString(epoch))
                     && Header(r.headers, "signature") == Some(codec.hmacSha256Hex(a.apiSecret, SignedMessage(codec, verb, path, params, body, epoch)))
                     && Header(r.headers, "Content-Type") == Some("application/json")
  {
    var payload := Payload(codec, body);
    var ts := IntToString(epoch);
    var signature := codec.hmacSha256Hex(a.apiSecret, SignedMessage(codec, verb, path, params, body, epoch));
    var headers := if auth then AuthHeaders(a, signature, ts) else PublicHeaders(a);
    AuthHeaderValues(a, signature, ts);
    PublicHeaderValues(a);
    Request(verb, a.baseUrl + path, params, if payload != "" then Some(payload) else None, headers)
  }

  lemma AuthHeaderValues(a: Adapter, signature: string, timestamp: string)
    ensures var h := AuthHeaders(a, signature, timestamp);
      Header(h, "api-key") == Some(a.apiKey) && Header(h, "timestamp") == Some(timestamp)
      && Header(h, "signature") == Some(signature) && Header(h, "User-Agent") == Some(a.userAgent)
      && Header(h, "Content-Type") == Some("application/json") && Header(h, "Accept") == Some("application/json")
  {
    var h := AuthHeaders(a, signature, timestamp);
    HeaderAt(h, "api-key", 0);
    HeaderAt(h, "timestamp", 1);
    HeaderAt(h, "signature", 2);
    HeaderAt(h, "User-Agent", 3);
    HeaderAt(h, "Content-Type", 4);
    HeaderAt(h, "Accept", 5);
  }

  lemma PublicHeaderValues(a: Adapter)
    ensures var h := PublicHeaders(a);
      Header(h, "Accept") == Some("application/json") && Header(h, "User-Agent") == Some(a.userAgent)
      && Keys(h) == ["Accept", "User-Agent"]
  {
    var h := PublicHeaders(a);
    HeaderAt(h, "Accept", 0);
    HeaderAt(h, "User-Agent", 1);
  }

  // ---------------------------------------------------------------- classification

  /** Why a call raised `DeltaAPIError`. */
  datatype ApiError =
    | RateLimited(text: string)
    | HttpStatus(status: int, text: string)
    | Rejected(data: Json)
    | BadProduct(symbol: string)

  /** A call's result: its value, a `DeltaAPIError`, or any other exception (no reply, an undecodable body). */
  datatype Outcome<T> = Ok(value: T) | ApiFailure(error: ApiError) | OtherFailure(reason: string)

  /** The failure of `o`, carried over to another result type. */
  function Forward<T, U>(o: Outcome<T>): (r: Outcome<U>)
    requires !o.Ok?
    ensures o.ApiFailure? ==> r == ApiFailure(o.error)
    ensures o.OtherFailure? ==> r == OtherFailure(o.reason)
  {
    match o
    case ApiFailure(e) => ApiFailure(e)
    case OtherFailure(s) => OtherFailure(s)
  }

  /** `isinstance(data, dict) and data.get("success") is False`. */
  predicate SaysUnsuccessful(data: Json) {
    data.JObj? && Get(data.fields, "success") == Some(JBool(false))
  }

  /**
   * `_request` after the reply: 429 is "Rate limited", any other status that
   * is not ok is "HTTP …", a dict whose `success` is `False` is rejected, and
   * everything else is the decoded data. A missing reply or an undecodable
   * body is some other exception.
   */
  function Classify(e: Exchange): (o: Outcome<Json>)
    ensures e.NoReply? ==> o == OtherFailure(e.reason)
    ensures e.Delivered? && e.reply.status == 429 ==> o == ApiFailure(RateLimited(e.reply.text))
    ensures (e.Delivered? && e.reply.status != 429 && IsErrorStatus(e.reply.status))
              ==> o == ApiFailure(HttpStatus(e.reply.status, e.reply.text))
    ensures o.Ok? <==> e.Delivered? && e.reply.status != 429 && !IsErrorStatus(e.reply.status)
                       && e.reply.body.Parsed? && !SaysUnsuccessful(e.reply.body.value)
    ensures o.Ok? ==> o.value == e.reply.body.value
    ensures o.ApiFailure? && o.error.Rejected? ==>
              e.Delivered? && e.reply.body == Parsed(o.error.data) && SaysUnsuccessful(o.error.data)
  {
    match e
    case NoReply(reason) => OtherFailure(reason)
    case Delivered(reply) =>
      if reply.status == 429 then ApiFailure(RateLimited(reply.text))
      else if IsErrorStatus(reply.status) then ApiFailure(HttpStatus(reply.status, reply.text))
      else
        match reply.body
        case Unparsable(msg) => OtherFailure(msg)
        case Parsed(data) => if SaysUnsuccessful(data) then ApiFailure(Rejected(data)) else Ok(data)
  }

  // ---------------------------------------------------------------- products

  datatype InstrumentInfo = InstrumentInfo(productId: int, symbol: string, tickSize: real, contractValue: real)

  /** `data.get("result") or {}`. */
  function ResultOrEmpty(fields: seq<(string, Json)>): Json {
    Or(GetOr(fields, "result", JNull), JObj([]))
  }

  /**
   * `get_product_by_symbol` after its request: the product needs an `id`
   * that `int()` accepts and a `symbol`; `tick_size` and `contract_value`
   * default to 0. Any failure in reading them is `DeltaAPIError`; a reply
   * that is not a dict fails on `.get` before that.
   */
  function ParseProduct(symbol: string, o: Outcome<Json>): (r: Outcome<InstrumentInfo>)
    ensures !o.Ok? ==> r == Forward(o)
    ensures o.Ok? && !o.value.JObj? ==> r.OtherFailure?
    ensures o.Ok? && o.value.JObj? ==> r.Ok? || r == ApiFailure(BadProduct(symbol))
    ensures r.Ok? ==> o.Ok? && o.value.JObj? && ResultOrEmpty(o.value.fields).JObj?
                      && "id" in Keys(ResultOrEmpty(o.value.fields).fields)
                      && "symbol" in Keys(ResultOrEmpty(o.value.fields).fields)
  {
    if !o.Ok? then Forward(o)
    else if !o.value.JObj? then OtherFailure("AttributeError: 'get'")
    else
      var result := ResultOrEmpty(o.value.fields);
      if !result.JObj? then ApiFailure(BadProduct(symbol))
      else
        var f := result.fields;
        match (Get(f, "id"), Get(f, "symbol"))
        case (Some(idv), Some(symv)) =>
          (match (PyInt(idv), PyStr(symv), PyFloat(GetOr(f, "tick_size", JInt(0))), PyFloat(GetOr(f, "contract_value", JInt(0))))
           case (Some(pid), Some(sym), Some(tick), Some(cval)) => Ok(InstrumentInfo(pid, sym, tick, cval))
           case _ => ApiFailure(BadProduct(symbol)))
        case _ => ApiFailure(BadProduct(symbol))
  }

  /** The product payload the exchange sends for `info`. */
  function ProductReply(info: InstrumentInfo): Json {
    JObj([("success", JBool(true)),
          ("result", JObj([("id", JInt(info.productId)), ("symbol", JStr(info.symbol)),
                           ("tick_size", JFloat(info.tickSize)), ("contract_value", JFloat(info.contractValue))]))])
  }

  /** Every product reads back from its own payload. */
  lemma ProductRoundTrip(symbol: string, info: InstrumentInfo)
    ensures ParseProduct(symbol, Ok(ProductReply(info))) == Ok(info)
  {
    var f := [("id", JInt(info.productId)), ("symbol", JStr(info.symbol)),
              ("tick_size", JFloat(info.tickSize)), ("contract_value", JFloat(info.contractValue))];
    var d := [("success", JBool(true)), ("result", JObj(f))];
    assert ProductReply(info) == JObj(d);
    GetAt(d, "result", 1);
    GetAt(f, "id", 0);
    GetAt(f, "symbol", 1);
    GetAt(f, "tick_size", 2);
    GetAt(f, "contract_value", 3);
  }

  /**
   * What a parsed product holds: `int()` of its `id`, `str()` of its
   * `symbol`, and `float()` of its `tick_size` and `contract_value`, each 0
   * when missing; and a dict `result` parses exactly when `id` and `symbol`
   * are present and all four values read.
   */
  lemma ProductFields(symbol: string, o: Outcome<Json>)
    ensures var r := ParseProduct(symbol, o);
            r.Ok? ==>
              var f := ResultOrEmpty(o.value.fields).fields;
              Some(r.value.productId) == PyInt(Get(f, "id").value)
              && Some(r.value.symbol) == PyStr(Get(f, "symbol").value)
              && Some(r.value.tickSize) == PyFloat(GetOr(f, "tick_size", JInt(0)))
              && Some(r.value.contractValue) == PyFloat(GetOr(f, "contract_value", JInt(0)))
              && ("tick_size" !in Keys(f) ==> r.value.tickSize == 0.0)
              && ("contract_value" !in Keys(f) ==> r.value.contractValue == 0.0)
    ensures o.Ok? && o.value.JObj? && ResultOrEmpty(o.value.fields).JObj? ==>
              var f := ResultOrEmpty(o.value.fields).fields;
              (ParseProduct(symbol, o).Ok? <==>
                 "id" in Keys(f) && "symbol" in Keys(f)
                 && PyInt(Get(f, "id").value).Some? && PyStr(Get(f, "symbol").value).Some?
                 && PyFloat(GetOr(f, "tick_size", JInt(0))).Some? && PyFloat(GetOr(f, "contract_value", JInt(0))).Some?)
  {
  }

  /** A product without `tick_size` and `contract_value` reads them as 0. */
  lemma ProductDefaults(symbol: string, pid: int, sym: string)
    ensures ParseProduct(symbol, Ok(JObj([("result", JObj([("id", JInt(pid)), ("symbol", JStr(sym))]))])))
            == Ok(InstrumentInfo(pid, sym, 0.0, 0.0))
  {
    var f := [("id", JInt(pid)), ("symbol", JStr(sym))];
    GetAt([("result", JObj(f))], "result", 0);
    GetAt(f, "id", 0);
    GetAt(f, "symbol", 1);
    assert Get(f, "tick_size") == None;
  }

  /** A product without an `id` is `DeltaAPIError`, whatever else it holds. */
  lemma ProductNeedsId(symbol: string, data: seq<(string, Json)>, result: seq<(string, Json)>)
    requires Get(data, "result") == Some(JObj(result)) && result != []
    requires "id" !in Keys(result)
    ensures ParseProduct(symbol, Ok(JObj(data))) == ApiFailure(BadProduct(symbol))
  {
  }

  // ---------------------------------------------------------------- bodies and parameters

  /** `get_open_orders`' params: `states` always, then `product_ids` when it is truthy. */
  function OpenOrdersParams(productIds: Option<string>, states: string): (ps: seq<(string, string)>)
    ensures |ps| >= 1 && ps[0] == ("states", states)
    ensures |ps| == 2 <==> productIds.Some? && productIds.value != ""
    ensures |ps| == 2 ==> ps[1] == ("product_ids", productIds.value)
    ensures |ps| <= 2
  {
    var ps := [("states", states)];
    if productIds.Some? && productIds.value != "" then ps + [("product_ids", productIds.value)] else ps
  }

  /** `get_positions`' params: each filter that is not `None`, `product_id` first. */
  function PositionsParams(productId: Option<int>, underlying: Option<string>): (ps: seq<(string, string)>)
    ensures |ps| == (if productId.Some? then 1 else 0) + (if underlying.Some? then 1 else 0)
    ensures productId.Some? ==> ps[0] == ("product_id", IntToString(productId.value))
    ensures productId.None? ==> forall i :: 0 <= i < |ps| ==> ps[i].0 != "product_id"
    ensures underlying.Some? ==> ps[|ps| - 1] == ("underlying_asset_symbol", underlying.value)
    ensures underlying.None? ==> forall i :: 0 <= i < |ps| ==> ps[i].0 != "underlying_asset_symbol"
  {
    var p1 := if productId.Some? then [("product_id", IntToString(productId.value))] else [];
    var p2 := if underlying.Some? then p1 + [("underlying_asset_symbol", underlying.value)] else p1;
    p2
  }

  /**
   * `place_limit_order`'s body: always a `limit_order` whose `limit_price`
   * is the price written as text, with `client_order_id` only when it is
   * truthy.
   */
  function PlaceBody(codec: Codec, productId: int, side: string, size: int, limitPrice: real, postOnly: bool,
                     clientOrderId: Option<string>, tif: string, reduceOnly: bool): (body: Json)
    ensures body.JObj?
    ensures Get(body.fields, "product_id") == Some(JInt(productId))
    ensures Get(body.fields, "size") == Some(JInt(size))
    ensures Get(body.fields, "side") == Some(JStr(side))
    ensures Get(body.fields, "order_type") == Some(JStr("limit_order"))
    ensures Get(body.fields, "limit_price") == Some(JStr(codec.floatText(limitPrice)))
    ensures Get(body.fields, "time_in_force") == Some(JStr(tif))
    ensures Get(body.fields, "post_only") == Some(JBool(postOnly))
    ensures Get(body.fields, "reduce_only") == Some(JBool(reduceOnly))
    ensures "client_order_id" in Keys(body.fields) <==> clientOrderId.Some? && clientOrderId.value != ""
    ensures "client_order_id" in Keys(body.fields) ==> Get(body.fields, "client_order_id") == Some(JStr(clientOrderId.value))
  {
    var base := [
      ("product_id", JInt(productId)), ("size", JInt(size)), ("side", JStr(side)),
      ("order_type", JStr("limit_order")), ("limit_price", JStr(codec.floatText(limitPrice))),
      ("time_in_force", JStr(tif)), ("post_only", JBool(postOnly)), ("reduce_only", JBool(reduceOnly))];
    PlaceBaseLookups(base, productId, size, side, codec.floatText(limitPrice), tif, postOnly, reduceOnly);
    if clientOrderId.Some? && clientOrderId.value != "" then JObj(Put(base, "client_order_id", JStr(clientOrderId.value)))
    else JObj(base)
  }

  /** The fixed fields of the order body, looked up one pair at a time. */
  lemma PlaceBaseLookups(base: seq<(string, Json)>, productId: int, size: int, side: string, price: string,
                         tif: string, postOnly: bool, reduceOnly: bool)
    requires base == [
      ("product_id", JInt(productId)), ("size", JInt(size)), ("side", JStr(side)),
      ("order_type", JStr("limit_order")), ("limit_price", JStr(price)),
      ("time_in_force", JStr(tif)), ("post_only", JBool(postOnly)), ("reduce_only", JBool(reduceOnly))]
    ensures "client_order_id" !in Keys(base)
    ensures Get(base, "product_id") == Some(JInt(productId))
    ensures Get(base, "size") == Some(JInt(size))
    ensures Get(base, "side") == Some(JStr(side))
    ensures Get(base, "order_type") == Some(JStr("limit_order"))
    ensures Get(base, "limit_price") == Some(JStr(price))
    ensures Get(base, "time_in_force") == Some(JStr(tif))
    ensures Get(base, "post_only") == Some(JBool(postOnly))
    ensures Get(base, "reduce_only") == Some(JBool(reduceOnly))
  {
    PlaceBaseLookups0(base, productId, size, side, price, tif, postOnly, reduceOnly);
    PlaceBaseLookups1(base, productId, size, side, price, tif, postOnly, reduceOnly);
    PlaceBaseLookups2(base, productId, size, side, price, tif, postOnly, reduceOnly);
    PlaceBaseLookups3(base, productId, size, side, price, tif, postOnly, reduceOnly);
    PlaceBaseHasNoId(base, productId, size, side, price, tif, postOnly, reduceOnly);
  }

  lemma PlaceBaseHasNoId(base: seq<(string, Json)>, productId: int, size: int, side: string, price: string,
                         tif: string, postOnly: bool, reduceOnly: bool)
    requires base == [
      ("product_id", JInt(productId)), ("size", JInt(size)), ("side", JStr(side)),
      ("order_type", JStr("limit_order")), ("limit_price", JStr(price)),
      ("time_in_force", JStr(tif)), ("post_only", JBool(postOnly)), ("reduce_only", JBool(reduceOnly))]
    ensures "client_order_id" !in Keys(base)
  {
    assert Keys(base) == ["product_id", "size", "side", "order_type", "limit_price", "time_in_force", "post_only", "reduce_only"];
  }

  lemma PlaceBaseLookups0(base: seq<(string, Json)>, productId: int, size: int, side: string, price: string,
                         tif: string, postOnly: bool, reduceOnly: bool)
    requires base == [
      ("product_id", JInt(productId)), ("size", JInt(size)), ("side", JStr(side)),
      ("order_type", JStr("limit_order")), ("limit_price", JStr(price)),
      ("time_in_force", JStr(tif)), ("post_only", JBool(postOnly)), ("reduce_only", JBool(reduceOnly))]
    ensures Get(base, "product_id") == Some(JInt(productId))
    ensures Get(base, "size") == Some(JInt(size))
  {
    assert base[1].0 != "product_id";
    assert base[2].0 != "product_id";
    assert base[3].0 != "product_id";
    assert base[4].0 != "product_id";
    assert base[5].0 != "product_id";
    assert base[6].0 != "product_id";
    assert base[7].0 != "product_id";
    GetAt(base, "product_id", 0);
    assert base[2].0 != "size";
    assert base[3].0 != "size";
    assert base[4].0 != "size";
    assert base[5].0 != "size";
    assert base[6].0 != "size";
    assert base[7].0 != "size";
    GetAt(base, "size", 1);
  }

  lemma PlaceBaseLookups1(base: seq<(string, Json)>, productId: int, size: int, side: string, price: string,
                         tif: string, postOnly: bool, reduceOnly: bool)
    requires base == [
      ("product_id", JInt(productId)), ("size", JInt(size)), ("side", JStr(side)),
      ("order_type", JStr("limit_order")), ("limit_price", JStr(price)),
      ("time_in_force", JStr(tif)), ("post_only", JBool(postOnly)), ("reduce_only", JBool(reduceOnly))]
    ensures Get(base, "side") == Some(JStr(side))
    ensures Get(base, "order_type") == Some(JStr("limit_order"))
  {
    assert base[3].0 != "side";
    assert base[4].0 != "side";
    assert base[5].0 != "side";
    assert base[6].0 != "side";
    assert base[7].0 != "side";
    GetAt(base, "side", 2);
    assert base[4].0 != "order_type";
    assert base[5].0 != "order_type";
    assert base[6].0 != "order_type";
    assert base[7].0 != "order_type";
    GetAt(base, "order_type", 3);
  }

  lemma PlaceBaseLookups2(base: seq<(string, Json)>, productId: int, size: int, side: string, price: string,
                         tif: string, postOnly: bool, reduceOnly: bool)
    requires base == [
      ("product_id", JInt(productId)), ("size", JInt(size)), ("side", JStr(side)),
      ("order_type", JStr("limit_order")), ("limit_price", JStr(price)),
      ("time_in_force", JStr(tif)), ("post_only", JBool(postOnly)), ("reduce_only", JBool(reduceOnly))]
    ensures Get(base, "limit_price") == Some(JStr(price))
    ensures Get(base, "time_in_force") == Some(JStr(tif))
  {
    assert base[5].0 != "limit_price";
    assert base[6].0 != "limit_price";
    assert base[7].0 != "limit_price";
    GetAt(base, "limit_price", 4);
    assert base[6].0 != "time_in_force";
    assert base[7].0 != "time_in_force";
    GetAt(base, "time_in_force", 5);
  }

  lemma PlaceBaseLookups3(base: seq<(string, Json)>, productId: int, size: int, side: string, price: string,
                         tif: string, postOnly: bool, reduceOnly: bool)
    requires base == [
      ("product_id", JInt(productId)), ("size", JInt(size)), ("side", JStr(side)),
      ("order_type", JStr("limit_order")), ("limit_price", JStr(price)),
      ("time_in_force", JStr(tif)), ("post_only", JBool(postOnly)), ("reduce_only", JBool(reduceOnly))]
    ensures Get(base, "post_only") == Some(JBool(postOnly))
    ensures Get(base, "reduce_only") == Some(JBool(reduceOnly))
  {
    assert base[7].0 != "post_only";
    GetAt(base, "post_only", 6);
    GetAt(base, "reduce_only", 7);
  }

  /** `cancel_order`'s body: exactly those of `id`, `client_order_id` and `product_id` that are not `None`. */
  function CancelBody(orderId: Option<int>, clientOrderId: Option<string>, productId: Option<int>): (body: Json)
    ensures body.JObj?
    ensures Keys(body.fields) == (if orderId.Some? then ["id"] else []) + (if clientOrderId.Some? then ["client_order_id"] else [])
                                 + (if productId.Some? then ["product_id"] else [])
    ensures orderId.Some? ==> Get(body.fields, "id") == Some(JInt(orderId.value))
    ensures clientOrderId.Some? ==> Get(body.fields, "client_order_id") == Some(JStr(clientOrderId.value))
    ensures productId.Some? ==> Get(body.fields, "product_id") == Some(JInt(productId.value))
  {
    CancelFieldsKeys(orderId, clientOrderId, productId);
    JObj(CancelFields(orderId, clientOrderId, productId))
  }

  /** The dict `cancel_order` builds, one assignment per filter given. */
  function CancelFields(orderId: Option<int>, clientOrderId: Option<string>, productId: Option<int>): (fs: seq<(string, Json)>)
    ensures orderId.Some? ==> Get(fs, "id") == Some(JInt(orderId.value))
    ensures clientOrderId.Some? ==> Get(fs, "client_order_id") == Some(JStr(clientOrderId.value))
    ensures productId.Some? ==> Get(fs, "product_id") == Some(JInt(productId.value))
  {
    var b0: seq<(string, Json)> := [];
    var b1 := if orderId.Some? then Put(b0, "id", JInt(orderId.value)) else b0;
    var b2 := if clientOrderId.Some? then Put(b1, "client_order_id", JStr(clientOrderId.value)) else b1;
    if productId.Some? then Put(b2, "product_id", JInt(productId.value)) else b2
  }

  lemma CancelFieldsKeys(orderId: Option<int>, clientOrderId: Option<string>, productId: Option<int>)
    ensures Keys(CancelFields(orderId, clientOrderId, productId))
            == (if orderId.Some? then ["id"] else []) + (if clientOrderId.Some? then ["client_order_id"] else [])
               + (if productId.Some? then ["product_id"] else [])
  {
    var k1: seq<string> := if orderId.Some? then ["id"] else [];
    var k2 := k1 + (if clientOrderId.Some? then ["client_order_id"] else []);
    var b0: seq<(string, Json)> := [];
    var b1 := if orderId.Some? then Put(b0, "id", JInt(orderId.value)) else b0;
    assert Keys(b1) == k1;
    var b2 := if clientOrderId.Some? then Put(b1, "client_order_id", JStr(clientOrderId.value)) else b1;
    assert "client_order_id" !in k1;
    assert Keys(b2) == k2;
    assert "product_id" !in k2;
  }

  // ---------------------------------------------------------------- the calls

  /** The adapter calls the bot makes, with their arguments. */
  datatype Call =
    | GetProductBySymbol(symbol: string)
    | GetPositions(productId: Option<int>, underlying: Option<string>)
    | GetOpenOrders(productIds: Option<string>, states: string)
    | PlaceLimitOrder(product: int, side: string, size: int, limitPrice: real, postOnly: bool,
                      clientOrderId: Option<string>, tif: string, reduceOnly: bool)
    | CancelOrder(orderId: Option<int>, clientOrderId: Option<string>, productId: Option<int>)

  /**
   * The request one call makes: the product lookup is the only public call;
   * reads carry params and no body, writes a JSON body and no params.
   */
  function RequestFor(a: Adapter, codec: Codec, c: Call, epoch: int): Request {
    match c
    case GetProductBySymbol(symbol) => PrepareRequest(a, codec, "GET", "/v2/products/" + symbol, [], None, false, epoch)
    case GetPositions(pid, und) => PrepareRequest(a, codec, "GET", "/v2/positions", PositionsParams(pid, und), None, true, epoch)
    case GetOpenOrders(pids, states) => PrepareRequest(a, codec, "GET", "/v2/orders", OpenOrdersParams(pids, states), None, true, epoch)
    case PlaceLimitOrder(_, _, _, _, _, _, _, _) => PrepareRequest(a, codec, "POST", "/v2/orders", [], CallBody(codec, c), true, epoch)
    case CancelOrder(_, _, _) => PrepareRequest(a, codec, "DELETE", "/v2/orders", [], CallBody(codec, c), true, epoch)
  }

  /** The product lookup is a plain GET of the product's path, with no key and no signature. */
  lemma ProductRequestIsPublic(a: Adapter, codec: Codec, symbol: string, epoch: int)
    ensures var r := RequestFor(a, codec, GetProductBySymbol(symbol), epoch);
            r.verb == "GET" && r.url == a.baseUrl + "/v2/products/" + symbol && r.params == [] && r.data == None
            && "signature" !in Keys(r.headers) && "api-key" !in Keys(r.headers)
  {
  }

  /** The reads are signed GETs whose filters travel as params, with no body. */
  lemma ReadRequestsAreSigned(a: Adapter, codec: Codec, c: Call, epoch: int)
    requires c.GetPositions? || c.GetOpenOrders?
    ensures var r := RequestFor(a, codec, c, epoch);
            r.verb == "GET" && r.data == None && "signature" in Keys(r.headers)
            && (c.GetPositions? ==> r.url == a.baseUrl + "/v2/positions" && r.params == PositionsParams(c.productId, c.underlying))
            && (c.GetOpenOrders? ==> r.url == a.baseUrl + "/v2/orders" && r.params == OpenOrdersParams(c.productIds, c.states))
  {
  }

  /** The writes are signed requests to the orders path that carry their body as compact JSON and no params. */
  lemma WriteRequestsCarryBody(a: Adapter, codec: Codec, c: Call, epoch: int)
    requires c.PlaceLimitOrder? || c.CancelOrder?
    ensures var r := RequestFor(a, codec, c, epoch);
            r.verb == (if c.PlaceLimitOrder? then "POST" else "DELETE") && r.url == a.baseUrl + "/v2/orders" && r.params == []
            && "signature" in Keys(r.headers)
            && (codec.compactJson(CallBody(codec, c).value) != "" ==> r.data == Some(codec.compactJson(CallBody(codec, c).value)))
  {
  }

  /** The JSON body of a writing call. */
  function CallBody(codec: Codec, c: Call): (b: Option<Json>)
    ensures (c.PlaceLimitOrder? || c.CancelOrder?) <==> b.Some?
  {
    match c
    case PlaceLimitOrder(pid, side, size, px, po, coid, tif, ro) => Some(PlaceBody(codec, pid, side, size, px, po, coid, tif, ro))
    case CancelOrder(oid, coid, pid) => Some(CancelBody(oid, coid, pid))
    case _ => None
  }
}
