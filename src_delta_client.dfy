/**
 * The REST client of the dashboard (`DeltaExchangeClient`): how one request is
 * signed and shaped, how every failure is folded into an error dict, the
 * three-step cancel fallback, the position filter and the mark price read
 * from the last one-minute candle.
 */
module SrcDeltaClient {
  import opened Wrappers
  import opened Text
  import opened PyJson
  import opened Http

  const DefaultBaseUrl: string := "https://api.india.delta.exchange"
  const ClientUserAgent: string := "DeltaBot/3.1 cancel-diagnostics"

  datatype Client = Client(apiKey: string, apiSecret: string, baseUrl: string)

  /** The constructor keeps the credentials and drops trailing slashes from the base URL. */
  function NewClient(apiKey: string, apiSecret: string, baseUrl: string): (c: Client)
    ensures c.apiKey == apiKey && c.apiSecret == apiSecret && c.baseUrl == RStrip(baseUrl, '/')
    ensures !EndsWith(c.baseUrl, "/")
  {
    Client(apiKey, apiSecret, RStrip(baseUrl, '/'))
  }

  // ---------------------------------------------------------------- signing and the request

  /**
   * `_generate_signature`'s message: the verb, the clock reading, the path,
   * then `?` and the query only when there is a query, then the body.
   */
  function SigningMessage(verb: string, timestamp: string, path: string, queryString: string, body: string): (m: string)
    ensures queryString != "" ==> m == verb + timestamp + path + "?" + queryString + body
    ensures queryString == "" ==> m == verb + timestamp + path + body
  {
    if queryString != "" then verb + timestamp + path + "?" + queryString + body
    else verb + timestamp + path + body
  }

  /** The request target after the base URL: the endpoint, with `?` and the query when there are params. */
  function Target(endpoint: string, params: seq<(string, string)>): (t: string)
    ensures params == [] ==> t == endpoint
    ensures params != [] ==> t == endpoint + "?" + QueryJoin(params)
  {
    if params != [] then endpoint + "?" + QueryJoin(params) else endpoint
  }

  /** The body `_make_request` signs and sends: compact JSON (non-ASCII kept) when data is given. */
  function RequestBody(codec: Codec, data: Option<Json>): (body: string)
    ensures data.None? ==> body == ""
    ensures data.Some? ==> body == codec.compactJsonUnicode(data.value)
  {
    match data
    case None => ""
    case Some(d) => codec.compactJsonUnicode(d)
  }

  /** The GET endpoints `_make_request` sends unsigned: products, history and a product's order book. */
  predicate IsPublicGet(verb: string, endpoint: string) {
    verb == "GET"
    && (StartsWith(endpoint, "/v2/products") || StartsWith(endpoint, "/v2/history")
        || (EndsWith(endpoint, "/orders") && Contains(endpoint, "/v2/products/")))
  }

  predicate SupportedVerb(verb: string) {
    verb == "GET" || verb == "POST" || verb == "DELETE"
  }

  /** The headers every request carries. */
  function BaseHeaders(): seq<(string, string)> {
    [("Content-Type", "application/json"), ("Accept", "application/json"), ("User-Agent", ClientUserAgent)]
  }

  /** The headers a signed request adds. */
  function SignatureHeaders(c: Client, signature: string, timestamp: string): seq<(string, string)> {
    [("api-key", c.apiKey), ("signature", signature), ("timestamp", timestamp)]
  }

  /** The signature `_make_request` sends for a request it signs. */
  function Signature(c: Client, codec: Codec, verb: string, endpoint: string, params: seq<(string, string)>,
                     data: Option<Json>, epoch: int): string
  {
    codec.hmacSha256Hex(c.apiSecret, SigningMessage(verb, IntToString(epoch), endpoint, QueryJoin(params),
                                                    RequestBody(codec, data)))
  }

  /** The headers of a request: the common ones, then the key, signature and clock unless the request is public. */
  function RequestHeaders(c: Client, isPublic: bool, signature: string, timestamp: string): (h: seq<(string, string)>)
    ensures Header(h, "Content-Type") == Some("application/json") && Header(h, "Accept") == Some("application/json")
            && Header(h, "User-Agent") == Some(ClientUserAgent)
    ensures isPublic ==> "api-key" !in Keys(h) && "signature" !in Keys(h) && "timestamp" !in Keys(h)
    ensures !isPublic ==> Header(h, "api-key") == Some(c.apiKey) && Header(h, "signature") == Some(signature)
                          && Header(h, "timestamp") == Some(timestamp)
  {
    HeaderValues(c, signature, timestamp);
    if isPublic then BaseHeaders() else BaseHeaders() + SignatureHeaders(c, signature, timestamp)
  }

  lemma HeaderValues(c: Client, signature: string, timestamp: string)
    ensures var b := BaseHeaders();
      Header(b, "Content-Type") == Some("application/json") && Header(b, "Accept") == Some("application/json")
      && Header(b, "User-Agent") == Some(ClientUserAgent)
      && Keys(b) == ["Content-Type", "Accept", "User-Agent"]
    ensures var h := BaseHeaders() + SignatureHeaders(c, signature, timestamp);
      Header(h, "Content-Type") == Some("application/json") && Header(h, "Accept") == Some("application/json")
      && Header(h, "User-Agent") == Some(ClientUserAgent) && Header(h, "api-key") == Some(c.apiKey)
      && Header(h, "signature") == Some(signature) && Header(h, "timestamp") == Some(timestamp)
  {
    BaseHeaderValues();
    SignedHeaderValues(c, signature, timestamp);
  }

  lemma BaseHeaderValues()
    ensures var b := BaseHeaders();
      Header(b, "Content-Type") == Some("application/json") && Header(b, "Accept") == Some("application/json")
      && Header(b, "User-Agent") == Some(ClientUserAgent)
      && Keys(b) == ["Content-Type", "Accept", "User-Agent"]
  {
    var b := BaseHeaders();
    HeaderAt(b, "Content-Type", 0);
    HeaderAt(b, "Accept", 1);
    HeaderAt(b, "User-Agent", 2);
  }

  lemma SignedHeaderValues(c: Client, signature: string, timestamp: string)
    ensures var h := BaseHeaders() + SignatureHeaders(c, signature, timestamp);
      Header(h, "Content-Type") == Some("application/json") && Header(h, "Accept") == Some("application/json")
      && Header(h, "User-Agent") == Some(ClientUserAgent) && Header(h, "api-key") == Some(c.apiKey)
      && Header(h, "signature") == Some(signature) && Header(h, "timestamp") == Some(timestamp)
  {
    var h := BaseHeaders() + SignatureHeaders(c, signature, timestamp);
    assert h == [("Content-Type", "application/json"), ("Accept", "application/json"), ("User-Agent", ClientUserAgent),
                 ("api-key", c.apiKey), ("signature", signature), ("timestamp", timestamp)];
    HeaderAt(h, "Content-Type", 0);
    HeaderAt(h, "Accept", 1);
    HeaderAt(h, "User-Agent", 2);
    HeaderAt(h, "api-key", 3);
    HeaderAt(h, "signature", 4);
    HeaderAt(h, "timestamp", 5);
  }

  /**
   * The request `_make_request` hands to the session, or `None` for a verb it
   * refuses with `ValueError`. The query goes into the URL (the session gets
   * no `params`), only POST and DELETE carry the body, and only a request
   * that is not a public GET carries the key, the signature and the clock.
   */
  function BuildRequest(c: Client, codec: Codec, verb: string, endpoint: string, params: seq<(string, string)>,
                        data: Option<Json>, epoch: int): (r: Option<Request>)
    ensures r.None? <==> !SupportedVerb(verb)
    ensures r.Some? ==> r.value.verb == verb && r.value.params == []
                        && r.value.url == c.baseUrl + Target(endpoint, params)
    ensures r.Some? && verb == "GET" ==> r.value.data == None
    ensures r.Some? && verb != "GET" ==>
              r.value.data == (if RequestBody(codec, data) != "" then Some(RequestBody(codec, data)) else None)
    ensures r.Some? ==> r.value.headers == RequestHeaders(c, IsPublicGet(verb, endpoint),
                                                          Signature(c, codec, verb, endpoint, params, data, epoch), IntToString(epoch))
  {
    var body := RequestBody(codec, data);
    var headers := RequestHeaders(c, IsPublicGet(verb, endpoint), Signature(c, codec, verb, endpoint, params, data, epoch),
                                  IntToString(epoch));
    var url := c.baseUrl + Target(endpoint, params);
    if verb == "GET" then Some(Request(verb, url, [], None, headers))
    else if verb == "POST" || verb == "DELETE" then Some(Request(verb, url, [], if body != "" then Some(body) else None, headers))
    else None
  }

  /**
   * The signature covers exactly what is sent: for a signed request whose
   * body travels with it, the signed message is the verb, the clock, the URL
   * after the base and the bytes sent.
   */
  lemma SignatureCoversSentRequest(c: Client, codec: Codec, verb: string, endpoint: string, params: seq<(string, string)>,
                                   data: Option<Json>, epoch: int)
    requires SupportedVerb(verb) && !IsPublicGet(verb, endpoint)
    requires verb != "GET" || data.None?
    ensures var r := BuildRequest(c, codec, verb, endpoint, params, data, epoch).value;
            |c.baseUrl| <= |r.url|
            && Header(r.headers, "signature")
               == Some(codec.hmacSha256Hex(c.apiSecret, verb + IntToString(epoch) + r.url[|c.baseUrl|..] + r.data.GetOr("")))
  {
    var r := BuildRequest(c, codec, verb, endpoint, params, data, epoch).value;
    var ts := IntToString(epoch);
    var body := RequestBody(codec, data);
    var target := Target(endpoint, params);
    assert r.url == c.baseUrl + target;
    assert r.url[|c.baseUrl|..] == target;
    assert r.data.GetOr("") == body;
    SigningMessageIsTarget(verb, ts, endpoint, params, body);
    assert r.headers == RequestHeaders(c, false, Signature(c, codec, verb, endpoint, params, data, epoch), ts);
  }

  lemma SigningMessageIsTarget(verb: string, ts: string, endpoint: string, params: seq<(string, string)>, body: string)
    ensures SigningMessage(verb, ts, endpoint, QueryJoin(params), body) == verb + ts + Target(endpoint, params) + body
  {
    if params != [] {
      assert verb + ts + endpoint + "?" + QueryJoin(params) + body == verb + ts + (endpoint + "?" + QueryJoin(params)) + body;
    }
  }

  /** The error dict `_make_request` returns instead of raising. */
  function ErrorDict(status: Json, error: Json): (j: Json)
    ensures j.JObj? && Keys(j.fields) == ["success", "status", "error"]
  {
    JObj([("success", JBool(false)), ("status", status), ("error", error)])
  }

  lemma ErrorDictFields(status: Json, error: Json)
    ensures var f := ErrorDict(status, error).fields;
            Get(f, "success") == Some(JBool(false)) && Get(f, "status") == Some(status) && Get(f, "error") == Some(error)
  {
    var f := ErrorDict(status, error).fields;
    GetAt(f, "success", 0);
    GetAt(f, "status", 1);
    GetAt(f, "error", 2);
  }

  /**
   * What `_make_request` returns once the session has been called: the
   * decoded body of a reply that is not an error status; otherwise an error
   * dict holding the status (or `None` when there was no reply or the
   * decoding failed) and the decoded error body, the raw text, or the
   * exception's message.
   */
  function Respond(ex: Exchange): (j: Json)
    ensures ex.Delivered? && !IsErrorStatus(ex.reply.status) && ex.reply.body.Parsed? ==> j == ex.reply.body.value
    ensures ex.Delivered? && IsErrorStatus(ex.reply.status) && ex.reply.body.Parsed? ==>
              j == ErrorDict(JInt(ex.reply.status), ex.reply.body.value)
    ensures ex.Delivered? && IsErrorStatus(ex.reply.status) && ex.reply.body.Unparsable? ==>
              j == ErrorDict(JInt(ex.reply.status), JStr(ex.reply.text))
    ensures ex.Delivered? && !IsErrorStatus(ex.reply.status) && ex.reply.body.Unparsable? ==>
              j == ErrorDict(JNull, JStr(ex.reply.body.decodeError))
    ensures ex.NoReply? ==> j == ErrorDict(JNull, JStr(ex.reason))
  {
    match ex
    case NoReply(reason) => ErrorDict(JNull, JStr(reason))
    case Delivered(reply) =>
      if IsErrorStatus(reply.status) then
        match reply.body
        case Parsed(v) => ErrorDict(JInt(reply.status), v)
        case Unparsable(_) => ErrorDict(JInt(reply.status), JStr(reply.text))
      else
        match reply.body
        case Parsed(v) => v
        case Unparsable(msg) => ErrorDict(JNull, JStr(msg))
  }

  /** Unless the exchange succeeded with a decodable body, the result says `success: False`. */
  lemma FailuresAreFlagged(ex: Exchange)
    requires !(ex.Delivered? && !IsErrorStatus(ex.reply.status) && ex.reply.body.Parsed?)
    ensures Respond(ex).JObj? && Get(Respond(ex).fields, "success") == Some(JBool(false))
  {
    match ex {
      case NoReply(reason) => ErrorDictFields(JNull, JStr(reason));
      case Delivered(reply) =>
        match reply.body {
          case Parsed(v) => ErrorDictFields(JInt(reply.status), v);
          case Unparsable(msg) =>
            ErrorDictFields(JInt(reply.status), JStr(reply.text));
            ErrorDictFields(JNull, JStr(msg));
        }
    }
  }

  /** The `k=v` pieces of the query, in order. */
  function QueryPieces(params: seq<(string, string)>): (ps: seq<string>)
    ensures |ps| == |params| && forall k :: 0 <= k < |params| ==> ps[k] == QueryPair(params[k])
  {
    seq(|params|, k requires 0 <= k < |params| => QueryPair(params[k]))
  }

  lemma {:induction false} JoinPieces(params: seq<(string, string)>)
    ensures Join("&", QueryPieces(params)) == QueryJoin(params)
  {
    if |params| > 1 {
      var init := params[..|params| - 1];
      assert QueryPieces(params)[..|params| - 1] == QueryPieces(init);
      JoinPieces(init);
    }
  }

  /** The loop of `_make_request` that collects `f"{k}={v}"` for each param in order. */
  method CollectPieces(params: seq<(string, string)>) returns (pieces: seq<string>)
    ensures pieces == QueryPieces(params)
  {
    pieces := [];
    var i := 0;
    while i < |params|
      invariant 0 <= i <= |params|
      invariant pieces == QueryPieces(params[..i])
    {
      assert QueryPieces(params[..i + 1]) == QueryPieces(params[..i]) + [QueryPair(params[i])];
      pieces := pieces + [QueryPair(params[i])];
      i := i + 1;
    }
    assert params[..i] == params;
  }

  /**
   * `_make_request`: build the query piece by piece, the body once, the
   * headers (adding the signature to those that need it), then hand the
   * request to the session; `ex` is what the session call produced. Request
   * exceptions never escape, an unsupported verb raises before anything is
   * sent.
   */
  method MakeRequest(c: Client, codec: Codec, verb: string, endpoint: string, params: seq<(string, string)>,
                     data: Option<Json>, epoch: int, ex: Exchange)
    returns (sent: Option<Request>, result: Attempt<Json>)
    ensures sent == BuildRequest(c, codec, verb, endpoint, params, data, epoch)
    ensures sent.None? ==> result == Raised
    ensures sent.Some? ==> result == Done(Respond(ex))
  {
    var url := c.baseUrl + endpoint;
    var queryString := "";
    var body := "";
    if params != [] {
      var pieces := CollectPieces(params);
      JoinPieces(params);
      queryString := Join("&", pieces);
      url := url + "?" + queryString;
    }
    if data.Some? {
      body := codec.compactJsonUnicode(data.value);
    }
    assert url == c.baseUrl + Target(endpoint, params);
    assert queryString == QueryJoin(params) && body == RequestBody(codec, data);
    var headers := BaseHeaders();
    if !IsPublicGet(verb, endpoint) {
      var timestamp := IntToString(epoch);
      var signature := codec.hmacSha256Hex(c.apiSecret, SigningMessage(verb, timestamp, endpoint, queryString, body));
      headers := headers + SignatureHeaders(c, signature, timestamp);
    }
    assert headers == RequestHeaders(c, IsPublicGet(verb, endpoint), Signature(c, codec, verb, endpoint, params, data, epoch),
                                     IntToString(epoch));
    if verb == "GET" {
      sent := Some(Request(verb, url, [], None, headers));
    } else if verb == "POST" || verb == "DELETE" {
      sent := Some(Request(verb, url, [], if body != "" then Some(body) else None, headers));
    } else {
      return None, Raised;
    }
    result := Done(Respond(ex));
  }

  // ---------------------------------------------------------------- cancel fallback

  /** `if product_id:` */
  predicate HasProductId(productId: Option<int>) {
    productId.Some? && productId.value != 0
  }

  /** `elif product_symbol:` */
  predicate HasProductSymbol(productSymbol: Option<string>) {
    productSymbol.Some? && productSymbol.value != ""
  }

  predicate HasContext(productId: Option<int>, productSymbol: Option<string>) {
    HasProductId(productId) || HasProductSymbol(productSymbol)
  }

  /** `{'orders': [{'id': order_id}]}` */
  function BareBatch(orderId: int): Json {
    JObj([("orders", JArr([JObj([("id", JInt(orderId))])]))])
  }

  /** The first batch payload: the order, then the product id or, failing that, the product symbol. */
  function CancelPayload(orderId: int, productId: Option<int>, productSymbol: Option<string>): (p: Json)
    ensures p.JObj? && Get(p.fields, "orders") == Some(JArr([JObj([("id", JInt(orderId))])]))
    ensures HasProductId(productId) ==>
              Keys(p.fields) == ["orders", "product_id"] && Get(p.fields, "product_id") == Some(JInt(productId.value))
    ensures !HasProductId(productId) && HasProductSymbol(productSymbol) ==>
              Keys(p.fields) == ["orders", "product_symbol"]
              && Get(p.fields, "product_symbol") == Some(JStr(productSymbol.value))
    ensures !HasContext(productId, productSymbol) ==> p == BareBatch(orderId)
  {
    var orders := ("orders", JArr([JObj([("id", JInt(orderId))])]));
    var fields := if HasProductId(productId) then [orders, ("product_id", JInt(productId.value))]
                  else if HasProductSymbol(productSymbol) then [orders, ("product_symbol", JStr(productSymbol.value))]
                  else [orders];
    FieldLookups(fields);
    JObj(fields)
  }

  lemma FieldLookups(fields: seq<(string, Json)>)
    requires 1 <= |fields| <= 2 && (|fields| == 2 ==> fields[0].0 != fields[1].0)
    ensures Get(fields, fields[0].0) == Some(fields[0].1)
    ensures |fields| == 2 ==> Get(fields, fields[1].0) == Some(fields[1].1)
  {
    GetAt(fields, fields[0].0, 0);
    if |fields| == 2 {
      GetAt(fields, fields[1].0, 1);
    }
  }

  /** `isinstance(resp, dict) and resp.get('success')` */
  predicate Succeeded(j: Json) {
    j.JObj? && Truthy(GetOr(j.fields, "success", JNull))
  }

  /** `resp['note'] = note` on a successful response. */
  function Noted(j: Json, note: string): (r: Json)
    requires j.JObj?
    ensures r.JObj? && Get(r.fields, "note") == Some(JStr(note))
    ensures forall k :: k != "note" ==> Get(r.fields, k) == Get(j.fields, k)
  {
    JObj(Put(j.fields, "note", JStr(note)))
  }

  /** Adding the note keeps the `success` flag. */
  lemma NotedKeepsSuccess(j: Json, note: string)
    requires j.JObj?
    ensures Succeeded(Noted(j, note)) <==> Succeeded(j)
  {
    assert Get(Noted(j, note).fields, "success") == Get(j.fields, "success");
  }

  /** The DELETE request `_make_request` builds (DELETE is always supported). */
  function DeleteRequest(c: Client, codec: Codec, endpoint: string, data: Option<Json>, epoch: int): (r: Request)
    ensures Some(r) == BuildRequest(c, codec, "DELETE", endpoint, [], data, epoch)
  {
    BuildRequest(c, codec, "DELETE", endpoint, [], data, epoch).value
  }

  /** The requests a cancel sent and what it returned. */
  datatype CancelRun = CancelRun(requests: seq<Request>, result: Json)

  /**
   * `cancel_order`: the batch with product context, then (only when there was
   * context) the bare batch, then the path DELETE, stopping at the first
   * success and tagging it; the path DELETE's reply is returned whatever it
   * says. Attempt `k` reads the clock as `epoch(k)` and gets `reply(k)`.
   */
  function CancelOrder(c: Client, codec: Codec, orderId: int, productId: Option<int>, productSymbol: Option<string>,
                       epoch: nat -> int, reply: nat -> Exchange): (r: CancelRun)
    ensures 1 <= |r.requests| <= 3
    ensures !HasContext(productId, productSymbol) ==> |r.requests| <= 2
    ensures r.requests[0] == DeleteRequest(c, codec, "/v2/orders/batch", Some(CancelPayload(orderId, productId, productSymbol)), epoch(0))
    ensures Succeeded(Respond(reply(0))) ==> |r.requests| == 1 && r.result == Noted(Respond(reply(0)), "cancel via batch")
    ensures !Succeeded(Respond(reply(0))) ==> |r.requests| >= 2
    ensures !Succeeded(Respond(reply(0))) && HasContext(productId, productSymbol) ==>
              r.requests[1] == DeleteRequest(c, codec, "/v2/orders/batch", Some(BareBatch(orderId)), epoch(1))
    ensures !Succeeded(Respond(reply(0))) && HasContext(productId, productSymbol) && Succeeded(Respond(reply(1))) ==>
              |r.requests| == 2 && r.result == Noted(Respond(reply(1)), "cancel via batch bare")
    ensures !Succeeded(Respond(reply(0))) && !HasContext(productId, productSymbol) ==>
              |r.requests| == 2 && r.requests[1] == DeleteRequest(c, codec, "/v2/orders/" + IntToString(orderId), None, epoch(1))
              && r.result == Respond(reply(1))
    ensures !Succeeded(Respond(reply(0))) && HasContext(productId, productSymbol) && !Succeeded(Respond(reply(1))) ==>
              |r.requests| == 3 && r.requests[2] == DeleteRequest(c, codec, "/v2/orders/" + IntToString(orderId), None, epoch(2))
              && r.result == Respond(reply(2))
  {
    var first := Respond(reply(0));
    var batch := DeleteRequest(c, codec, "/v2/orders/batch", Some(CancelPayload(orderId, productId, productSymbol)), epoch(0));
    if Succeeded(first) then CancelRun([batch], Noted(first, "cancel via batch"))
    else
      var rest := AfterBatch(c, codec, orderId, HasContext(productId, productSymbol), epoch, reply);
      PrependShifts(batch, rest.requests);
      CancelRun([batch] + rest.requests, rest.result)
  }

  lemma PrependShifts<T>(x: T, xs: seq<T>)
    ensures |[x] + xs| == |xs| + 1 && ([x] + xs)[0] == x
    ensures forall k :: 0 <= k < |xs| ==> ([x] + xs)[k + 1] == xs[k]
  {
  }

  /** The attempts after a failed first batch: the bare batch when there was context, then the path DELETE. */
  function AfterBatch(c: Client, codec: Codec, orderId: int, hadContext: bool, epoch: nat -> int, reply: nat -> Exchange)
    : (r: CancelRun)
    ensures 1 <= |r.requests| <= 2 && (!hadContext ==> |r.requests| == 1)
    ensures hadContext ==> r.requests[0] == DeleteRequest(c, codec, "/v2/orders/batch", Some(BareBatch(orderId)), epoch(1))
    ensures hadContext && Succeeded(Respond(reply(1))) ==>
              |r.requests| == 1 && r.result == Noted(Respond(reply(1)), "cancel via batch bare")
    ensures !hadContext ==> r.requests == [DeleteRequest(c, codec, "/v2/orders/" + IntToString(orderId), None, epoch(1))]
                            && r.result == Respond(reply(1))
    ensures hadContext && !Succeeded(Respond(reply(1))) ==>
              |r.requests| == 2 && r.requests[1] == DeleteRequest(c, codec, "/v2/orders/" + IntToString(orderId), None, epoch(2))
              && r.result == Respond(reply(2))
  {
    if hadContext then
      var second := Respond(reply(1));
      var bare := DeleteRequest(c, codec, "/v2/orders/batch", Some(BareBatch(orderId)), epoch(1));
      if Succeeded(second) then CancelRun([bare], Noted(second, "cancel via batch bare"))
      else CancelRun([bare, DeleteRequest(c, codec, "/v2/orders/" + IntToString(orderId), None, epoch(2))], Respond(reply(2)))
    else CancelRun([DeleteRequest(c, codec, "/v2/orders/" + IntToString(orderId), None, epoch(1))], Respond(reply(1)))
  }

  /** A cancel that succeeds at some step reports success with a note naming the step. */
  lemma CancelSuccessIsNoted(c: Client, codec: Codec, orderId: int, productId: Option<int>, productSymbol: Option<string>,
                             epoch: nat -> int, reply: nat -> Exchange)
    requires Succeeded(Respond(reply(0))) || (HasContext(productId, productSymbol) && Succeeded(Respond(reply(1))))
    ensures var r := CancelOrder(c, codec, orderId, productId, productSymbol, epoch, reply);
            Succeeded(r.result) && |r.requests| <= 2
            && (Get(r.result.fields, "note") == Some(JStr("cancel via batch"))
                || Get(r.result.fields, "note") == Some(JStr("cancel via batch bare")))
  {
    if Succeeded(Respond(reply(0))) {
      NotedKeepsSuccess(Respond(reply(0)), "cancel via batch");
    } else {
      NotedKeepsSuccess(Respond(reply(1)), "cancel via batch bare");
    }
  }

  /** Only the path DELETE goes without a body; both batch attempts send their payload. */
  lemma CancelBatchesCarryPayload(c: Client, codec: Codec, orderId: int, productId: Option<int>, productSymbol: Option<string>,
                                  epoch: nat -> int, reply: nat -> Exchange)
    requires codec.compactJsonUnicode(CancelPayload(orderId, productId, productSymbol)) != ""
    ensures var r := CancelOrder(c, codec, orderId, productId, productSymbol, epoch, reply);
            r.requests[0].data == Some(codec.compactJsonUnicode(CancelPayload(orderId, productId, productSymbol)))
            && r.requests[0].url == c.baseUrl + "/v2/orders/batch"
    ensures var r := CancelOrder(c, codec, orderId, productId, productSymbol, epoch, reply);
            HasContext(productId, productSymbol) && |r.requests| >= 2
            && codec.compactJsonUnicode(BareBatch(orderId)) != "" ==>
              r.requests[1].data == Some(codec.compactJsonUnicode(BareBatch(orderId)))
              && r.requests[1].url == c.baseUrl + "/v2/orders/batch"
    ensures var r := CancelOrder(c, codec, orderId, productId, productSymbol, epoch, reply);
            !Succeeded(Respond(reply(0))) && !HasContext(productId, productSymbol) ==>
              r.requests[1].data == None && r.requests[1].url == c.baseUrl + ("/v2/orders/" + IntToString(orderId))
    ensures var r := CancelOrder(c, codec, orderId, productId, productSymbol, epoch, reply);
            !Succeeded(Respond(reply(0))) && HasContext(productId, productSymbol) && !Succeeded(Respond(reply(1))) ==>
              r.requests[2].data == None && r.requests[2].url == c.baseUrl + ("/v2/orders/" + IntToString(orderId))
  {
  }

  // ---------------------------------------------------------------- positions and mark price

  /** `','.join(map(str, product_ids))` */
  function IdList(ids: seq<int>): string {
    Join(",", seq(|ids|, k requires 0 <= k < |ids| => IntToString(ids[k])))
  }

  /**
   * `get_positions`' filter: the product ids when some are given, else the
   * underlying asset when one is given, else the underlying `BTC`.
   */
  function PositionsParams(productIds: Option<seq<int>>, underlying: Option<string>): (ps: seq<(string, string)>)
    ensures |ps| == 1
    ensures productIds.Some? && productIds.value != [] ==> ps[0] == ("product_ids", IdList(productIds.value))
    ensures !(productIds.Some? && productIds.value != []) && underlying.Some? && underlying.value != "" ==>
              ps[0] == ("underlying_asset_symbol", underlying.value)
    ensures !(productIds.Some? && productIds.value != []) && !(underlying.Some? && underlying.value != "") ==>
              ps[0] == ("underlying_asset_symbol", "BTC")
  {
    if productIds.Some? && productIds.value != [] then [("product_ids", IdList(productIds.value))]
    else if underlying.Some? && underlying.value != "" then [("underlying_asset_symbol", underlying.value)]
    else [("underlying_asset_symbol", "BTC")]
  }

  lemma NoCommaInInt(i: int)
    ensures ',' !in IntToString(i)
  {
    var s := IntToString(i);
    forall k | 0 <= k < |s|
      ensures s[k] != ','
    {
      if i < 0 && k > 0 {
        assert s[k] == s[1..][k - 1];
      }
    }
  }

  /** The `product_ids` filter names exactly the given ids: splitting it and reading each piece gives them back. */
  lemma IdListRoundTrip(ids: seq<int>)
    requires ids != []
    ensures var parts := Split(IdList(ids), ',');
            |parts| == |ids| && forall k :: 0 <= k < |ids| ==> ParseIntText(parts[k]) == Some(ids[k])
  {
    var texts := seq(|ids|, k requires 0 <= k < |ids| => IntToString(ids[k]));
    forall k | 0 <= k < |ids|
      ensures ',' !in texts[k] && ParseIntText(texts[k]) == Some(ids[k])
    {
      NoCommaInInt(ids[k]);
      IntToStringRoundTrip(ids[k]);
    }
    SplitJoin(texts, ',');
  }

  /** The candle query for `MARK:symbol` over the two minutes before `endTime`. */
  function MarkCandleParams(symbol: string, endTime: int): (ps: seq<(string, string)>)
    ensures |ps| == 4 && ps[0] == ("symbol", "MARK:" + symbol)
    ensures ps[2] == ("start", IntToString(endTime - 120)) && ps[3] == ("end", IntToString(endTime))
  {
    [("symbol", "MARK:" + symbol), ("resolution", "1m"), ("start", IntToString(endTime - 120)), ("end", IntToString(endTime))]
  }

  /** `{'success': False, 'error': text}` */
  function Failure(text: string): Json {
    JObj([("success", JBool(false)), ("error", JStr(text))])
  }

  /** `{'success': True, 'mark_price': price}` */
  function MarkPrice(price: real): Json {
    JObj([("success", JBool(true)), ("mark_price", JFloat(price))])
  }

  /**
   * `get_mark_price` after the candle request: an unsuccessful reply is
   * returned as it is, no candles is 'No candle data available', otherwise the
   * close of the last candle as a float. Anything that raises on the way (a
   * reply that is not a dict, a last candle without a readable `close`)
   * gives `{'success': False, 'error': str(e)}`, with `errorText` standing
   * for that message.
   */
  function MarkFromCandles(candlesData: Json, errorText: string): (r: Json)
    ensures !candlesData.JObj? ==> r == Failure(errorText)
    ensures candlesData.JObj? && !Succeeded(candlesData) ==> r == candlesData
    ensures Succeeded(candlesData) && !Truthy(GetOr(candlesData.fields, "result", JArr([]))) ==>
              r == Failure("No candle data available")
    ensures r == candlesData || r == Failure(errorText) || r == Failure("No candle data available") || exists x :: r == MarkPrice(x)
  {
    if !candlesData.JObj? then Failure(errorText)
    else if !Succeeded(candlesData) then candlesData
    else
      var candles := GetOr(candlesData.fields, "result", JArr([]));
      if !Truthy(candles) then Failure("No candle data available")
      else match candles
        case JArr(items) =>
          (match items[|items| - 1]
           case JObj(f) =>
             (match Get(f, "close")
              case Some(close) =>
                (match PyFloat(close)
                 case Some(x) => MarkPrice(x)
                 case None => Failure(errorText))
              case None => Failure(errorText))
           case _ => Failure(errorText))
        case _ => Failure(errorText)
  }

  /** The mark price is the close of the last candle listed. */
  lemma MarkIsLastClose(candlesData: Json, items: seq<Json>, errorText: string)
    requires Succeeded(candlesData)
    requires GetOr(candlesData.fields, "result", JArr([])) == JArr(items) && items != []
    ensures var last := items[|items| - 1];
            var close := if last.JObj? then Get(last.fields, "close") else None;
            var price := if close.Some? then PyFloat(close.value) else None;
            MarkFromCandles(candlesData, errorText) == (if price.Some? then MarkPrice(price.value) else Failure(errorText))
  {
  }

  /** The reply shape the exchange sends: the mark price is the last candle's `close`, whatever precedes it. */
  lemma MarkOfCandleReply(earlier: seq<Json>, close: real, rest: seq<(string, Json)>, errorText: string)
    ensures MarkFromCandles(JObj([("success", JBool(true)), ("result", JArr(earlier + [JObj(rest + [("close", JFloat(close))])]))]),
                            errorText) == MarkPrice(close)
  {
    var f := [("success", JBool(true)), ("result", JArr(earlier + [JObj(rest + [("close", JFloat(close))])]))];
    GetAt(f, "success", 0);
    GetAt(f, "result", 1);
    var last := rest + [("close", JFloat(close))];
    GetAt(last, "close", |rest|);
    MarkIsLastClose(JObj(f), earlier + [JObj(last)], errorText);
  }

  /** A failed candle request comes back unchanged. */
  lemma MarkPassesFailureThrough(ex: Exchange, errorText: string)
    requires !(ex.Delivered? && !IsErrorStatus(ex.reply.status) && ex.reply.body.Parsed?)
    ensures MarkFromCandles(Respond(ex), errorText) == Respond(ex)
  {
    FailuresAreFlagged(ex);
  }

  /** `get_mark_price`: the candle request (public, so unsigned) and its result. */
  function GetMarkPrice(c: Client, codec: Codec, symbol: string, endTime: int, ex: Exchange, errorText: string): (r: (Request, Json))
    ensures Some(r.0) == BuildRequest(c, codec, "GET", "/v2/history/candles", MarkCandleParams(symbol, endTime), None, endTime)
    ensures "signature" !in Keys(r.0.headers) && "api-key" !in Keys(r.0.headers)
    ensures r.1 == MarkFromCandles(Respond(ex), errorText)
  {
    assert StartsWith("/v2/history/candles", "/v2/history");
    (BuildRequest(c, codec, "GET", "/v2/history/candles", MarkCandleParams(symbol, endTime), None, endTime).value,
     MarkFromCandles(Respond(ex), errorText))
  }

  // ---------------------------------------------------------------- the other request builders

  /** `get_orders`' query: the page size and the state, then the product ids when some are given. */
  function OrdersParams(productIds: Option<seq<int>>, pageSize: int, state: string): (ps: seq<(string, string)>)
    ensures |ps| >= 2 && ps[0] == ("page_size", IntToString(pageSize)) && ps[1] == ("state", state)
    ensures |ps| == 3 <==> productIds.Some? && productIds.value != []
    ensures |ps| == 3 ==> ps[2] == ("product_ids", IdList(productIds.value))
  {
    [("page_size", IntToString(pageSize)), ("state", state)]
    + (if productIds.Some? && productIds.value != [] then [("product_ids", IdList(productIds.value))] else [])
  }

  /** `get_products`' query: the contract types joined by commas, or nothing. */
  function ProductsParams(contractTypes: Option<seq<string>>): (ps: seq<(string, string)>)
    ensures ps == [] <==> !(contractTypes.Some? && contractTypes.value != [])
    ensures ps != [] ==> ps == [("contract_types", Join(",", contractTypes.value))]
  {
    if contractTypes.Some? && contractTypes.value != [] then [("contract_types", Join(",", contractTypes.value))] else []
  }

  /**
   * `get_historical_candles`' window: a missing or zero end is the clock
   * (`now`, read by the caller), and a missing or zero start is an hour
   * before the end.
   */
  function CandleWindow(startTime: Option<int>, endTime: Option<int>, now: int): (w: (int, int))
    ensures endTime.Some? && endTime.value != 0 ==> w.1 == endTime.value
    ensures !(endTime.Some? && endTime.value != 0) ==> w.1 == now
    ensures startTime.Some? && startTime.value != 0 ==> w.0 == startTime.value
    ensures !(startTime.Some? && startTime.value != 0) ==> w.0 == w.1 - 3600
  {
    var end := if endTime.Some? && endTime.value != 0 then endTime.value else now;
    (if startTime.Some? && startTime.value != 0 then startTime.value else end - 3600, end)
  }

  /** With neither bound given (or both zero), the candles cover the hour before the clock. */
  lemma DefaultWindowIsLastHour(now: int)
    ensures CandleWindow(None, None, now) == (now - 3600, now)
    ensures CandleWindow(Some(0), Some(0), now) == (now - 3600, now)
  {
  }

  /** `get_historical_candles`' query: the symbol, the resolution, and the window's bounds as text. */
  function CandleParams(symbol: string, resolution: string, startTime: Option<int>, endTime: Option<int>, now: int)
    : (ps: seq<(string, string)>)
    ensures |ps| == 4 && ps[0] == ("symbol", symbol) && ps[1] == ("resolution", resolution)
    ensures ps[2].0 == "start" && ps[3].0 == "end"
  {
    var w := CandleWindow(startTime, endTime, now);
    [("symbol", symbol), ("resolution", resolution), ("start", IntToString(w.0)), ("end", IntToString(w.1))]
  }

  /** The bounds sent read back as the window's start and end. */
  lemma CandleParamsReadBack(symbol: string, resolution: string, startTime: Option<int>, endTime: Option<int>, now: int)
    ensures var ps := CandleParams(symbol, resolution, startTime, endTime, now);
            var w := CandleWindow(startTime, endTime, now);
            ParseIntText(ps[2].1) == Some(w.0) && ParseIntText(ps[3].1) == Some(w.1)
  {
    var w := CandleWindow(startTime, endTime, now);
    IntToStringRoundTrip(w.0);
    IntToStringRoundTrip(w.1);
  }

  /** The fields every order carries, in `place_order`'s order. */
  const OrderBaseKeys: seq<string> := ["product_id", "size", "side", "order_type", "time_in_force", "post_only", "reduce_only"]

  function OrderBase(productId: int, size: int, side: string, orderType: string, timeInForce: string,
                     postOnly: bool, reduceOnly: bool): (f: seq<(string, Json)>)
    ensures Keys(f) == OrderBaseKeys
    ensures Get(f, "product_id") == Some(JInt(productId)) && Get(f, "size") == Some(JInt(size)) && Get(f, "side") == Some(JStr(side))
  {
    var f := [("product_id", JInt(productId)), ("size", JInt(size)), ("side", JStr(side)), ("order_type", JStr(orderType)),
              ("time_in_force", JStr(timeInForce)), ("post_only", JBool(postOnly)), ("reduce_only", JBool(reduceOnly))];
    assert Keys(f) == OrderBaseKeys;
    GetAt(f, "product_id", 0);
    GetAt(f, "size", 1);
    GetAt(f, "side", 2);
    f
  }

  /**
   * `if value: data[key] = value` for an optional string whose key the data
   * does not hold yet, so the assignment appends it.
   */
  function GivenField(key: string, value: Option<string>): (f: seq<(string, Json)>)
    ensures Keys(f) == (if value.Some? && value.value != "" then [key] else [])
  {
    if value.Some? && value.value != "" then [(key, JStr(value.value))] else []
  }

  /** Appending a binding for a new key: the key now finds the value, and every other key finds what it found before. */
  lemma GetAppended(fields: seq<(string, Json)>, extra: seq<(string, Json)>, k: string)
    requires |extra| <= 1
    ensures |extra| == 1 && extra[0].0 == k ==> Get(fields + extra, k) == Some(extra[0].1)
    ensures !(|extra| == 1 && extra[0].0 == k) ==> Get(fields + extra, k) == Get(fields, k)
  {
    if |extra| == 1 {
      assert (fields + extra)[..|fields|] == fields;
    } else {
      assert fields + extra == fields;
    }
  }

  /**
   * `place_order`'s data: the fixed fields, then `limit_price` and
   * `client_order_id`, each only when it is given and not empty.
   */
  function PlaceOrderData(productId: int, size: int, side: string, orderType: string, limitPrice: Option<string>,
                          timeInForce: string, postOnly: bool, reduceOnly: bool, clientOrderId: Option<string>): (d: Json)
    ensures d.JObj?
    ensures Keys(d.fields) == OrderBaseKeys
              + (if limitPrice.Some? && limitPrice.value != "" then ["limit_price"] else [])
              + (if clientOrderId.Some? && clientOrderId.value != "" then ["client_order_id"] else [])
  {
    var base := OrderBase(productId, size, side, orderType, timeInForce, postOnly, reduceOnly);
    var price := GivenField("limit_price", limitPrice);
    var id := GivenField("client_order_id", clientOrderId);
    KeysConcat(base, price);
    KeysConcat(base + price, id);
    JObj(base + price + id)
  }

  /** Each order field holds its value; the optional ones are present exactly when given and not empty. */
  lemma PlaceOrderDataValues(productId: int, size: int, side: string, orderType: string, limitPrice: Option<string>,
                             timeInForce: string, postOnly: bool, reduceOnly: bool, clientOrderId: Option<string>)
    ensures var f := PlaceOrderData(productId, size, side, orderType, limitPrice, timeInForce, postOnly, reduceOnly, clientOrderId).fields;
            Get(f, "product_id") == Some(JInt(productId)) && Get(f, "size") == Some(JInt(size)) && Get(f, "side") == Some(JStr(side))
            && Get(f, "limit_price") == (if limitPrice.Some? && limitPrice.value != "" then Some(JStr(limitPrice.value)) else None)
            && Get(f, "client_order_id")
               == (if clientOrderId.Some? && clientOrderId.value != "" then Some(JStr(clientOrderId.value)) else None)
  {
    var base := OrderBase(productId, size, side, orderType, timeInForce, postOnly, reduceOnly);
    var price := GivenField("limit_price", limitPrice);
    var id := GivenField("client_order_id", clientOrderId);
    assert "limit_price" !in Keys(base) && "client_order_id" !in Keys(base);
    assert Get(base, "limit_price") == None && Get(base, "client_order_id") == None;
    GetAppended(base, price, "product_id");
    GetAppended(base, price, "size");
    GetAppended(base, price, "side");
    GetAppended(base, price, "limit_price");
    GetAppended(base, price, "client_order_id");
    GetAppended(base + price, id, "product_id");
    GetAppended(base + price, id, "size");
    GetAppended(base + price, id, "side");
    GetAppended(base + price, id, "limit_price");
    GetAppended(base + price, id, "client_order_id");
  }

  /**
   * `test_connection` on what `get_account_balance` gave: a dict's
   * `success` (False when absent), the truth of anything else, and False
   * when the call raised.
   */
  function TestConnection(response: Attempt<Json>): (ok: Json)
    ensures response.Raised? ==> ok == JBool(false)
    ensures response.Done? && response.value.JObj? ==> ok == GetOr(response.value.fields, "success", JBool(false))
    ensures response.Done? && !response.value.JObj? ==> ok == JBool(Truthy(response.value))
  {
    match response
    case Raised => JBool(false)
    case Done(j) => if j.JObj? then GetOr(j.fields, "success", JBool(false)) else JBool(Truthy(j))
  }

  /** A dict reply passes the connection test exactly when it succeeded; every failure `_make_request` folds in fails it. */
  lemma TestConnectionMeansSucceeded(ex: Exchange)
    ensures Respond(ex).JObj? ==> (Truthy(TestConnection(Done(Respond(ex)))) <==> Succeeded(Respond(ex)))
    ensures !(ex.Delivered? && !IsErrorStatus(ex.reply.status) && ex.reply.body.Parsed?) ==>
              TestConnection(Done(Respond(ex))) == JBool(false)
  {
    if !(ex.Delivered? && !IsErrorStatus(ex.reply.status) && ex.reply.body.Parsed?) {
      FailuresAreFlagged(ex);
    }
  }
}
