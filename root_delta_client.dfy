/**
 * The older REST client at the top of the repository (`delta_client.py`):
 * every request is signed, the signed message carries the query without a
 * `?`, the body is plain `json.dumps` of truthy data, and a failed request
 * either returns the error body the exchange sent or raises.
 */
module RootDeltaClient {
  import opened Wrappers
  import opened Text
  import opened PyJson
  import opened Http
  import SrcDeltaClient

  const DefaultBaseUrl: string := "https://api.delta.exchange"

  datatype Client = Client(apiKey: string, apiSecret: string, baseUrl: string)

  /** The constructor keeps the credentials and drops trailing slashes from the base URL. */
  function NewClient(apiKey: string, apiSecret: string, baseUrl: string): (c: Client)
    ensures c.apiKey == apiKey && c.apiSecret == apiSecret && c.baseUrl == RStrip(baseUrl, '/')
    ensures !EndsWith(c.baseUrl, "/")
  {
    Client(apiKey, apiSecret, RStrip(baseUrl, '/'))
  }

  /** `_generate_signature`'s message: the verb, the clock, the path, the query and the body, with no `?`. */
  function SigningMessage(verb: string, timestamp: string, path: string, queryString: string, body: string): (m: string)
    ensures m == verb + timestamp + path + queryString + body
    ensures |m| == |verb| + |timestamp| + |path| + |queryString| + |body|
    ensures StartsWith(m, verb + timestamp + path)
  {
    var m := verb + timestamp + path + queryString + body;
    assert m[..|verb + timestamp + path|] == verb + timestamp + path;
    m
  }

  /**
   * With a query, this client's message and the other client's message for
   * the same request never agree: the other one carries the `?`.
   */
  lemma MessagesDisagreeOnQuery(verb: string, timestamp: string, path: string, queryString: string, body: string)
    requires queryString != ""
    ensures SigningMessage(verb, timestamp, path, queryString, body)
            != SrcDeltaClient.SigningMessage(verb, timestamp, path, queryString, body)
  {
    assert |SrcDeltaClient.SigningMessage(verb, timestamp, path, queryString, body)|
           == |SigningMessage(verb, timestamp, path, queryString, body)| + 1;
  }

  /** Without a query the two clients sign the same message. */
  lemma MessagesAgreeWithoutQuery(verb: string, timestamp: string, path: string, body: string)
    ensures SigningMessage(verb, timestamp, path, "", body) == SrcDeltaClient.SigningMessage(verb, timestamp, path, "", body)
  {
    assert verb + timestamp + path + "" + body == verb + timestamp + path + body;
  }

  /** The body `_make_request` signs: `json.dumps(data)` when the data is truthy, else empty. */
  function SignedBody(codec: Codec, data: Option<Json>): (body: string)
    ensures !(data.Some? && Truthy(data.value)) ==> body == ""
    ensures data.Some? && Truthy(data.value) ==> body == codec.plainJson(data.value)
  {
    if data.Some? && Truthy(data.value) then codec.plainJson(data.value) else ""
  }

  /** The headers of every request, all of them signed. */
  function Headers(c: Client, signature: string, timestamp: string): (h: seq<(string, string)>)
    ensures Header(h, "api-key") == Some(c.apiKey) && Header(h, "signature") == Some(signature)
            && Header(h, "timestamp") == Some(timestamp) && Header(h, "Content-Type") == Some("application/json")
    ensures Keys(h) == ["api-key", "signature", "timestamp", "Content-Type"]
  {
    var h := [("api-key", c.apiKey), ("signature", signature), ("timestamp", timestamp), ("Content-Type", "application/json")];
    HeaderAt(h, "api-key", 0);
    HeaderAt(h, "signature", 1);
    HeaderAt(h, "timestamp", 2);
    HeaderAt(h, "Content-Type", 3);
    h
  }

  /** The signature `_make_request` sends. */
  function Signature(c: Client, codec: Codec, verb: string, endpoint: string, params: seq<(string, string)>,
                     data: Option<Json>, epoch: int): string
  {
    codec.hmacSha256Hex(c.apiSecret, SigningMessage(verb, IntToString(epoch), endpoint, QueryJoin(params), SignedBody(codec, data)))
  }

  predicate SupportedVerb(verb: string) {
    verb == "GET" || verb == "POST" || verb == "DELETE"
  }

  /**
   * The request `_make_request` hands to the session, or `None` for a verb
   * it refuses. GET and DELETE pass the params for `requests` to encode and
   * send no body; POST passes the data as `json=`, which `requests` encodes
   * with `json.dumps` whenever it is not `None`.
   */
  function BuildRequest(c: Client, codec: Codec, verb: string, endpoint: string, params: seq<(string, string)>,
                        data: Option<Json>, epoch: int): (r: Option<Request>)
    ensures r.None? <==> !SupportedVerb(verb)
    ensures r.Some? ==> r.value.verb == verb && r.value.url == c.baseUrl + endpoint
    ensures r.Some? ==> r.value.headers == Headers(c, Signature(c, codec, verb, endpoint, params, data, epoch), IntToString(epoch))
    ensures r.Some? && verb != "POST" ==> r.value.params == params && r.value.data == None
    ensures r.Some? && verb == "POST" ==> r.value.params == []
                                          && r.value.data == (if data.Some? then Some(codec.plainJson(data.value)) else None)
  {
    var headers := Headers(c, Signature(c, codec, verb, endpoint, params, data, epoch), IntToString(epoch));
    var url := c.baseUrl + endpoint;
    if verb == "GET" then Some(Request(verb, url, params, None, headers))
    else if verb == "POST" then Some(Request(verb, url, [], if data.Some? then Some(codec.plainJson(data.value)) else None, headers))
    else if verb == "DELETE" then Some(Request(verb, url, params, None, headers))
    else None
  }

  /**
   * What `_make_request` returns once the session has been called: the
   * decoded body whenever there is one, whatever the status (an error reply's
   * body is returned as it is); with no reply or an undecodable body the
   * exception is re-raised.
   */
  function Respond(ex: Exchange): (r: Attempt<Json>)
    ensures r.Done? <==> ex.Delivered? && ex.reply.body.Parsed?
    ensures r.Done? ==> r.value == ex.reply.body.value
  {
    match ex
    case NoReply(_) => Raised
    case Delivered(reply) =>
      match reply.body
      case Parsed(v) => Done(v)
      case Unparsable(_) => Raised
  }

  /** The status of a reply never decides the result. */
  lemma StatusDoesNotMatter(a: Reply, b: Reply)
    requires a.body == b.body
    ensures Respond(Delivered(a)) == Respond(Delivered(b))
  {
  }

  /** `_make_request`: the request sent (none for an unsupported verb) and the result. */
  function MakeRequest(c: Client, codec: Codec, verb: string, endpoint: string, params: seq<(string, string)>,
                       data: Option<Json>, epoch: int, ex: Exchange): (r: (Option<Request>, Attempt<Json>))
    ensures r.0 == BuildRequest(c, codec, verb, endpoint, params, data, epoch)
    ensures !SupportedVerb(verb) ==> r.1 == Raised
    ensures SupportedVerb(verb) ==> r.1 == Respond(ex)
  {
    var sent := BuildRequest(c, codec, verb, endpoint, params, data, epoch);
    (sent, if sent.None? then Raised else Respond(ex))
  }

  /**
   * A request whose signed body is what it sends: a GET or DELETE without
   * truthy data, or a POST with truthy data (whose `json.dumps` `requests`
   * reproduces). For those, the signature covers the path, the raw query and
   * the bytes sent.
   */
  lemma SignatureCoversBody(c: Client, codec: Codec, verb: string, endpoint: string, params: seq<(string, string)>,
                            data: Option<Json>, epoch: int)
    requires (verb == "POST" && data.Some? && Truthy(data.value)) || ((verb == "GET" || verb == "DELETE") && !(data.Some? && Truthy(data.value)))
    ensures var r := BuildRequest(c, codec, verb, endpoint, params, data, epoch).value;
            Header(r.headers, "signature")
            == Some(codec.hmacSha256Hex(c.apiSecret, SigningMessage(verb, IntToString(epoch), endpoint, QueryJoin(params), r.data.GetOr(""))))
  {
  }

  /** `cancel_order`: a DELETE on the order's own path, with no params and no body. */
  function CancelOrderRequest(c: Client, codec: Codec, orderId: int, epoch: int): (r: Request)
    ensures r.verb == "DELETE" && r.url == c.baseUrl + "/v2/orders/" + IntToString(orderId)
    ensures r.params == [] && r.data == None
    ensures Header(r.headers, "signature")
            == Some(codec.hmacSha256Hex(c.apiSecret, "DELETE" + IntToString(epoch) + "/v2/orders/" + IntToString(orderId)))
  {
    var path := "/v2/orders/" + IntToString(orderId);
    assert QueryJoin([]) == "" && SignedBody(codec, None) == "";
    assert SigningMessage("DELETE", IntToString(epoch), path, "", "") == "DELETE" + IntToString(epoch) + path;
    assert c.baseUrl + path == c.baseUrl + "/v2/orders/" + IntToString(orderId);
    assert "DELETE" + IntToString(epoch) + path == "DELETE" + IntToString(epoch) + "/v2/orders/" + IntToString(orderId);
    BuildRequest(c, codec, "DELETE", path, [], None, epoch).value
  }

  /**
   * `get_mark_price` after `get_product_by_symbol`: a successful product reply
   * gives `{'success': True, 'mark_price': result.get('mark_price')}`, any
   * other reply comes back unchanged, and an exception (a raised request, a
   * reply or a `result` that is not a dict) gives
   * `{'success': False, 'error': str(e)}` with `errorText` for the message.
   */
  function MarkPriceResult(productData: Attempt<Json>, errorText: string): (r: Json)
    ensures productData.Raised? ==> r == SrcDeltaClient.Failure(errorText)
    ensures productData.Done? && !productData.value.JObj? ==> r == SrcDeltaClient.Failure(errorText)
    ensures productData.Done? && productData.value.JObj? && !SrcDeltaClient.Succeeded(productData.value) ==> r == productData.value
    ensures productData.Done? && SrcDeltaClient.Succeeded(productData.value) ==>
              match GetOr(productData.value.fields, "result", JObj([]))
              case JObj(product) => r == JObj([("success", JBool(true)), ("mark_price", GetOr(product, "mark_price", JNull))])
              case _ => r == SrcDeltaClient.Failure(errorText)
  {
    match productData
    case Raised => SrcDeltaClient.Failure(errorText)
    case Done(data) =>
      if !data.JObj? then SrcDeltaClient.Failure(errorText)
      else if !SrcDeltaClient.Succeeded(data) then data
      else
        match GetOr(data.fields, "result", JObj([]))
        case JObj(product) => JObj([("success", JBool(true)), ("mark_price", GetOr(product, "mark_price", JNull))])
        case _ => SrcDeltaClient.Failure(errorText)
  }

  /** The mark price reported is the product's `mark_price`, or `None` when the product has none. */
  lemma MarkPriceFromProduct(fields: seq<(string, Json)>, product: seq<(string, Json)>, errorText: string)
    requires SrcDeltaClient.Succeeded(JObj(fields)) && GetOr(fields, "result", JObj([])) == JObj(product)
    ensures var r := MarkPriceResult(Done(JObj(fields)), errorText);
            r.JObj? && Get(r.fields, "success") == Some(JBool(true))
            && Get(r.fields, "mark_price") == Some(Get(product, "mark_price").GetOr(JNull))
  {
    var g := [("success", JBool(true)), ("mark_price", GetOr(product, "mark_price", JNull))];
    GetAt(g, "success", 0);
    GetAt(g, "mark_price", 1);
  }

  // ---------------------------------------------------------------- cancel_all_orders

  /** `cancel_all_orders`' data: `{}` or `{'product_ids': product_ids}`. */
  function CancelAllData(productIds: seq<int>): (d: Json)
    ensures productIds == [] <==> !Truthy(d)
  {
    if productIds == [] then JObj([])
    else JObj([("product_ids", JArr(seq(|productIds|, k requires 0 <= k < |productIds| => JInt(productIds[k]))))])
  }

  /** `cancel_all_orders` as written: the data goes to a DELETE, which signs it but does not send it. */
  function CancelAllRequest(c: Client, codec: Codec, productIds: seq<int>, epoch: int): (r: Request)
    ensures r.verb == "DELETE" && r.url == c.baseUrl + "/v2/orders/all" && r.data == None
    ensures Header(r.headers, "signature") == Some(Signature(c, codec, "DELETE", "/v2/orders/all", [], Some(CancelAllData(productIds)), epoch))
  {
    BuildRequest(c, codec, "DELETE", "/v2/orders/all", [], Some(CancelAllData(productIds)), epoch).value
  }

  /**
   * With product ids, the message `cancel_all_orders` signs ends with a body
   * the request does not carry, so it is not the message of the request sent.
   */
  lemma CancelAllSignsUnsentBody(c: Client, codec: Codec, productIds: seq<int>, epoch: int)
    requires productIds != [] && codec.plainJson(CancelAllData(productIds)) != ""
    ensures var r := CancelAllRequest(c, codec, productIds, epoch);
            r.data == None
            && SigningMessage("DELETE", IntToString(epoch), "/v2/orders/all", "", SignedBody(codec, Some(CancelAllData(productIds))))
               != SigningMessage("DELETE", IntToString(epoch), "/v2/orders/all", "", r.data.GetOr(""))
  {
  }

  /** `cancel_all_orders` with the data sent as the body it signs. */
  function CancelAllRequestFixed(c: Client, codec: Codec, productIds: seq<int>, epoch: int): (r: Request)
    ensures r.verb == "DELETE" && r.url == c.baseUrl + "/v2/orders/all" && r.params == []
    ensures Header(r.headers, "signature")
            == Some(codec.hmacSha256Hex(c.apiSecret, SigningMessage("DELETE", IntToString(epoch), "/v2/orders/all", "", r.data.GetOr(""))))
    ensures productIds == [] ==> r.data == None
    ensures productIds != [] && codec.plainJson(CancelAllData(productIds)) != "" ==>
              r.data == Some(codec.plainJson(CancelAllData(productIds)))
  {
    var data := CancelAllData(productIds);
    var body := SignedBody(codec, Some(data));
    var headers := Headers(c, Signature(c, codec, "DELETE", "/v2/orders/all", [], Some(data), epoch), IntToString(epoch));
    Request("DELETE", c.baseUrl + "/v2/orders/all", [], if body != "" then Some(body) else None, headers)
  }

  // ---------------------------------------------------------------- the other request builders

  /** `get_positions`' query: the product ids when some are given, else no filter. */
  function PositionsParams(productIds: Option<seq<int>>): (ps: seq<(string, string)>)
    ensures ps == [] <==> !(productIds.Some? && productIds.value != [])
    ensures ps != [] ==> ps == [("product_ids", SrcDeltaClient.IdList(productIds.value))]
  {
    if productIds.Some? && productIds.value != [] then [("product_ids", SrcDeltaClient.IdList(productIds.value))] else []
  }

  /** `get_orders`' query: the page size, then the product ids when some are given; no state filter. */
  function OrdersParams(productIds: Option<seq<int>>, pageSize: int): (ps: seq<(string, string)>)
    ensures |ps| >= 1 && ps[0] == ("page_size", IntToString(pageSize))
    ensures |ps| == 2 <==> productIds.Some? && productIds.value != []
    ensures |ps| == 2 ==> ps[1] == ("product_ids", SrcDeltaClient.IdList(productIds.value))
    ensures "state" !in Keys(ps)
  {
    if productIds.Some? && productIds.value != [] then
      var ps := [("page_size", IntToString(pageSize)), ("product_ids", SrcDeltaClient.IdList(productIds.value))];
      assert Keys(ps) == ["page_size", "product_ids"];
      ps
    else
      var ps := [("page_size", IntToString(pageSize))];
      assert Keys(ps) == ["page_size"];
      ps
  }

  /**
   * `test_connection` on what `get_account_balance` gave: a dict's
   * `success` (False when absent); anything else, having no `.get`, raises
   * inside the `try` and gives False, as does a raised request.
   */
  function TestConnection(response: Attempt<Json>): (ok: Json)
    ensures !(response.Done? && response.value.JObj?) ==> ok == JBool(false)
    ensures response.Done? && response.value.JObj? ==> ok == GetOr(response.value.fields, "success", JBool(false))
  {
    if response.Done? && response.value.JObj? then GetOr(response.value.fields, "success", JBool(false)) else JBool(false)
  }

  /** The two clients' connection tests agree on dicts and on raised calls, and differ only on a truthy non-dict reply. */
  lemma TestConnectionsDiffer(response: Attempt<Json>)
    ensures TestConnection(response) != SrcDeltaClient.TestConnection(response) <==>
              response.Done? && !response.value.JObj? && Truthy(response.value)
  {
  }
}
