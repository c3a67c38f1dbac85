/**
 * What the REST clients exchange with the exchange, seen from the client:
 * the reply to one request, and the foreign functions (JSON encoding, URL
 * encoding, HMAC-SHA256, float rendering) the clients call but the model does
 * not define. Those are carried as function values in a `Codec`, so that every
 * statement about a request holds whatever they compute.
 */
module Http {
  import opened Wrappers
  import opened Text
  import opened PyJson

  /** A response body: the value `response.json()` decodes, or the decoder's error message. */
  datatype Body = Parsed(value: Json) | Unparsable(decodeError: string)

  datatype Reply = Reply(status: int, text: string, body: Body)

  /** The outcome of handing one request to `requests`: a reply, or an exception raised before any reply. */
  datatype Exchange = Delivered(reply: Reply) | NoReply(reason: string)

  /** `requests`' `raise_for_status` raises exactly for the status codes 400 to 599. */
  predicate IsErrorStatus(status: int) {
    400 <= status < 600
  }

  /**
   * One request as handed to `requests`: the HTTP verb, the URL (with any query
   * the client wrote into it), the `params` that `requests` itself encodes
   * into the URL, the body bytes sent (`None` for no body) and the headers in
   * the order the client set them.
   */
  datatype Request = Request(
    verb: string,
    url: string,
    params: seq<(string, string)>,
    data: Option<string>,
    headers: seq<(string, string)>)

  /** The value a header dict holds for `name`: the last assignment wins, as with `dict.update`. */
  function Header(headers: seq<(string, string)>, name: string): (v: Option<string>)
    ensures v.Some? <==> name in Keys(headers)
  {
    if |headers| == 0 then None
    else if headers[|headers| - 1].0 == name then Some(headers[|headers| - 1].1)
    else
      var v := Header(headers[..|headers| - 1], name);
      assert Keys(headers) == Keys(headers[..|headers| - 1]) + [headers[|headers| - 1].0];
      v
  }

  /** The value `Header` finds is the last one set for the name. */
  lemma {:induction false} HeaderAt(headers: seq<(string, string)>, name: string, i: nat)
    requires i < |headers| && headers[i].0 == name
    requires forall j :: i < j < |headers| ==> headers[j].0 != name
    ensures Header(headers, name) == Some(headers[i].1)
  {
    if i < |headers| - 1 {
      HeaderAt(headers[..|headers| - 1], name, i);
    }
  }

  datatype Codec = Codec(
    /** `json.dumps(x, separators=(",", ":"))` */
    compactJson: Json -> string,
    /** `json.dumps(x, separators=(",", ":"), ensure_ascii=False)` */
    compactJsonUnicode: Json -> string,
    /** `json.dumps(x)` with its default separators */
    plainJson: Json -> string,
    /** `urllib.parse.urlencode(pairs)` */
    urlencode: seq<(string, string)> -> string,
    /** `hmac.new(secret, message, sha256).hexdigest()`, taking (secret, message) */
    hmacSha256Hex: (string, string) -> string,
    /** `str(x)` for a Python float */
    floatText: real -> string)

  /** The `k=v` text of one query parameter, written without any encoding. */
  function QueryPair(kv: (string, string)): string {
    kv.0 + "=" + kv.1
  }

  /**
   * `'&'.join(f"{k}={v}" for k, v in params.items())`: the parameters in
   * insertion order, unencoded.
   */
  function QueryJoin(params: seq<(string, string)>): (q: string)
    ensures q == "" <==> params == []
    ensures |params| == 1 ==> q == QueryPair(params[0])
  {
    if |params| == 0 then ""
    else if |params| == 1 then QueryPair(params[0])
    else QueryJoin(params[..|params| - 1]) + "&" + QueryPair(params[|params| - 1])
  }

  /** Appending a parameter appends `&k=v` to the query: the join keeps insertion order. */
  lemma QueryJoinAppend(params: seq<(string, string)>, kv: (string, string))
    requires params != []
    ensures QueryJoin(params + [kv]) == QueryJoin(params) + "&" + QueryPair(kv)
  {
    var p := params + [kv];
    assert p[..|p| - 1] == params;
  }

  /** Every parameter's `k=v` text occurs in the joined query. */
  lemma {:induction false} QueryJoinContainsPairs(params: seq<(string, string)>, i: nat)
    requires i < |params|
    ensures Contains(QueryJoin(params), QueryPair(params[i]))
  {
    if |params| == 1 {
      ContainsWhole(QueryPair(params[0]));
    } else if i == |params| - 1 {
      ContainsSuffix(QueryJoin(params[..|params| - 1]) + "&", QueryPair(params[i]));
    } else {
      QueryJoinContainsPairs(params[..|params| - 1], i);
      ContainsPrefix(QueryJoin(params[..|params| - 1]), "&" + QueryPair(params[|params| - 1]), QueryPair(params[i]));
      assert QueryJoin(params[..|params| - 1]) + ("&" + QueryPair(params[|params| - 1])) == QueryJoin(params);
    }
  }

  lemma ContainsWhole(p: string)
    ensures Contains(p, p)
  {
    assert p[..|p|] == p;
  }

  lemma {:induction false} ContainsSuffix(a: string, p: string)
    ensures Contains(a + p, p)
  {
    if |a| == 0 {
      assert a + p == p;
      ContainsWhole(p);
    } else {
      assert (a + p)[1..] == a[1..] + p;
      ContainsSuffix(a[1..], p);
    }
  }

  lemma {:induction false} ContainsPrefix(a: string, b: string, p: string)
    requires Contains(a, p)
    ensures Contains(a + b, p)
  {
    if StartsWith(a, p) {
      assert (a + b)[..|p|] == a[..|p|];
    } else {
      assert (a + b)[1..] == a[1..] + b;
      ContainsPrefix(a[1..], b, p);
    }
  }
}
