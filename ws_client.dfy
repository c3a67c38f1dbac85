/**
 * The minimal WebSocket client at the repository root: it subscribes to the
 * public `mark_price` channel and keeps the latest mark price per product.
 * Unlike the client of the `src` package it has no outbox, no
 * authentication, and it ignores a zero price.
 *
 * `json.loads` of an incoming frame is given as its outcome (`None` when it
 * raises); whether the n-th `ws.send` succeeds is the client's `wire` oracle.
 */
module RootWsClient {
  import opened Wrappers
  import opened Text
  import opened PyJson
  import SrcWsClient

  /**
   * The `mark_price` update: the symbol must be text starting with `MARK:`
   * and the price readable by `float` and non-zero; the key is the text
   * after the first `:`.
   */
  function MarkUpdate(fields: seq<(string, Json)>): (u: Option<(string, real)>)
    ensures u.Some? <==>
              (GetOr(fields, "symbol", JStr("")).JStr? && StartsWith(GetOr(fields, "symbol", JStr("")).s, SrcWsClient.MarkPrefix)
               && PyFloat(SrcWsClient.Field(fields, "price")).Some? && PyFloat(SrcWsClient.Field(fields, "price")).value != 0.0)
    ensures u.Some? ==> GetOr(fields, "symbol", JStr("")).s == SrcWsClient.MarkPrefix + u.value.0
    ensures u.Some? ==> Some(u.value.1) == PyFloat(SrcWsClient.Field(fields, "price")) && u.value.1 != 0.0
  {
    var symbol := GetOr(fields, "symbol", JStr(""));
    var price := SrcWsClient.Field(fields, "price");
    var priceF := if price == JNull then None else PyFloat(price);
    if symbol.JStr? && StartsWith(symbol.s, SrcWsClient.MarkPrefix) && priceF.Some? && priceF.value != 0.0 then
      AfterFirstPrefix(symbol.s, SrcWsClient.MarkPrefix, ':');
      assert symbol.s == SrcWsClient.MarkPrefix + symbol.s[5..];
      Some((symbol.s[5..], priceF.value))
    else None
  }

  /** The latest-mark map after a `mark_price` message. */
  function MarkAfter(marks: map<string, real>, fields: seq<(string, Json)>): map<string, real> {
    match MarkUpdate(fields)
    case None => marks
    case Some(u) => marks[u.0 := u.1]
  }

  /** The fields of a decoded frame that `_on_message` treats as a mark update. */
  function MarkFrame(parsed: Option<Json>): (f: Option<seq<(string, Json)>>)
    ensures f.Some? <==> parsed.Some? && parsed.value.JObj? && Get(parsed.value.fields, "type") == Some(JStr("mark_price"))
    ensures f.Some? ==> f.value == parsed.value.fields
  {
    if parsed.Some? && parsed.value.JObj? && Get(parsed.value.fields, "type") == Some(JStr("mark_price"))
    then Some(parsed.value.fields) else None
  }

  /** On a non-zero price both clients store the same key and value. */
  lemma ClientsAgreeOnNonzeroPrices(fields: seq<(string, Json)>)
    requires PyFloat(SrcWsClient.Field(fields, "price")) != Some(0.0)
    ensures MarkUpdate(fields) == SrcWsClient.MarkUpdate(fields)
  {
  }

  /** A zero price for a subscribed symbol: the `src` client stores it, this one keeps no entry. */
  lemma ZeroPriceIsIgnoredHereOnly(s: string)
    ensures SrcWsClient.MarkAfter(map[], SrcWsClient.MarkMessage(SrcWsClient.MarkPrefix + s, JFloat(0.0)).fields) == map[s := 0.0]
    ensures MarkAfter(map[], SrcWsClient.MarkMessage(SrcWsClient.MarkPrefix + s, JFloat(0.0)).fields) == map[]
  {
    SrcWsClient.MarkRoundTrip([s], 0, 0.0);
    var fs := SrcWsClient.MarkMessage(SrcWsClient.MarkPrefix + s, JFloat(0.0)).fields;
    GetAt(fs, "price", 2);
  }

  /** A non-zero price for a subscribed channel symbol lands under the product symbol asked for. */
  lemma MarkRoundTrip(symbols: seq<string>, i: nat, p: real)
    requires i < |symbols| && p != 0.0
    ensures MarkAfter(map[], SrcWsClient.MarkMessage(SrcWsClient.MarkSymbols(symbols)[i], JFloat(p)).fields) == map[symbols[i] := p]
  {
    var fs := SrcWsClient.MarkMessage(SrcWsClient.MarkSymbols(symbols)[i], JFloat(p)).fields;
    GetAt(fs, "price", 2);
    ClientsAgreeOnNonzeroPrices(fs);
    SrcWsClient.MarkRoundTrip(symbols, i, p);
  }

  class WsClient {
    const url: string
    /** Whether the n-th `ws.send` (counted over the client's life) succeeds. */
    const wire: nat -> bool

    /** `self.ws` is not None. */
    var hasSocket: bool
    /** The `_connected` event. */
    var connected: bool
    var latestMark: map<string, real>
    /** The messages the socket accepted, in order. */
    var sent: seq<Json>
    var sends: nat

    constructor (useTestnet: bool, wire: nat -> bool)
      ensures url == SrcWsClient.WsUrl(useTestnet) && this.wire == wire
      ensures !hasSocket && !connected
      ensures latestMark == map[] && sent == [] && sends == 0
    {
      url := SrcWsClient.WsUrl(useTestnet);
      this.wire := wire;
      hasSocket := false;
      connected := false;
      latestMark := map[];
      sent := [];
      sends := 0;
    }

    /** `connect`: the socket object exists afterwards (the background thread is not modelled). */
    method Connect()
      modifies this`hasSocket
      ensures hasSocket
    {
      hasSocket := true;
    }

    method OnOpen()
      modifies this`connected
      ensures connected
    {
      connected := true;
    }

    method OnClose()
      modifies this`connected
      ensures !connected
    {
      connected := false;
    }

    /** `_on_message`, given the outcome of `json.loads` on the frame. */
    method OnMessage(parsed: Option<Json>)
      modifies this`latestMark
      ensures MarkFrame(parsed).None? ==> latestMark == old(latestMark)
      ensures MarkFrame(parsed).Some? ==> latestMark == MarkAfter(old(latestMark), MarkFrame(parsed).value)
    {
      if parsed.None? || !parsed.value.JObj? {
        return;
      }
      var fields := parsed.value.fields;
      if Get(fields, "type") == Some(JStr("mark_price")) {
        var u := MarkUpdate(fields);
        if u.Some? {
          latestMark := latestMark[u.value.0 := u.value.1];
        }
      }
    }

    /**
     * `subscribe_mark`: nothing without a socket; otherwise one send
     * attempt, and a failed send is only logged, so the subscription is lost.
     */
    method SubscribeMark(symbols: seq<string>)
      modifies this`sent, this`sends
      ensures !hasSocket ==> sent == old(sent) && sends == old(sends)
      ensures hasSocket ==> sends == old(sends) + 1
      ensures hasSocket && wire(old(sends)) ==> sent == old(sent) + [SrcWsClient.MarkSubscription(symbols)]
      ensures hasSocket && !wire(old(sends)) ==> sent == old(sent)
    {
      if !hasSocket {
        return;
      }
      var ok := wire(sends);
      sends := sends + 1;
      if ok {
        sent := sent + [SrcWsClient.MarkSubscription(symbols)];
      }
    }

    method GetLatestMark(symbol: string) returns (r: Option<real>)
      ensures symbol in latestMark ==> r == Some(latestMark[symbol])
      ensures symbol !in latestMark ==> r == None
    {
      if symbol in latestMark {
        r := Some(latestMark[symbol]);
      } else {
        r := None;
      }
    }
  }
}
