/**
 * The WebSocket client of the `src` package: public mark-price
 * subscriptions, optional authentication with private subscriptions to
 * orders and positions, an outbox that holds outgoing messages until the
 * socket is connected (and authenticated, for the messages that need it),
 * and the message reducer that keeps the latest mark prices, positions and
 * open orders.
 *
 * `json.loads` of an incoming frame is given as its outcome (`None` when it
 * raises); whether the n-th `ws.send` succeeds is the client's `wire`
 * oracle; the clock reading and the HMAC are parameters of `OnOpen`.
 */
module SrcWsClient {
  import opened Wrappers
  import opened Text
  import opened PyJson

  const LiveUrl := "wss://socket.india.delta.exchange"
  const TestnetUrl := "wss://socket-ind.testnet.deltaex.org"

  function WsUrl(useTestnet: bool): (url: string)
    ensures useTestnet ==> url == TestnetUrl
    ensures !useTestnet ==> url == LiveUrl
  {
    if useTestnet then TestnetUrl else LiveUrl
  }

  // ---------------------------------------------------------------- outgoing messages

  function Strs(ss: seq<string>): (js: seq<Json>)
    ensures |js| == |ss| && forall i :: 0 <= i < |ss| ==> js[i] == JStr(ss[i])
  {
    seq(|ss|, i requires 0 <= i < |ss| => JStr(ss[i]))
  }

  /** `{"name": name, "symbols": symbols}`. */
  function Channel(name: string, symbols: seq<string>): Json {
    JObj([("name", JStr(name)), ("symbols", JArr(Strs(symbols)))])
  }

  /** `{"type": "subscribe", "payload": {"channels": channels}}`. */
  function Subscribe(channels: seq<Json>): Json {
    JObj([("type", JStr("subscribe")), ("payload", JObj([("channels", JArr(channels))]))])
  }

  const MarkPrefix := "MARK:"

  /** The channel symbols asked for: `MARK:` in front of every product symbol. */
  function MarkSymbols(symbols: seq<string>): (ms: seq<string>)
    ensures |ms| == |symbols|
    ensures forall i :: 0 <= i < |symbols| ==> ms[i] == MarkPrefix + symbols[i]
  {
    seq(|symbols|, i requires 0 <= i < |symbols| => MarkPrefix + symbols[i])
  }

  /** The message `subscribe_mark(symbols)` sends. */
  function MarkSubscription(symbols: seq<string>): Json {
    Subscribe([Channel("mark_price", MarkSymbols(symbols))])
  }

  /** The message `subscribe_private_channels` sends. */
  const PrivateSubscription := Subscribe([Channel("orders", ["all"]), Channel("positions", ["all"])])

  /** The message `enable_heartbeat` sends. */
  const Heartbeat := JObj([("type", JStr("enable_heartbeat"))])

  /** The text the authentication signature covers. */
  function AuthSigningMessage(timestamp: string): (m: string)
    ensures m == "GET" + timestamp + "/live"
    ensures StartsWith(m, "GET") && EndsWith(m, "/live")
  {
    "GET" + timestamp + "/live"
  }

  /** The `auth` message with the key, the signature and the timestamp it signs. */
  function AuthMessage(key: string, signature: string, timestamp: string): Json {
    JObj([("type", JStr("auth")),
          ("payload", JObj([("api-key", JStr(key)), ("signature", JStr(signature)), ("timestamp", JStr(timestamp))]))])
  }

  /** Python truthiness of an optional credential. */
  predicate IsSet(cred: Option<string>) {
    cred.Some? && cred.value != ""
  }

  /** The auth message a client with these credentials sends when it opens at `epochSeconds`. */
  function AuthAt(key: string, secret: string, epochSeconds: int, hmac: (string, string) -> string): Json {
    var timestamp := IntToString(epochSeconds);
    AuthMessage(key, hmac(secret, AuthSigningMessage(timestamp)), timestamp)
  }

  /** The auth message `_on_open` sends, present only when both credentials are set. */
  function AuthOf(key: Option<string>, secret: Option<string>, epochSeconds: int, hmac: (string, string) -> string): (m: Option<Json>)
    ensures m.Some? <==> IsSet(key) && IsSet(secret)
  {
    if IsSet(key) && IsSet(secret) then Some(AuthAt(key.value, secret.value, epochSeconds, hmac)) else None
  }

  // ---------------------------------------------------------------- the outbox and the wire

  /** What has been handed to the socket so far, and what waits. */
  datatype Outgoing = Outgoing(outbox: seq<Json>, sent: seq<Json>, sends: nat)

  /** Every message ever offered, wherever it is now. */
  function Ledger(o: Outgoing): multiset<Json> {
    multiset(o.outbox) + multiset(o.sent)
  }

  /**
   * `_send_or_queue`: a held message goes to the back of the outbox; any
   * other is sent, and goes to the back of the outbox when the send fails.
   */
  function Offer(o: Outgoing, hold: bool, msg: Json, wire: nat -> bool): Outgoing {
    if hold then o.(outbox := o.outbox + [msg])
    else if wire(o.sends) then Outgoing(o.outbox, o.sent + [msg], o.sends + 1)
    else Outgoing(o.outbox + [msg], o.sent, o.sends + 1)
  }

  /** The queued messages whose flush attempt fails, in queue order (attempts numbered from `start`). */
  function Kept<T>(pending: seq<T>, wire: nat -> bool, start: nat): seq<T> {
    if |pending| == 0 then []
    else
      var n := |pending| - 1;
      Kept(pending[..n], wire, start) + (if wire(start + n) then [] else [pending[n]])
  }

  /** The queued messages whose flush attempt succeeds, in queue order. */
  function Delivered<T>(pending: seq<T>, wire: nat -> bool, start: nat): seq<T> {
    if |pending| == 0 then []
    else
      var n := |pending| - 1;
      Delivered(pending[..n], wire, start) + (if wire(start + n) then [pending[n]] else [])
  }

  /** `_flush_outbox`: one send attempt per queued message, in order; the failures stay queued. */
  function Flush(o: Outgoing, wire: nat -> bool): Outgoing {
    Outgoing(Kept(o.outbox, wire, o.sends), o.sent + Delivered(o.outbox, wire, o.sends), o.sends + |o.outbox|)
  }

  /** What `_on_open` offers before flushing: the auth message, if any, then the heartbeat request. */
  function OpeningOffers(o: Outgoing, hold: bool, auth: Option<Json>, wire: nat -> bool): Outgoing {
    var o1 := if auth.Some? then Offer(o, hold, auth.value, wire) else o;
    Offer(o1, hold, Heartbeat, wire)
  }

  /** Offering loses nothing: the message is either sent or queued, and what was sent stays sent. */
  lemma OfferLosesNothing(o: Outgoing, hold: bool, msg: Json, wire: nat -> bool)
    ensures Ledger(Offer(o, hold, msg, wire)) == Ledger(o) + multiset{msg}
    ensures Offer(o, hold, msg, wire).sent[..|o.sent|] == o.sent
    ensures Offer(o, hold, msg, wire).outbox[..|o.outbox|] == o.outbox
  {
  }

  lemma SplitGrows<T>(k: seq<T>, d: seq<T>, init: seq<T>, x: T, ok: bool)
    requires multiset(k) + multiset(d) == multiset(init)
    ensures multiset(k + (if ok then [] else [x])) + multiset(d + (if ok then [x] else [])) == multiset(init + [x])
  {
    assert multiset(init + [x]) == multiset(init) + multiset{x};
    if ok {
      assert k + [] == k;
      assert multiset(d + [x]) == multiset(d) + multiset{x};
    } else {
      assert d + [] == d;
      assert multiset(k + [x]) == multiset(k) + multiset{x};
    }
  }

  /** A flush splits the queue between the sent and the kept messages. */
  lemma {:induction false} FlushSplitsQueue<T>(pending: seq<T>, wire: nat -> bool, start: nat)
    ensures multiset(Kept(pending, wire, start)) + multiset(Delivered(pending, wire, start)) == multiset(pending)
  {
    if |pending| > 0 {
      var n := |pending| - 1;
      FlushSplitsQueue(pending[..n], wire, start);
      SplitGrows(Kept(pending[..n], wire, start), Delivered(pending[..n], wire, start), pending[..n], pending[n], wire(start + n));
      assert pending[..n] + [pending[n]] == pending;
    }
  }

  /** A flush loses nothing and keeps what was sent before. */
  lemma FlushLosesNothing(o: Outgoing, wire: nat -> bool)
    ensures Ledger(Flush(o, wire)) == Ledger(o)
    ensures Flush(o, wire).sent[..|o.sent|] == o.sent
  {
    FlushSplitsQueue(o.outbox, wire, o.sends);
  }

  /** When every attempt succeeds the whole queue goes out in order and the outbox empties. */
  lemma {:induction false} FlushOverGoodWire<T>(pending: seq<T>, wire: nat -> bool, start: nat)
    requires forall n :: start <= n < start + |pending| ==> wire(n)
    ensures Kept(pending, wire, start) == []
    ensures Delivered(pending, wire, start) == pending
  {
    if |pending| > 0 {
      var n := |pending| - 1;
      FlushOverGoodWire(pending[..n], wire, start);
      assert wire(start + n);
      assert pending == pending[..n] + [pending[n]];
    }
  }

  /** When every attempt fails the outbox is unchanged. */
  lemma {:induction false} FlushOverDeadWire<T>(pending: seq<T>, wire: nat -> bool, start: nat)
    requires forall n :: start <= n < start + |pending| ==> !wire(n)
    ensures Kept(pending, wire, start) == pending
    ensures Delivered(pending, wire, start) == []
  {
    if |pending| > 0 {
      var n := |pending| - 1;
      FlushOverDeadWire(pending[..n], wire, start);
      assert !wire(start + n);
      assert pending == pending[..n] + [pending[n]];
    }
  }

  // ---------------------------------------------------------------- the reducer

  /** The order states the reducer treats as closed. */
  predicate IsTerminal(state: string) {
    state == "cancelled" || state == "filled" || state == "closed"
  }

  /** `data.get(key)`, with Python's `None` for a missing key. */
  function Field(fields: seq<(string, Json)>, key: string): Json {
    GetOr(fields, key, JNull)
  }

  /** `(od.get("state") or "")`, before `.lower()`. */
  function StateValue(od: Json): Json
    requires od.JObj?
  {
    Or(Field(od.fields, "state"), JStr(""))
  }

  /** An order record the reducer may keep: a dict whose state is text and not a closed one. */
  predicate OpenOrder(od: Json) {
    od.JObj? && StateValue(od).JStr? && !IsTerminal(Lower(StateValue(od).s))
  }

  /** What one list item does to a store. `Halt` is an item on which Python raises, ending the loop. */
  datatype Effect = Skip | Store(key: string) | Drop(key: string) | Halt

  /** The key a position is stored under: `str(product_symbol or symbol or "").strip()`. */
  function PositionKey(pos: seq<(string, Json)>): (k: Option<string>)
    ensures k.Some? ==> k.value != "" && k.value == Strip(k.value)
  {
    var v := Or(Or(Field(pos, "product_symbol"), Field(pos, "symbol")), JStr(""));
    match PyStr(v)
    case None => None
    case Some(s) =>
      var t := Strip(s);
      StripStripped(s);
      if t == "" then None else Some(t)
  }

  lemma StripStripped(s: string)
    ensures Strip(Strip(s)) == Strip(s)
  {
    var t := Strip(s);
    assert TrimStart(t) == t;
    assert TrimEnd(t) == t;
  }

  /** A non-empty `product_symbol` string decides the key, even when it strips to nothing. */
  lemma PositionKeyFromProductSymbol(pos: seq<(string, Json)>, sym: string)
    requires Field(pos, "product_symbol") == JStr(sym) && sym != ""
    ensures Strip(sym) != "" ==> PositionKey(pos) == Some(Strip(sym))
    ensures Strip(sym) == "" ==> PositionKey(pos) == None
  {
    assert Or(Or(Field(pos, "product_symbol"), Field(pos, "symbol")), JStr("")) == JStr(sym);
  }

  /** A missing or falsy `product_symbol` falls back to a non-empty `symbol` string. */
  lemma PositionKeyFromSymbol(pos: seq<(string, Json)>, sym: string)
    requires !Truthy(Field(pos, "product_symbol"))
    requires Field(pos, "symbol") == JStr(sym) && sym != ""
    ensures Strip(sym) != "" ==> PositionKey(pos) == Some(Strip(sym))
    ensures Strip(sym) == "" ==> PositionKey(pos) == None
  {
    assert Or(Or(Field(pos, "product_symbol"), Field(pos, "symbol")), JStr("")) == JStr(sym);
  }

  /** With neither symbol truthy the record has no key (`str("")` is empty). */
  lemma PositionKeyMissing(pos: seq<(string, Json)>)
    requires !Truthy(Field(pos, "product_symbol")) && !Truthy(Field(pos, "symbol"))
    ensures PositionKey(pos) == None
  {
    assert Strip("") == "";
  }

  /** One position record: a non-dict raises; a record without a usable symbol is skipped. */
  function PositionEffect(pos: Json): (e: Effect)
    ensures !pos.JObj? <==> e == Halt
    ensures pos.JObj? ==> (e == Skip <==> PositionKey(pos.fields).None?)
    ensures pos.JObj? && PositionKey(pos.fields).Some? ==> e == Store(PositionKey(pos.fields).value)
    ensures !e.Drop?
  {
    if !pos.JObj? then Halt
    else match PositionKey(pos.fields)
      case None => Skip
      case Some(k) => Store(k)
  }

  /** `od.get("id") or od.get("order_id")`. */
  function OrderIdValue(od: seq<(string, Json)>): Json {
    Or(Field(od, "id"), Field(od, "order_id"))
  }

  /**
   * One order record. A non-dict raises; one without an id is skipped; a
   * state that is not text raises at `.lower()`; a closed state drops the
   * id's key and any other state stores the record under it.
   */
  function OrderEffect(od: Json): (e: Effect)
    ensures !od.JObj? ==> e == Halt
    ensures od.JObj? && OrderIdValue(od.fields) == JNull ==> e == Skip
    ensures e.Store? ==> OpenOrder(od) && Some(e.key) == PyStr(OrderIdValue(od.fields))
    ensures e.Drop? ==> od.JObj? && StateValue(od).JStr? && IsTerminal(Lower(StateValue(od).s))
                        && Some(e.key) == PyStr(OrderIdValue(od.fields))
    ensures od.JObj? && OrderIdValue(od.fields) != JNull && PyStr(OrderIdValue(od.fields)).Some? ==>
              (StateValue(od).JStr? <==> e != Halt)
  {
    if !od.JObj? then Halt
    else
      var oid := OrderIdValue(od.fields);
      if oid == JNull then Skip
      else match PyStr(oid)
        case None => Skip
        case Some(key) =>
          var state := StateValue(od);
          if !state.JStr? then Halt
          else if IsTerminal(Lower(state.s)) then Drop(key)
          else Store(key)
  }

  function Step(store: map<string, Json>, item: Json, e: Effect): map<string, Json> {
    match e
    case Store(k) => store[k := item]
    case Drop(k) => store - {k}
    case _ => store
  }

  /** The store after the loop over `items`: each item's effect in order, up to the first item that raises. */
  function Reduce(store: map<string, Json>, items: seq<Json>, eff: Json -> Effect): map<string, Json>
    decreases |items|
  {
    if |items| == 0 then store
    else
      var e := eff(items[0]);
      if e == Halt then store else Reduce(Step(store, items[0], e), items[1..], eff)
  }

  /** A list whose items all go through is reduced piecewise. */
  lemma {:induction false} ReduceAppend(store: map<string, Json>, a: seq<Json>, b: seq<Json>, eff: Json -> Effect)
    requires forall j :: 0 <= j < |a| ==> eff(a[j]) != Halt
    ensures Reduce(store, a + b, eff) == Reduce(Reduce(store, a, eff), b, eff)
    decreases |a|
  {
    if |a| > 0 {
      assert (a + b)[0] == a[0];
      assert (a + b)[1..] == a[1..] + b;
      assert eff(a[0]) != Halt;
      ReduceAppend(Step(store, a[0], eff(a[0])), a[1..], b, eff);
    } else {
      assert a + b == b;
    }
  }

  /** Applying order updates to a store of open orders leaves only open orders. */
  lemma {:induction false} OrdersStayOpen(store: map<string, Json>, items: seq<Json>)
    requires forall k :: k in store ==> OpenOrder(store[k])
    ensures forall k :: k in Reduce(store, items, OrderEffect) ==> OpenOrder(Reduce(store, items, OrderEffect)[k])
    decreases |items|
  {
    if |items| > 0 && OrderEffect(items[0]) != Halt {
      OrdersStayOpen(Step(store, items[0], OrderEffect(items[0])), items[1..]);
    }
  }

  /**
   * The last update for an id decides it: a closed state removes the key,
   * an open one stores the record, and an update without an id changes nothing.
   */
  lemma LastOrderUpdateWins(store: map<string, Json>, items: seq<Json>, od: Json)
    requires forall j :: 0 <= j < |items| ==> OrderEffect(items[j]) != Halt
    ensures OrderEffect(od).Drop? ==> OrderEffect(od).key !in Reduce(store, items + [od], OrderEffect)
    ensures OrderEffect(od).Store? ==>
              OrderEffect(od).key in Reduce(store, items + [od], OrderEffect)
              && Reduce(store, items + [od], OrderEffect)[OrderEffect(od).key] == od
    ensures OrderEffect(od) == Skip ==> Reduce(store, items + [od], OrderEffect) == Reduce(store, items, OrderEffect)
  {
    ReduceAppend(store, items, [od], OrderEffect);
  }

  /** `payload = data.get("result") or data.get(name) or data.get("data") or data`. */
  function Payload(fields: seq<(string, Json)>, name: string): Json {
    Or(Or(Or(Field(fields, "result"), Field(fields, name)), Field(fields, "data")), JObj(fields))
  }

  /** A list is taken as it is, a single dict as a one-item list, anything else as no items. */
  function Items(payload: Json): (items: seq<Json>)
    ensures payload.JArr? ==> items == payload.items
    ensures payload.JObj? ==> items == [payload]
    ensures !payload.JArr? && !payload.JObj? ==> items == []
  {
    match payload
    case JArr(xs) => xs
    case JObj(_) => [payload]
    case _ => []
  }

  /**
   * The `mark_price` update: the symbol must be text starting with `MARK:`
   * and the price present and readable by `float`; the key is the text
   * after the first `:`.
   */
  function MarkUpdate(fields: seq<(string, Json)>): (u: Option<(string, real)>)
    ensures u.Some? <==>
              (GetOr(fields, "symbol", JStr("")).JStr? && StartsWith(GetOr(fields, "symbol", JStr("")).s, MarkPrefix)
               && Field(fields, "price") != JNull && PyFloat(Field(fields, "price")).Some?)
    ensures u.Some? ==> GetOr(fields, "symbol", JStr("")).s == MarkPrefix + u.value.0
    ensures u.Some? ==> Some(u.value.1) == PyFloat(Field(fields, "price"))
  {
    var symbol := GetOr(fields, "symbol", JStr(""));
    var price := Field(fields, "price");
    if symbol.JStr? && StartsWith(symbol.s, MarkPrefix) && price != JNull then
      AfterFirstPrefix(symbol.s, MarkPrefix, ':');
      assert symbol.s == MarkPrefix + symbol.s[5..];
      match PyFloat(price)
      case None => None
      case Some(p) => Some((symbol.s[5..], p))
    else None
  }

  /** The latest-mark map after a `mark_price` message. */
  function MarkAfter(marks: map<string, real>, fields: seq<(string, Json)>): map<string, real> {
    match MarkUpdate(fields)
    case None => marks
    case Some(u) => marks[u.0 := u.1]
  }

  /** The shape of a mark update for `s`, as the exchange sends it after a `subscribe_mark([s])`. */
  function MarkMessage(channelSymbol: string, price: Json): Json {
    JObj([("type", JStr("mark_price")), ("symbol", JStr(channelSymbol)), ("price", price)])
  }

  /** A price for a subscribed channel symbol lands under the product symbol it was asked for. */
  lemma MarkRoundTrip(symbols: seq<string>, i: nat, p: real)
    requires i < |symbols|
    ensures MarkAfter(map[], MarkMessage(MarkSymbols(symbols)[i], JFloat(p)).fields) == map[symbols[i] := p]
  {
    var fs := MarkMessage(MarkSymbols(symbols)[i], JFloat(p)).fields;
    GetAt(fs, "symbol", 1);
    GetAt(fs, "price", 2);
    assert (MarkPrefix + symbols[i])[5..] == symbols[i];
  }

  /** What a decoded frame is, as `_on_message` dispatches on it. */
  datatype Frame =
    | Ignored
    | AuthSuccess
    | MarkPrice(fields: seq<(string, Json)>)
    | PositionsUpdate(items: seq<Json>)
    | OrdersUpdate(items: seq<Json>)

  /** The `type` values that carry data. */
  const TypedFrames: set<Option<Json>> := {Some(JStr("mark_price")), Some(JStr("positions")), Some(JStr("orders"))}

  /** The first rule that applies: non-dicts, heartbeats, subscription acks and unknown types are ignored. */
  function Classify(parsed: Option<Json>): (f: Frame)
    ensures parsed.None? || !parsed.value.JObj? ==> f == Ignored
    ensures parsed.Some? && parsed.value.JObj? &&
            (Get(parsed.value.fields, "type") == Some(JStr("heartbeat")) || Get(parsed.value.fields, "type") == Some(JStr("subscriptions")))
            ==> f == Ignored
    ensures f == AuthSuccess <==>
              parsed.Some? && parsed.value.JObj? && Get(parsed.value.fields, "type") == Some(JStr("success"))
              && Get(parsed.value.fields, "message") == Some(JStr("Authenticated"))
    ensures f.MarkPrice? ==> parsed.Some? && f.fields == parsed.value.fields
    ensures f.PositionsUpdate? ==> parsed.Some? && parsed.value.JObj? && f.items == Items(Payload(parsed.value.fields, "positions"))
    ensures f.OrdersUpdate? ==> parsed.Some? && parsed.value.JObj? && f.items == Items(Payload(parsed.value.fields, "orders"))
    ensures parsed.Some? && parsed.value.JObj? && Get(parsed.value.fields, "type") == Some(JStr("mark_price"))
            ==> f == MarkPrice(parsed.value.fields)
    ensures parsed.Some? && parsed.value.JObj? && Get(parsed.value.fields, "type") == Some(JStr("positions"))
            ==> f == PositionsUpdate(Items(Payload(parsed.value.fields, "positions")))
    ensures parsed.Some? && parsed.value.JObj? && Get(parsed.value.fields, "type") == Some(JStr("orders"))
            ==> f == OrdersUpdate(Items(Payload(parsed.value.fields, "orders")))
    ensures parsed.Some? && parsed.value.JObj? && !(Get(parsed.value.fields, "type") in TypedFrames)
            && !(Get(parsed.value.fields, "type") == Some(JStr("success")) && Get(parsed.value.fields, "message") == Some(JStr("Authenticated")))
            ==> f == Ignored
  {
    if parsed.None? || !parsed.value.JObj? then Ignored
    else
      var fields := parsed.value.fields;
      var mtype := Get(fields, "type");
      if mtype == Some(JStr("success")) && Get(fields, "message") == Some(JStr("Authenticated")) then AuthSuccess
      else if mtype == Some(JStr("mark_price")) then MarkPrice(fields)
      else if mtype == Some(JStr("positions")) then PositionsUpdate(Items(Payload(fields, "positions")))
      else if mtype == Some(JStr("orders")) then OrdersUpdate(Items(Payload(fields, "orders")))
      else Ignored
  }

  // ---------------------------------------------------------------- the client

  class WsClient {
    const url: string
    /** Whether the n-th `ws.send` (counted over the client's life) succeeds. */
    const wire: nat -> bool

    /** `self.ws` is not None. */
    var hasSocket: bool
    var isConnected: bool
    var isAuthenticated: bool
    var apiKey: Option<string>
    var apiSecret: Option<string>
    var latestMark: map<string, real>
    var positions: map<string, Json>
    var orders: map<string, Json>
    var outbox: seq<Json>
    /** The messages the socket accepted, in order. */
    var sent: seq<Json>
    var sends: nat

    /** The order store never holds a closed order. */
    predicate Valid()
      reads this
    {
      forall k :: k in orders ==> OpenOrder(orders[k])
    }

    function Out(): Outgoing
      reads this
    {
      Outgoing(outbox, sent, sends)
    }

    /** Whether `_send_or_queue` queues a message without trying the socket. */
    predicate Holds(requireAuth: bool)
      reads this
    {
      !isConnected || !hasSocket || (requireAuth && IsSet(apiKey) && !isAuthenticated)
    }

    constructor (useTestnet: bool, wire: nat -> bool)
      ensures url == WsUrl(useTestnet) && this.wire == wire
      ensures !hasSocket && !isConnected && !isAuthenticated
      ensures apiKey == None && apiSecret == None
      ensures latestMark == map[] && positions == map[] && orders == map[]
      ensures Out() == Outgoing([], [], 0)
      ensures Valid()
    {
      url := WsUrl(useTestnet);
      this.wire := wire;
      hasSocket := false;
      isConnected := false;
      isAuthenticated := false;
      apiKey := None;
      apiSecret := None;
      latestMark := map[];
      positions := map[];
      orders := map[];
      outbox := [];
      sent := [];
      sends := 0;
    }

    method ConfigureAuth(key: Option<string>, secret: Option<string>)
      modifies this`apiKey, this`apiSecret
      ensures apiKey == key && apiSecret == secret
    {
      apiKey := key;
      apiSecret := secret;
    }

    /** `connect`: the socket object exists afterwards (the background thread is not modelled). */
    method Connect()
      modifies this`hasSocket
      ensures hasSocket
    {
      hasSocket := true;
    }

    method SendOrQueue(msg: Json, requireAuth: bool)
      modifies this`outbox, this`sent, this`sends
      ensures Out() == Offer(old(Out()), old(Holds(requireAuth)), msg, wire)
    {
      if !isConnected || !hasSocket {
        outbox := outbox + [msg];
        return;
      }
      if requireAuth && IsSet(apiKey) && !isAuthenticated {
        outbox := outbox + [msg];
        return;
      }
      var ok := wire(sends);
      sends := sends + 1;
      if ok {
        sent := sent + [msg];
      } else {
        outbox := outbox + [msg];
      }
    }

    method FlushOutbox()
      modifies this`outbox, this`sent, this`sends
      ensures Out() == Flush(old(Out()), wire)
    {
      var pending := outbox;
      var start := sends;
      var before := sent;
      outbox := [];
      var i := 0;
      while i < |pending|
        invariant 0 <= i <= |pending|
        invariant outbox == Kept(pending[..i], wire, start)
        invariant sent == before + Delivered(pending[..i], wire, start)
        invariant sends == start + i
      {
        assert pending[..i + 1][..i] == pending[..i];
        var ok := wire(sends);
        sends := sends + 1;
        if ok {
          sent := sent + [pending[i]];
        } else {
          outbox := outbox + [pending[i]];
        }
        i := i + 1;
      }
      assert pending[..i] == pending;
    }

    method SubscribeMark(symbols: seq<string>)
      modifies this`outbox, this`sent, this`sends
      ensures Out() == Offer(old(Out()), old(Holds(true)), MarkSubscription(symbols), wire)
    {
      SendOrQueue(MarkSubscription(symbols), true);
    }

    method SubscribePrivateChannels()
      modifies this`outbox, this`sent, this`sends
      ensures Out() == Offer(old(Out()), old(Holds(true)), PrivateSubscription, wire)
    {
      SendOrQueue(PrivateSubscription, true);
    }

    method EnableHeartbeat()
      modifies this`outbox, this`sent, this`sends
      ensures Out() == Offer(old(Out()), old(Holds(false)), Heartbeat, wire)
    {
      SendOrQueue(Heartbeat, false);
    }

    /** `_send_auth`: signs `GET` + seconds + `/live` with the secret; nothing without both credentials. */
    method SendAuth(epochSeconds: int, hmac: (string, string) -> string)
      modifies this`outbox, this`sent, this`sends
      ensures AuthOf(apiKey, apiSecret, epochSeconds, hmac).None? ==> Out() == old(Out())
      ensures AuthOf(apiKey, apiSecret, epochSeconds, hmac).Some? ==>
                Out() == Offer(old(Out()), old(Holds(false)), AuthOf(apiKey, apiSecret, epochSeconds, hmac).value, wire)
    {
      if !(IsSet(apiKey) && IsSet(apiSecret)) {
        return;
      }
      var timestamp := IntToString(epochSeconds);
      var signature := hmac(apiSecret.value, AuthSigningMessage(timestamp));
      SendOrQueue(AuthMessage(apiKey.value, signature, timestamp), false);
    }

    /**
     * `_on_open`: mark the client connected, offer the auth message (when
     * both credentials are set) and then the heartbeat request, neither of
     * which waits for authentication, then flush the outbox.
     */
    method OnOpen(epochSeconds: int, hmac: (string, string) -> string)
      modifies this`isConnected, this`outbox, this`sent, this`sends
      ensures isConnected
      ensures Out() == Flush(OpeningOffers(old(Out()), !hasSocket, AuthOf(apiKey, apiSecret, epochSeconds, hmac), wire), wire)
    {
      isConnected := true;
      if IsSet(apiKey) && IsSet(apiSecret) {
        SendAuth(epochSeconds, hmac);
      }
      EnableHeartbeat();
      FlushOutbox();
    }

    /** `_on_close`. */
    method OnClose()
      modifies this`isConnected, this`isAuthenticated
      ensures !isConnected && !isAuthenticated
    {
      isConnected := false;
      isAuthenticated := false;
    }

    /** The loop over the items of a `positions` update; a non-dict item raises and ends it. */
    method ApplyPositions(items: seq<Json>)
      modifies this`positions
      ensures positions == Reduce(old(positions), items, PositionEffect)
    {
      var i := 0;
      while i < |items|
        invariant 0 <= i <= |items|
        invariant Reduce(positions, items[i..], PositionEffect) == Reduce(old(positions), items, PositionEffect)
      {
        var e := PositionEffect(items[i]);
        assert items[i..][1..] == items[i + 1..];
        if e == Halt {
          break;
        }
        if e.Store? {
          positions := positions[e.key := items[i]];
        }
        i := i + 1;
      }
    }

    /** The loop over the items of an `orders` update; a non-dict item, or an id'd item whose state is not text, raises and ends it. */
    method ApplyOrders(items: seq<Json>)
      requires Valid()
      modifies this`orders
      ensures orders == Reduce(old(orders), items, OrderEffect)
      ensures Valid()
    {
      OrdersStayOpen(orders, items);
      var i := 0;
      while i < |items|
        invariant 0 <= i <= |items|
        invariant Reduce(orders, items[i..], OrderEffect) == Reduce(old(orders), items, OrderEffect)
      {
        var e := OrderEffect(items[i]);
        assert items[i..][1..] == items[i + 1..];
        if e == Halt {
          break;
        }
        match e {
          case Store(key) => orders := orders[key := items[i]];
          case Drop(key) => orders := orders - {key};
          case Skip =>
        }
        i := i + 1;
      }
    }

    /** `_on_message`, given the outcome of `json.loads` on the frame. */
    method OnMessage(parsed: Option<Json>)
      requires Valid()
      modifies this`latestMark, this`positions, this`orders, this`isAuthenticated, this`outbox, this`sent, this`sends
      ensures Valid()
      ensures Classify(parsed) == Ignored ==>
                latestMark == old(latestMark) && positions == old(positions) && orders == old(orders)
                && isAuthenticated == old(isAuthenticated) && Out() == old(Out())
      ensures Classify(parsed) == AuthSuccess ==>
                isAuthenticated && Out() == Offer(old(Out()), !isConnected || !hasSocket, PrivateSubscription, wire)
                && latestMark == old(latestMark) && positions == old(positions) && orders == old(orders)
      ensures Classify(parsed).MarkPrice? ==>
                latestMark == MarkAfter(old(latestMark), Classify(parsed).fields)
                && positions == old(positions) && orders == old(orders)
                && isAuthenticated == old(isAuthenticated) && Out() == old(Out())
      ensures Classify(parsed).PositionsUpdate? ==>
                positions == Reduce(old(positions), Classify(parsed).items, PositionEffect)
                && latestMark == old(latestMark) && orders == old(orders)
                && isAuthenticated == old(isAuthenticated) && Out() == old(Out())
      ensures Classify(parsed).OrdersUpdate? ==>
                orders == Reduce(old(orders), Classify(parsed).items, OrderEffect)
                && latestMark == old(latestMark) && positions == old(positions)
                && isAuthenticated == old(isAuthenticated) && Out() == old(Out())
    {
      if parsed.None? || !parsed.value.JObj? {
        return;
      }
      var fields := parsed.value.fields;
      var mtype := Get(fields, "type");
      if mtype == Some(JStr("success")) && Get(fields, "message") == Some(JStr("Authenticated")) {
        OnAuthenticated();
        return;
      }
      if mtype == Some(JStr("heartbeat")) || mtype == Some(JStr("subscriptions")) {
        return;
      }
      if mtype == Some(JStr("mark_price")) {
        var u := MarkUpdate(fields);
        if u.Some? {
          latestMark := latestMark[u.value.0 := u.value.1];
        }
        return;
      }
      if mtype == Some(JStr("positions")) {
        ApplyPositions(Items(Payload(fields, "positions")));
        return;
      }
      if mtype == Some(JStr("orders")) {
        ApplyOrders(Items(Payload(fields, "orders")));
        return;
      }
    }

    /** The `Authenticated` branch of `_on_message`: mark the client authenticated and subscribe to the private channels. */
    method OnAuthenticated()
      modifies this`isAuthenticated, this`outbox, this`sent, this`sends
      ensures isAuthenticated
      ensures Out() == Offer(old(Out()), !isConnected || !hasSocket, PrivateSubscription, wire)
    {
      isAuthenticated := true;
      SubscribePrivateChannels();
    }

    /**
     * The authentication handler with the outbox flushed once the client is
     * authenticated, so that subscriptions queued while waiting for the
     * `Authenticated` reply go out.
     */
    method OnAuthenticatedFixed()
      modifies this`isAuthenticated, this`outbox, this`sent, this`sends
      ensures isAuthenticated
      ensures Out() == Flush(Offer(old(Out()), !isConnected || !hasSocket, PrivateSubscription, wire), wire)
    {
      isAuthenticated := true;
      SubscribePrivateChannels();
      FlushOutbox();
    }

    method GetLatestMark(symbol: string) returns (r: Option<real>)
      ensures symbol in latestMark ==> r == Some(latestMark[symbol])
      ensures symbol !in latestMark ==> r == None
    {
      if symbol in latestMark {
        r := Some(latestMark[symbol]);
      } else {
        r := None;
      }
    }

    method GetPositions() returns (r: map<string, Json>)
      ensures r == positions
    {
      r := positions;
    }

    method GetOrders() returns (r: map<string, Json>)
      requires Valid()
      ensures r == orders
      ensures forall k :: k in r ==> OpenOrder(r[k])
    {
      r := orders;
    }
  }

  // ---------------------------------------------------------------- the queued mark subscription

  /** The exchange's reply to a good `auth` message. */
  const AuthenticatedReply := JObj([("type", JStr("success")), ("message", JStr("Authenticated"))])

  /** `_on_message` takes that reply down its authentication branch. */
  lemma AuthenticatedReplyAuthenticates()
    ensures Classify(Some(AuthenticatedReply)) == AuthSuccess
  {
    GetAt(AuthenticatedReply.fields, "type", 0);
    GetAt(AuthenticatedReply.fields, "message", 1);
  }

  /** A wire on which every send succeeds. */
  function Reliable(n: nat): bool { true }

  /** A client with credentials, connected and opened over a reliable wire, not yet authenticated. */
  method OpenedClient(key: string, secret: string, epochSeconds: int, hmac: (string, string) -> string)
    returns (c: WsClient)
    requires key != "" && secret != ""
    ensures fresh(c) && c.wire == Reliable
    ensures c.isConnected && c.hasSocket && !c.isAuthenticated && c.apiKey == Some(key)
    ensures c.Out() == Outgoing([], [AuthAt(key, secret, epochSeconds, hmac), Heartbeat], 2)
  {
    c := new WsClient(false, Reliable);
    c.ConfigureAuth(Some(key), Some(secret));
    c.Connect();
    c.OnOpen(epochSeconds, hmac);
  }

  /**
   * Open with credentials, subscribe to marks before the `Authenticated`
   * reply, then receive it: the mark subscription stays in the outbox
   * while the private one goes out.
   */
  method QueuedMarkAsWritten(key: string, secret: string, epochSeconds: int, hmac: (string, string) -> string)
    returns (queued: seq<Json>, delivered: seq<Json>)
    requires key != "" && secret != ""
    ensures queued == [MarkSubscription(["BTCUSD"])]
    ensures delivered == [AuthAt(key, secret, epochSeconds, hmac), Heartbeat, PrivateSubscription]
  {
    var c := OpenedClient(key, secret, epochSeconds, hmac);
    c.SubscribeMark(["BTCUSD"]);
    c.OnAuthenticated();
    queued := c.outbox;
    delivered := c.sent;
  }

  /** The same steps with the corrected handler: the mark subscription goes out after authentication. */
  method QueuedMarkFixed(key: string, secret: string, epochSeconds: int, hmac: (string, string) -> string)
    returns (queued: seq<Json>, delivered: seq<Json>)
    requires key != "" && secret != ""
    ensures queued == []
    ensures delivered == [AuthAt(key, secret, epochSeconds, hmac), Heartbeat, PrivateSubscription, MarkSubscription(["BTCUSD"])]
  {
    var c := OpenedClient(key, secret, epochSeconds, hmac);
    c.SubscribeMark(["BTCUSD"]);
    c.OnAuthenticatedFixed();
    assert Kept([MarkSubscription(["BTCUSD"])], Reliable, 3) == [];
    queued := c.outbox;
    delivered := c.sent;
  }
}
