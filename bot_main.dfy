/**
 * One cycle of the bot around the strategy: reading the configuration,
 * normalising the exchange's position payload, shading intent prices to the
 * maker-safe side, and reconciling the resting orders with this cycle's
 * intents (place every intent, then cancel the bot's own orders that match
 * no target).
 */
module BotMain {
  import opened Wrappers
  import opened Text
  import opened PyJson
  import opened Http
  import opened Strategy
  import opened BotUtils
  import opened DeltaAdapter

  // ---------------------------------------------------------------- configuration

  datatype BotConfig = BotConfig(
    symbol: string,
    mode: string,
    pollIntervalSec: real,
    leverage: Json,
    usePostOnly: bool,
    shadeTicks: int,
    logLevel: string,
    logFile: Json,
    strategy: Config)

  /** `max(0.2, poll_ms / 1000.0)`: the poll interval in seconds, never below 0.2. */
  function PollIntervalSec(pollMs: real): (sec: real)
    ensures sec >= 0.2 && sec >= pollMs / 1000.0
    ensures sec == 0.2 || sec == pollMs / 1000.0
  {
    if pollMs / 1000.0 > 0.2 then pollMs / 1000.0 else 0.2
  }

  /** `os.getenv(name, default)`. */
  function GetEnv(env: map<string, string>, name: string, default: string): string {
    if name in env then env[name] else default
  }

  /** `d.get(name, {})` where the section must be a dict for the `.get` calls on it. */
  function Section(fields: seq<(string, Json)>, name: string): Option<seq<(string, Json)>> {
    match GetOr(fields, name, JObj([]))
    case JObj(f) => Some(f)
    case _ => None
  }

  /**
   * `load_config` after `yaml.safe_load`: each setting from its section with
   * its default, the symbol, mode and log level falling back to the
   * environment, and the poll interval clamped. A section that is not a
   * mapping, or a value that `float`/`int`/`str` refuses, raises.
   */
  function LoadConfig(loaded: Json, env: map<string, string>): (r: Attempt<BotConfig>)
    ensures r.Done? ==> r.value.pollIntervalSec >= 0.2
    ensures !Or(loaded, JObj([])).JObj? ==> r.Raised?
  {
    var data := Or(loaded, JObj([]));
    if !data.JObj? then Raised
    else
      match (Section(data.fields, "exchange"), Section(data.fields, "grid"), Section(data.fields, "risk"),
             Section(data.fields, "logging"), Section(data.fields, "sizing"))
      case (Some(ex), Some(grid), Some(risk), Some(logging), Some(sizing)) => ReadSettings(ex, grid, risk, logging, sizing, env)
      case _ => Raised
  }

  /** The settings read from the five sections once each is known to be a mapping. */
  function ReadSettings(ex: seq<(string, Json)>, grid: seq<(string, Json)>, risk: seq<(string, Json)>,
                        logging: seq<(string, Json)>, sizing: seq<(string, Json)>, env: map<string, string>)
    : (r: Attempt<BotConfig>)
    ensures r.Done? ==> r.value.pollIntervalSec >= 0.2
  {
    match (GridConfig(grid, risk),
           PyStr(GetOr(ex, "symbol", JStr(GetEnv(env, "SYMBOL", "BTCUSD")))),
           PyStr(GetOr(ex, "mode", JStr(GetEnv(env, "DELTA_MODE", "demo")))),
           PyFloat(GetOr(ex, "poll_interval_ms", JInt(1000))),
           PyInt(GetOr(ex, "price_shade_ticks", JInt(1))),
           PyStr(GetOr(logging, "level", JStr(GetEnv(env, "LOG_LEVEL", "INFO")))))
    case (Some(strategy), Some(symbol), Some(mode), Some(pollMs), Some(shade), Some(level)) =>
      Done(BotConfig(symbol, mode, PollIntervalSec(pollMs), GetOr(sizing, "leverage", JNull),
                     Truthy(GetOr(ex, "use_post_only", JBool(true))), shade, level,
                     GetOr(logging, "file", JNull), strategy))
    case _ => Raised
  }

  /** The strategy settings of the `grid` and `risk` sections, with their defaults. */
  function GridConfig(grid: seq<(string, Json)>, risk: seq<(string, Json)>): Option<Config> {
    match (PyFloat(GetOr(grid, "seed_offset_usd", JFloat(5.0))), PyFloat(GetOr(grid, "tp_step_usd", JFloat(20.0))),
           PyFloat(GetOr(grid, "avg_step_usd", JFloat(20.0))), PyInt(GetOr(grid, "avg_multiplier", JInt(1))),
           PyInt(GetOr(risk, "max_total_lots", JInt(10))))
    case (Some(seed), Some(tp), Some(avg), Some(mult), Some(maxLots)) => Some(Config(seed, tp, avg, mult, maxLots))
    case _ => None
  }

  lemma GridDefaults()
    ensures GridConfig([], []) == Some(Config(5.0, 20.0, 20.0, 1, 10))
  {
  }

  /** With no poll setting given other than `pollMs`, the defaults fill in everything else. */
  lemma SettingsDefaults(ex: seq<(string, Json)>, pollMs: real)
    requires PyFloat(GetOr(ex, "poll_interval_ms", JInt(1000))) == Some(pollMs)
    requires forall k :: k in Keys(ex) ==> k == "poll_interval_ms"
    ensures ReadSettings(ex, [], [], [], [], map[])
            == Done(BotConfig("BTCUSD", "demo", PollIntervalSec(pollMs), JNull, true, 1, "INFO", JNull,
                              Config(5.0, 20.0, 20.0, 1, 10)))
  {
    GridDefaults();
    assert Get(ex, "symbol") == None && Get(ex, "mode") == None;
    assert Get(ex, "price_shade_ticks") == None && Get(ex, "use_post_only") == None;
    assert PyStr(JStr("BTCUSD")) == Some("BTCUSD");
  }

  /** An empty file and an empty environment give the documented defaults. */
  lemma LoadConfigDefaults()
    ensures LoadConfig(JNull, map[]) == Done(BotConfig("BTCUSD", "demo", 1.0, JNull, true, 1, "INFO", JNull,
                                                      Config(5.0, 20.0, 20.0, 1, 10)))
  {
    assert LoadConfig(JNull, map[]) == ReadSettings([], [], [], [], [], map[]);
    SettingsDefaults([], 1000.0);
    assert PollIntervalSec(1000.0) == 1.0;
  }

  /** A configured poll interval is used in seconds, clamped to at least 0.2. */
  lemma LoadConfigPoll(ms: int)
    ensures LoadConfig(JObj([("exchange", JObj([("poll_interval_ms", JInt(ms))]))]), map[])
            == Done(BotConfig("BTCUSD", "demo", PollIntervalSec(ms as real), JNull, true, 1, "INFO", JNull,
                              Config(5.0, 20.0, 20.0, 1, 10)))
  {
    var ex := [("poll_interval_ms", JInt(ms))];
    ExchangeOnlySections(ex);
    assert LoadConfig(JObj([("exchange", JObj(ex))]), map[]) == ReadSettings(ex, [], [], [], [], map[]);
    GetAt(ex, "poll_interval_ms", 0);
    SettingsDefaults(ex, ms as real);
  }

  /** A file with only an `exchange` section leaves every other section empty. */
  lemma ExchangeOnlySections(ex: seq<(string, Json)>)
    ensures var d := [("exchange", JObj(ex))];
            Section(d, "exchange") == Some(ex) && Section(d, "grid") == Some([]) && Section(d, "risk") == Some([])
            && Section(d, "logging") == Some([]) && Section(d, "sizing") == Some([])
  {
    GetAt([("exchange", JObj(ex))], "exchange", 0);
  }

  // ---------------------------------------------------------------- prices

  /**
   * `_shade_price`: without shading, the base rounded to the tick; with
   * shading, a buy moves down and anything else up by `shade_ticks` ticks
   * before rounding.
   */
  function ShadePrice(basePx: real, side: OrderSide, tick: real, shadeTicks: int): (px: real)
    ensures shadeTicks <= 0 ==> px == RoundPrice(basePx, tick)
    ensures shadeTicks > 0 && side == Buy ==> px == RoundPrice(basePx - tick * shadeTicks as real, tick)
    ensures shadeTicks > 0 && side == Sell ==> px == RoundPrice(basePx + tick * shadeTicks as real, tick)
  {
    if shadeTicks <= 0 then RoundPrice(basePx, tick)
    else
      var adj := tick * shadeTicks as real;
      var px := if side == Buy then basePx - adj else basePx + adj;
      RoundPrice(px, tick)
  }

  /**
   * Shading is maker-safe: with a positive tick and at least one tick of
   * shade, a buy is priced strictly below the base and a sell strictly above.
   */
  lemma ShadeIsMakerSafe(basePx: real, side: OrderSide, tick: real, shadeTicks: int)
    requires tick > 0.0 && shadeTicks >= 1
    ensures side == Buy ==> ShadePrice(basePx, side, tick, shadeTicks) < basePx
    ensures side == Sell ==> ShadePrice(basePx, side, tick, shadeTicks) > basePx
  {
    var adj := tick * shadeTicks as real;
    ShadeOffsetAtLeastTick(tick, shadeTicks, adj);
    if side == Buy {
      var px := ShadePrice(basePx, side, tick, shadeTicks);
      ShadeWithin(basePx - adj, tick, px);
      assert px <= basePx - adj + tick / 2.0;
      assert px <= basePx - tick / 2.0;
    } else {
      var px := ShadePrice(basePx, side, tick, shadeTicks);
      ShadeWithin(basePx + adj, tick, px);
      assert px >= basePx + tick / 2.0;
    }
  }

  lemma ShadeWithin(x: real, tick: real, px: real)
    requires tick > 0.0 && px == RoundPrice(x, tick)
    ensures x - tick / 2.0 <= px <= x + tick / 2.0
  {
    RoundPriceNear(x, tick);
  }

  lemma ShadeOffsetAtLeastTick(tick: real, n: int, adj: real)
    requires tick > 0.0 && n >= 1 && adj == tick * n as real
    ensures adj >= tick
  {
    ScaleLe(1.0, n as real, tick);
    assert n as real * tick == tick * n as real;
  }

  lemma RoundPriceNear(x: real, tick: real)
    requires tick > 0.0
    ensures x - tick / 2.0 <= RoundPrice(x, tick) <= x + tick / 2.0
  {
  }

  /** On a price already on the tick grid, shading moves it by exactly `shade_ticks` ticks. */
  lemma ShadeOnGrid(basePx: real, side: OrderSide, tick: real, shadeTicks: int)
    requires tick > 0.0 && OnGrid(basePx, tick) && shadeTicks > 0
    ensures side == Buy ==> ShadePrice(basePx, side, tick, shadeTicks) == basePx - tick * shadeTicks as real
    ensures side == Sell ==> ShadePrice(basePx, side, tick, shadeTicks) == basePx + tick * shadeTicks as real
  {
    var adj := tick * shadeTicks as real;
    if side == Buy {
      var k := -shadeTicks;
      ShiftOnGrid(basePx, k, tick);
      var y := basePx + k as real * tick;
      assert y == basePx - adj;
      ClampOnGrid(y, tick);
    } else {
      ShiftOnGrid(basePx, shadeTicks, tick);
      var y := basePx + shadeTicks as real * tick;
      assert y == basePx + adj;
      ClampOnGrid(y, tick);
    }
  }

  // ---------------------------------------------------------------- positions

  /** The candidate position records of a `result`, per the shapes the exchange uses. */
  function PositionItems(productId: int, result: Json): seq<Json> {
    match result
    case JArr(items) => items
    case JObj(f) =>
      var key := IntToString(productId);
      if GetOr(f, "positions", JNull).JArr? then GetOr(f, "positions", JNull).items
      else if key in Keys(f) && GetOr(f, key, JNull).JObj? then [GetOr(f, key, JNull)]
      else if GetOr(f, "position", JNull).JObj? then [GetOr(f, "position", JNull)]
      else []
    case _ => []
  }

  /** The side of a position record: `buy` is long, `sell` short, anything else flat; a non-text side raises. */
  function PositionSideOf(sideRaw: Json): Option<PositionSide> {
    match sideRaw
    case JStr(s) => Some(if Lower(s) == "buy" then Long else if Lower(s) == "sell" then Short else Flat)
    case _ => None
  }

  /**
   * `parse_position` after `get_positions`: a failed call is flat; otherwise
   * the first record of the recognised shape gives the side, the lots
   * (`int(float(size))`) and the average entry (an entry of 0 is none). A
   * reply that is not a dict, a side that is not text, and a size or entry
   * that `float` refuses raise.
   */
  function ParsePosition(productId: int, o: Outcome<Json>): (r: Attempt<Position>)
    ensures !o.Ok? ==> r == Done(FlatPosition)
    ensures o.Ok? && !o.value.JObj? ==> r == Raised
    ensures r.Done? && r.value.avgPrice.Some? ==> r.value.avgPrice.value != 0.0
    ensures o.Ok? && o.value.JObj? && PositionItems(productId, GetOr(o.value.fields, "result", JNull)) == []
            ==> r == Done(FlatPosition)
  {
    if !o.Ok? then Done(FlatPosition)
    else if !o.value.JObj? then Raised
    else
      var items := PositionItems(productId, GetOr(o.value.fields, "result", JNull));
      if items == [] then Done(FlatPosition)
      else ParseRecord(items[0])
  }

  /** One position record, as `parse_position` reads `items[0]`. */
  function ParseRecord(p: Json): (r: Attempt<Position>)
    ensures !p.JObj? ==> r == Done(FlatPosition)
    ensures r.Done? && r.value.avgPrice.Some? ==> r.value.avgPrice.value != 0.0
  {
    if !p.JObj? then Done(FlatPosition)
    else
      var f := p.fields;
      match (PositionSideOf(Or(GetOr(f, "side", JNull), JStr("none"))),
             PyFloat(GetOr(f, "size", JInt(0))),
             PyFloat(Or(Or(GetOr(f, "entry_price", JNull), GetOr(f, "avg_entry_price", JNull)), JInt(0))))
      case (Some(side), Some(size), Some(avg)) =>
        Done(Position(side, Trunc(size), if avg == 0.0 then None else Some(avg)))
      case _ => Raised
  }

  /** How a position payload is wrapped. */
  datatype PositionShape = AsList | AsPositionsList | ByProductId | AsPositionDict

  /** The side text the exchange reports for a position side. */
  function SideText(side: PositionSide): string {
    match side
    case Long => "buy"
    case Short => "sell"
    case Flat => "none"
  }

  /** The exchange's record for `p`. */
  function PositionRecord(p: Position): Json {
    JObj([("side", JStr(SideText(p.side))), ("size", JInt(p.openLots)),
          ("entry_price", JFloat(p.avgPrice.GetOr(0.0)))])
  }

  /** The exchange's payload for `p` in one of its shapes. */
  function PositionReply(productId: int, p: Position, shape: PositionShape): Json {
    var rec := PositionRecord(p);
    var result := match shape
      case AsList => JArr([rec])
      case AsPositionsList => JObj([("positions", JArr([rec]))])
      case ByProductId => JObj([(IntToString(productId), rec)])
      case AsPositionDict => JObj([("position", rec)]);
    JObj([("success", JBool(true)), ("result", result)])
  }

  /** Every position reads back from its payload, in each shape, unless its average is recorded as 0. */
  lemma ParsePositionRoundTrip(productId: int, p: Position, shape: PositionShape)
    requires p.avgPrice != Some(0.0)
    ensures ParsePosition(productId, Ok(PositionReply(productId, p, shape))) == Done(p)
  {
    RecordRoundTrip(p);
    ReplyItems(productId, p, shape);
  }

  lemma SideRoundTrip(side: PositionSide)
    ensures PositionSideOf(Or(JStr(SideText(side)), JStr("none"))) == Some(side)
  {
    match side {
      case Long => assert Lower("buy") == "buy";
      case Short => assert Lower("sell") == "sell";
      case Flat => assert Lower("none") == "none";
    }
  }

  lemma RecordRoundTrip(p: Position)
    requires p.avgPrice != Some(0.0)
    ensures ParseRecord(PositionRecord(p)) == Done(p)
  {
    var f := PositionRecord(p).fields;
    var avg := p.avgPrice.GetOr(0.0);
    RecordLookups(p);
    SideRoundTrip(p.side);
    TruncOfInt(p.openLots);
    assert PyFloat(Or(Or(JFloat(avg), JNull), JInt(0))) == Some(avg);
  }

  lemma RecordLookups(p: Position)
    ensures GetOr(PositionRecord(p).fields, "side", JNull) == JStr(SideText(p.side))
    ensures GetOr(PositionRecord(p).fields, "size", JInt(0)) == JInt(p.openLots)
    ensures GetOr(PositionRecord(p).fields, "entry_price", JNull) == JFloat(p.avgPrice.GetOr(0.0))
    ensures GetOr(PositionRecord(p).fields, "avg_entry_price", JNull) == JNull
  {
    var f := PositionRecord(p).fields;
    GetAt(f, "side", 0);
    GetAt(f, "size", 1);
    GetAt(f, "entry_price", 2);
    assert Keys(f) == ["side", "size", "entry_price"];
  }

  lemma TruncOfInt(n: int)
    ensures Trunc(n as real) == n
  {
  }

  lemma ReplyItems(productId: int, p: Position, shape: PositionShape)
    ensures PositionItems(productId, GetOr(PositionReply(productId, p, shape).fields, "result", JNull)) == [PositionRecord(p)]
  {
    var rec := PositionRecord(p);
    var reply := PositionReply(productId, p, shape);
    GetAt(reply.fields, "result", 1);
    match shape {
      case AsList =>
      case AsPositionsList =>
        GetAt([("positions", JArr([rec]))], "positions", 0);
      case ByProductId =>
        var key := IntToString(productId);
        GetAt([(key, rec)], key, 0);
        assert Keys([(key, rec)]) == [key];
        NumericKeyIsNotAName(productId);
      case AsPositionDict =>
        GetAt([("position", rec)], "position", 0);
    }
  }

  /** A product id's text is never one of the names `parse_position` looks for first. */
  lemma NumericKeyIsNotAName(productId: int)
    ensures IntToString(productId) != "positions"
  {
    var s := IntToString(productId);
    assert s[0] == '-' || IsDigit(s[0]);
    assert "positions"[0] == 'p';
  }

  /** Only the first record counts. */
  lemma ParsePositionFirstItemOnly(productId: int, first: Json, rest: seq<Json>)
    ensures ParsePosition(productId, Ok(JObj([("result", JArr([first] + rest))])))
            == ParsePosition(productId, Ok(JObj([("result", JArr([first]))])))
  {
    GetAt([("result", JArr([first] + rest))], "result", 0);
    GetAt([("result", JArr([first]))], "result", 0);
  }

  // ---------------------------------------------------------------- sync_intents

  const OpenStates: string := "open,pending"

  /** The price and side a target records: `(it.side, shaded price)`. */
  function Target(it: OrderIntent, tick: real, shadeTicks: int): (t: (string, real))
    ensures t.0 == SideName(it.side)
  {
    (SideName(it.side), ShadePrice(it.price, it.side, tick, shadeTicks))
  }

  /** The placement of the intent at index `k` (0-based): its id carries sequence number `k + 1`. */
  function PlaceCall(env: string, productId: int, tick: real, postOnly: bool, shadeTicks: int,
                     stamps: nat -> string, it: OrderIntent, k: nat): (c: Call)
    ensures c.PlaceLimitOrder?
  {
    PlaceLimitOrder(productId, SideName(it.side), it.qtyLots, ShadePrice(it.price, it.side, tick, shadeTicks), postOnly,
                    Some(ClientOrderId(env, TypeName(it.typ), SideName(it.side), k + 1, stamps(k + 1))), "gtc", false)
  }

  /** A placement asks for the intent's side and size at the target price, good till cancelled, with its own id. */
  lemma PlaceCallCarriesIntent(env: string, productId: int, tick: real, postOnly: bool, shadeTicks: int,
                               stamps: nat -> string, it: OrderIntent, k: nat)
    ensures var c := PlaceCall(env, productId, tick, postOnly, shadeTicks, stamps, it, k);
            c.product == productId && c.side == Target(it, tick, shadeTicks).0 && c.size == it.qtyLots
            && c.limitPrice == Target(it, tick, shadeTicks).1 && c.postOnly == postOnly
            && c.clientOrderId == Some(ClientOrderId(env, TypeName(it.typ), SideName(it.side), k + 1, stamps(k + 1)))
            && c.tif == "gtc" && !c.reduceOnly
  {
  }

  /** The placements of the first `n` intents, in order. */
  function Placements(env: string, productId: int, tick: real, postOnly: bool, shadeTicks: int,
                      stamps: nat -> string, intents: seq<OrderIntent>, n: nat): (cs: seq<Call>)
    requires n <= |intents|
    ensures |cs| == n
    ensures forall k :: 0 <= k < n ==> cs[k] == PlaceCall(env, productId, tick, postOnly, shadeTicks, stamps, intents[k], k)
  {
    seq(n, k requires 0 <= k < n => PlaceCall(env, productId, tick, postOnly, shadeTicks, stamps, intents[k], k))
  }

  /** The targets of the first `n` intents, in order. */
  function Targets(tick: real, shadeTicks: int, intents: seq<OrderIntent>, n: nat): (ts: seq<(string, real)>)
    requires n <= |intents|
    ensures |ts| == n
    ensures forall k :: 0 <= k < n ==> ts[k] == Target(intents[k], tick, shadeTicks)
  {
    if n == 0 then [] else Targets(tick, shadeTicks, intents, n - 1) + [Target(intents[n - 1], tick, shadeTicks)]
  }

  lemma PlacementsStep(env: string, productId: int, tick: real, postOnly: bool, shadeTicks: int,
                       stamps: nat -> string, intents: seq<OrderIntent>, n: nat)
    requires n < |intents|
    ensures Placements(env, productId, tick, postOnly, shadeTicks, stamps, intents, n + 1)
            == Placements(env, productId, tick, postOnly, shadeTicks, stamps, intents, n)
               + [PlaceCall(env, productId, tick, postOnly, shadeTicks, stamps, intents[n], n)]
  {
    var a := Placements(env, productId, tick, postOnly, shadeTicks, stamps, intents, n + 1);
    var b := Placements(env, productId, tick, postOnly, shadeTicks, stamps, intents, n);
    forall k | 0 <= k < |b| ensures a[k] == b[k] {
      assert b[k] == PlaceCall(env, productId, tick, postOnly, shadeTicks, stamps, intents[k], k);
    }
    Snoc(a, b, PlaceCall(env, productId, tick, postOnly, shadeTicks, stamps, intents[n], n));
  }

  /** A sequence one longer than `b` that agrees with it and ends in `x` is `b + [x]`. */
  lemma Snoc<T>(a: seq<T>, b: seq<T>, x: T)
    requires |a| == |b| + 1 && a[|b|] == x
    requires forall k :: 0 <= k < |b| ==> a[k] == b[k]
    ensures a == b + [x]
  {
  }

  lemma TargetsStep(tick: real, shadeTicks: int, intents: seq<OrderIntent>, n: nat)
    requires n < |intents|
    ensures Targets(tick, shadeTicks, intents, n + 1) == Targets(tick, shadeTicks, intents, n) + [Target(intents[n], tick, shadeTicks)]
  {
  }

  /** Whether a placement's outcome stops the cycle: only exceptions other than `DeltaAPIError` escape. */
  predicate IsFatal(o: Outcome<Json>) {
    o.OtherFailure?
  }

  /** The first of the first `n` placements whose outcome escapes, if any. */
  function FirstFatal(placed: nat -> Outcome<Json>, n: nat): (r: Option<nat>)
    ensures r.Some? ==> r.value < n && IsFatal(placed(r.value)) && forall j :: 0 <= j < r.value ==> !IsFatal(placed(j))
    ensures r.None? ==> forall j :: 0 <= j < n ==> !IsFatal(placed(j))
  {
    if n == 0 then None
    else match FirstFatal(placed, n - 1)
      case Some(k) => Some(k)
      case None => if IsFatal(placed(n - 1)) then Some(n - 1) else None
  }

  lemma {:induction false} FirstFatalStable(placed: nat -> Outcome<Json>, k: nat, n: nat)
    requires k < n && FirstFatal(placed, k + 1) == Some(k)
    ensures FirstFatal(placed, n) == Some(k)
  {
    if n > k + 1 {
      FirstFatalStable(placed, k, n - 1);
    }
  }

  /** How many intents the placement loop handles: all of them, or up to and including the one that raised. */
  function Handled(placed: nat -> Outcome<Json>, n: nat): (h: nat)
    ensures h <= n
  {
    match FirstFatal(placed, n)
    case Some(k) => k + 1
    case None => n
  }

  /** What the listing call gives the cancel loop: the orders, or a value whose iteration raises. */
  datatype Listing = Listed(items: seq<Json>) | NotIterable

  /** `open_data.get("result") or []`, with any failure of the call (or of `.get`) read as no orders. */
  function OpenItems(o: Outcome<Json>): (l: Listing)
    ensures !o.Ok? ==> l == Listed([])
  {
    if !o.Ok? || !o.value.JObj? then Listed([])
    else
      match Or(GetOr(o.value.fields, "result", JNull), JArr([]))
      case JArr(items) => Listed(items)
      case _ => NotIterable
  }

  /**
   * The order id of a bot-owned order: `str(od.get("client_order_id") or "")`
   * when it starts with `HAIDER-`. The text of any value that is not a
   * string starts with a digit, a sign, a bracket, a brace or a capital
   * `T`/`F`, so only strings can be owned.
   */
  function OwnedId(od: Json): (id: Option<string>)
    requires od.JObj?
    ensures id.Some? ==> StartsWith(id.value, OrderIdPrefix)
    ensures id.Some? ==> Get(od.fields, "client_order_id") == Some(JStr(id.value))
  {
    match Or(GetOr(od.fields, "client_order_id", JNull), JStr(""))
    case JStr(s) => if StartsWith(s, OrderIdPrefix) then Some(s) else None
    case _ => None
  }

  /**
   * `str(od.get("side", "")).lower()` for a text side. The text of any other
   * value is never "buy" or "sell", so it matches no target (`None`).
   */
  function ListedSide(od: Json): Option<string>
    requires od.JObj?
  {
    match GetOr(od.fields, "side", JStr(""))
    case JStr(s) => Some(Lower(s))
    case _ => None
  }

  /** `round_price(float(limit_price or price or 0), tick)`, an unreadable price counting as 0. */
  function ListedPrice(od: Json, tick: real): real
    requires od.JObj?
  {
    var raw := Or(Or(GetOr(od.fields, "limit_price", JNull), GetOr(od.fields, "price", JNull)), JInt(0));
    RoundPrice(PyFloat(raw).GetOr(0.0), tick)
  }

  /** Whether a listed order's side and rounded price are among the targets. */
  predicate Matches(od: Json, targets: seq<(string, real)>, tick: real)
    requires od.JObj?
  {
    ListedSide(od).Some? && (ListedSide(od).value, ListedPrice(od, tick)) in targets
  }

  /** What the cancel loop does with one listed order. */
  datatype Decision = Keep | CancelIt(coid: string) | Fail

  function Decide(od: Json, targets: seq<(string, real)>, tick: real): (d: Decision)
    ensures !od.JObj? <==> d == Fail
    ensures d.CancelIt? <==> od.JObj? && OwnedId(od).Some? && !Matches(od, targets, tick)
    ensures d.CancelIt? ==> OwnedId(od) == Some(d.coid)
  {
    if !od.JObj? then Fail
    else match OwnedId(od)
      case None => Keep
      case Some(coid) => if Matches(od, targets, tick) then Keep else CancelIt(coid)
  }

  /** The cancel call for a stale order. */
  function CancelCall(coid: string, productId: int): Call {
    CancelOrder(None, Some(coid), Some(productId))
  }

  /** The cancel loop over `items`: the cancels it issues and whether it raised on an order that is not a dict. */
  function CancelPass(items: seq<Json>, targets: seq<(string, real)>, tick: real, productId: int): (r: (seq<Call>, bool))
  {
    if |items| == 0 then ([], false)
    else
      var prev := CancelPass(items[..|items| - 1], targets, tick, productId);
      if prev.1 then prev
      else match Decide(items[|items| - 1], targets, tick)
        case Keep => prev
        case CancelIt(coid) => (prev.0 + [CancelCall(coid, productId)], false)
        case Fail => (prev.0, true)
  }

  /** The calls, targets and escape of one `sync_intents` cycle. */
  datatype Cycle = Cycle(calls: seq<Call>, targets: seq<(string, real)>, raised: bool)

  /**
   * `sync_intents` as a whole: list the open orders; place every intent in
   * order, recording its target first and stopping only on an exception
   * other than `DeltaAPIError`; then, unless that happened, cancel each
   * bot-owned order that matches no target.
   */
  function SyncSpec(env: string, productId: int, tick: real, intents: seq<OrderIntent>, postOnly: bool, shadeTicks: int,
                    openOrders: Outcome<Json>, stamps: nat -> string, placed: nat -> Outcome<Json>): Cycle
  {
    var h := Handled(placed, |intents|);
    var head := [GetOpenOrders(Some(IntToString(productId)), OpenStates)]
                + Placements(env, productId, tick, postOnly, shadeTicks, stamps, intents, h);
    var targets := Targets(tick, shadeTicks, intents, h);
    if FirstFatal(placed, |intents|).Some? then Cycle(head, targets, true)
    else CancelPhase(head, targets, tick, productId, openOrders)
  }

  /** The cancel phase after every intent was handled: iterating the listing, then the cancel loop. */
  function CancelPhase(head: seq<Call>, targets: seq<(string, real)>, tick: real, productId: int,
                       openOrders: Outcome<Json>): Cycle
  {
    match OpenItems(openOrders)
    case NotIterable => Cycle(head, targets, true)
    case Listed(items) =>
      var pass := CancelPass(items, targets, tick, productId);
      Cycle(head + pass.0, targets, pass.1)
  }

  /**
   * `sync_intents`. `openOrders` is the outcome of the listing call,
   * `placed(k)` that of the k-th placement, and `stamps(n)` the clock reading
   * `gen_client_order_id` takes for sequence number `n`; cancel failures are
   * caught and logged, so their outcomes do not matter.
   */
  method SyncIntents(env: string, productId: int, tick: real, intents: seq<OrderIntent>, postOnly: bool, shadeTicks: int,
                     openOrders: Outcome<Json>, stamps: nat -> string, placed: nat -> Outcome<Json>)
    returns (calls: seq<Call>, targets: seq<(string, real)>, raised: bool)
    ensures Cycle(calls, targets, raised) == SyncSpec(env, productId, tick, intents, postOnly, shadeTicks, openOrders, stamps, placed)
  {
    var listing := OpenItems(openOrders);
    var placements;
    placements, targets, raised := PlaceIntents(env, productId, tick, intents, postOnly, shadeTicks, stamps, placed);
    calls := [GetOpenOrders(Some(IntToString(productId)), OpenStates)] + placements;
    if raised {
      return;
    }
    match listing {
      case NotIterable =>
        raised := true;
      case Listed(items) =>
        var cancels;
        cancels, raised := CancelStale(items, targets, tick, productId);
        calls := calls + cancels;
    }
  }

  /** The placement loop of `sync_intents`. */
  method PlaceIntents(env: string, productId: int, tick: real, intents: seq<OrderIntent>, postOnly: bool, shadeTicks: int,
                      stamps: nat -> string, placed: nat -> Outcome<Json>)
    returns (calls: seq<Call>, targets: seq<(string, real)>, raised: bool)
    ensures raised <==> FirstFatal(placed, |intents|).Some?
    ensures calls == Placements(env, productId, tick, postOnly, shadeTicks, stamps, intents, Handled(placed, |intents|))
    ensures targets == Targets(tick, shadeTicks, intents, Handled(placed, |intents|))
  {
    calls := [];
    targets := [];
    raised := false;
    var seqNo := 1;
    var i := 0;
    while i < |intents| && !raised
      invariant 0 <= i <= |intents|
      invariant seqNo == i + 1
      invariant FirstFatal(placed, i) == (if raised then Some(i - 1) else None)
      invariant targets == Targets(tick, shadeTicks, intents, i)
      invariant calls == Placements(env, productId, tick, postOnly, shadeTicks, stamps, intents, i)
    {
      // the target is recorded before the placement is attempted; the id takes the next sequence number
      targets := targets + [Target(intents[i], tick, shadeTicks)];
      calls := calls + [PlaceCall(env, productId, tick, postOnly, shadeTicks, stamps, intents[i], seqNo - 1)];
      seqNo := seqNo + 1;
      PlacementsStep(env, productId, tick, postOnly, shadeTicks, stamps, intents, i);
      TargetsStep(tick, shadeTicks, intents, i);
      if IsFatal(placed(i)) {
        raised := true;
      }
      i := i + 1;
    }
    if raised {
      FirstFatalStable(placed, i - 1, |intents|);
      assert Handled(placed, |intents|) == i;
    } else {
      assert i == |intents| && Handled(placed, |intents|) == i;
    }
  }

  /** The cancel loop of `sync_intents` over the listed orders. */
  method CancelStale(items: seq<Json>, targets: seq<(string, real)>, tick: real, productId: int)
    returns (cancels: seq<Call>, raised: bool)
    ensures (cancels, raised) == CancelPass(items, targets, tick, productId)
  {
    cancels := [];
    raised := false;
    var j := 0;
    while j < |items| && !raised
      invariant 0 <= j <= |items|
      invariant CancelPass(items[..j], targets, tick, productId) == (cancels, raised)
      invariant raised ==> CancelPass(items, targets, tick, productId) == (cancels, raised)
    {
      assert items[..j + 1][..j] == items[..j];
      match Decide(items[j], targets, tick) {
        case Keep =>
        case CancelIt(coid) =>
          cancels := cancels + [CancelCall(coid, productId)];
        case Fail =>
          raised := true;
          CancelPassStops(items, targets, tick, productId, j + 1);
      }
      j := j + 1;
    }
    if !raised {
      assert items[..j] == items;
    }
  }

  /** Once the cancel loop has raised on a prefix, the whole pass has raised with the same cancels. */
  lemma {:induction false} CancelPassStops(items: seq<Json>, targets: seq<(string, real)>, tick: real, productId: int, n: nat)
    requires n <= |items| && CancelPass(items[..n], targets, tick, productId).1
    ensures CancelPass(items, targets, tick, productId) == CancelPass(items[..n], targets, tick, productId)
  {
    if n < |items| {
      assert items[..|items| - 1][..n] == items[..n];
      CancelPassStops(items[..|items| - 1], targets, tick, productId, n);
    } else {
      assert items[..n] == items;
    }
  }

  // ---------------------------------------------------------------- properties of a cycle

  /** Every cancel the pass issues is for a listed bot-owned order that matches no target. */
  lemma {:induction false} CancelPassSound(items: seq<Json>, targets: seq<(string, real)>, tick: real, productId: int)
    ensures forall c :: c in CancelPass(items, targets, tick, productId).0 ==>
              exists i :: 0 <= i < |items| && Decide(items[i], targets, tick).CancelIt?
                          && c == CancelCall(Decide(items[i], targets, tick).coid, productId)
  {
    if |items| > 0 {
      var init := items[..|items| - 1];
      CancelPassSound(init, targets, tick, productId);
      forall c | c in CancelPass(init, targets, tick, productId).0
        ensures exists i :: 0 <= i < |items| && Decide(items[i], targets, tick).CancelIt?
                            && c == CancelCall(Decide(items[i], targets, tick).coid, productId)
      {
        var i :| 0 <= i < |init| && Decide(init[i], targets, tick).CancelIt?
                 && c == CancelCall(Decide(init[i], targets, tick).coid, productId);
        assert items[i] == init[i];
      }
    }
  }

  /** When every listed order is a dict, the pass runs to the end and cancels each bot-owned order that matches no target. */
  lemma {:induction false} CancelPassComplete(items: seq<Json>, targets: seq<(string, real)>, tick: real, productId: int)
    requires forall i :: 0 <= i < |items| ==> items[i].JObj?
    ensures !CancelPass(items, targets, tick, productId).1
    ensures forall i :: 0 <= i < |items| && Decide(items[i], targets, tick).CancelIt? ==>
              CancelCall(Decide(items[i], targets, tick).coid, productId) in CancelPass(items, targets, tick, productId).0
  {
    CancelPassRuns(items, targets, tick, productId);
    forall i | 0 <= i < |items| && Decide(items[i], targets, tick).CancelIt?
      ensures CancelCall(Decide(items[i], targets, tick).coid, productId) in CancelPass(items, targets, tick, productId).0
    {
      CancelPassReaches(items, targets, tick, productId, i);
    }
  }

  lemma {:induction false} CancelPassRuns(items: seq<Json>, targets: seq<(string, real)>, tick: real, productId: int)
    requires forall i :: 0 <= i < |items| ==> items[i].JObj?
    ensures !CancelPass(items, targets, tick, productId).1
  {
    if |items| > 0 {
      var n := |items| - 1;
      CancelPassRuns(items[..n], targets, tick, productId);
      assert items[n].JObj?;
    }
  }

  lemma {:induction false} CancelPassReaches(items: seq<Json>, targets: seq<(string, real)>, tick: real, productId: int, i: nat)
    requires forall j :: 0 <= j < |items| ==> items[j].JObj?
    requires i < |items| && Decide(items[i], targets, tick).CancelIt?
    ensures CancelCall(Decide(items[i], targets, tick).coid, productId) in CancelPass(items, targets, tick, productId).0
  {
    var n := |items| - 1;
    var init := items[..n];
    CancelPassRuns(init, targets, tick, productId);
    var prev := CancelPass(init, targets, tick, productId);
    assert items[n].JObj?;
    var pass := CancelPass(items, targets, tick, productId);
    assert forall c :: c in prev.0 ==> c in pass.0;
    if i < n {
      assert init[i] == items[i];
      CancelPassReaches(init, targets, tick, productId, i);
    }
  }

  /** The listing call and the placements are never cancels. */
  lemma HeadHasNoCancel(env: string, productId: int, tick: real, intents: seq<OrderIntent>, postOnly: bool, shadeTicks: int,
                        stamps: nat -> string, n: nat)
    requires n <= |intents|
    ensures forall c :: (c in [GetOpenOrders(Some(IntToString(productId)), OpenStates)]
                               + Placements(env, productId, tick, postOnly, shadeTicks, stamps, intents, n)) ==> !c.CancelOrder?
  {
    var ps := Placements(env, productId, tick, postOnly, shadeTicks, stamps, intents, n);
    forall c | c in [GetOpenOrders(Some(IntToString(productId)), OpenStates)] + ps
      ensures !c.CancelOrder?
    {
      if c in ps {
        var k :| 0 <= k < |ps| && ps[k] == c;
      }
    }
  }

  /** When listing the open orders fails, the cycle cancels nothing. */
  lemma SyncNoCancelsWhenListingFails(env: string, productId: int, tick: real, intents: seq<OrderIntent>, postOnly: bool,
                                      shadeTicks: int, openOrders: Outcome<Json>, stamps: nat -> string, placed: nat -> Outcome<Json>)
    requires !openOrders.Ok?
    ensures forall c :: c in SyncSpec(env, productId, tick, intents, postOnly, shadeTicks, openOrders, stamps, placed).calls
                        ==> !c.CancelOrder?
  {
    HeadHasNoCancel(env, productId, tick, intents, postOnly, shadeTicks, stamps, Handled(placed, |intents|));
  }

  /** Whether `coid` is the bot-owned client order id of some order in the listing. */
  predicate OwnedInListing(l: Listing, coid: string) {
    l.Listed? && exists i :: 0 <= i < |l.items| && l.items[i].JObj? && OwnedId(l.items[i]) == Some(coid)
  }

  /**
   * Only bot-owned orders are cancelled: every cancel of a cycle names a
   * listed order's `HAIDER-` client order id and the product, and no
   * exchange order id.
   */
  lemma SyncCancelsOnlyOwned(env: string, productId: int, tick: real, intents: seq<OrderIntent>, postOnly: bool,
                             shadeTicks: int, openOrders: Outcome<Json>, stamps: nat -> string, placed: nat -> Outcome<Json>)
    ensures forall c :: c in SyncSpec(env, productId, tick, intents, postOnly, shadeTicks, openOrders, stamps, placed).calls
                        && c.CancelOrder? ==>
              c.orderId.None? && c.productId == Some(productId) && c.clientOrderId.Some?
              && StartsWith(c.clientOrderId.value, OrderIdPrefix)
              && OwnedInListing(OpenItems(openOrders), c.clientOrderId.value)
  {
    var h := Handled(placed, |intents|);
    HeadHasNoCancel(env, productId, tick, intents, postOnly, shadeTicks, stamps, h);
    var targets := Targets(tick, shadeTicks, intents, h);
    match OpenItems(openOrders) {
      case NotIterable =>
      case Listed(items) =>
        CancelPassSound(items, targets, tick, productId);
        var cycle := SyncSpec(env, productId, tick, intents, postOnly, shadeTicks, openOrders, stamps, placed);
        forall c | c in cycle.calls && c.CancelOrder?
          ensures c.orderId.None? && c.productId == Some(productId) && c.clientOrderId.Some?
                  && StartsWith(c.clientOrderId.value, OrderIdPrefix)
                  && OwnedInListing(OpenItems(openOrders), c.clientOrderId.value)
        {
          var i :| 0 <= i < |items| && Decide(items[i], targets, tick).CancelIt?
                   && c == CancelCall(Decide(items[i], targets, tick).coid, productId);
          assert items[i].JObj? && OwnedId(items[i]) == Some(c.clientOrderId.value);
        }
    }
  }

  /**
   * When nothing escapes the placements and the listing holds dicts only,
   * the cycle completes and cancels a client order id exactly when some
   * listed bot-owned order carries it with a side and rounded price that
   * are not among the targets.
   */
  lemma SyncCancelsExactlyStale(env: string, productId: int, tick: real, intents: seq<OrderIntent>, postOnly: bool,
                                shadeTicks: int, openOrders: Outcome<Json>, stamps: nat -> string, placed: nat -> Outcome<Json>,
                                items: seq<Json>, coid: string)
    requires forall k :: 0 <= k < |intents| ==> !IsFatal(placed(k))
    requires OpenItems(openOrders) == Listed(items)
    requires forall i :: 0 <= i < |items| ==> items[i].JObj?
    ensures !SyncSpec(env, productId, tick, intents, postOnly, shadeTicks, openOrders, stamps, placed).raised
    ensures CancelCall(coid, productId) in SyncSpec(env, productId, tick, intents, postOnly, shadeTicks, openOrders, stamps, placed).calls
            <==> exists i :: 0 <= i < |items| && OwnedId(items[i]) == Some(coid)
                             && !Matches(items[i], Targets(tick, shadeTicks, intents, |intents|), tick)
  {
    var targets := Targets(tick, shadeTicks, intents, |intents|);
    HeadHasNoCancel(env, productId, tick, intents, postOnly, shadeTicks, stamps, |intents|);
    CancelPassSound(items, targets, tick, productId);
    CancelPassComplete(items, targets, tick, productId);
    var cycle := SyncSpec(env, productId, tick, intents, postOnly, shadeTicks, openOrders, stamps, placed);
    var pass := CancelPass(items, targets, tick, productId);
    assert cycle.calls == [GetOpenOrders(Some(IntToString(productId)), OpenStates)]
                          + Placements(env, productId, tick, postOnly, shadeTicks, stamps, intents, |intents|) + pass.0;
    if CancelCall(coid, productId) in cycle.calls {
      assert CancelCall(coid, productId) in pass.0;
      var i :| 0 <= i < |items| && Decide(items[i], targets, tick).CancelIt?
               && CancelCall(coid, productId) == CancelCall(Decide(items[i], targets, tick).coid, productId);
      assert OwnedId(items[i]) == Some(coid);
    }
    if exists i :: 0 <= i < |items| && OwnedId(items[i]) == Some(coid) && !Matches(items[i], targets, tick) {
      var i :| 0 <= i < |items| && OwnedId(items[i]) == Some(coid) && !Matches(items[i], targets, tick);
      assert Decide(items[i], targets, tick) == CancelIt(coid);
      assert CancelCall(coid, productId) in pass.0;
    }
  }

  /**
   * While no placement raises anything but a `DeltaAPIError`, every intent is
   * placed in order with sequence numbers 1, 2, … and every target recorded.
   */
  lemma SyncPlacesEveryIntent(env: string, productId: int, tick: real, intents: seq<OrderIntent>, postOnly: bool,
                              shadeTicks: int, openOrders: Outcome<Json>, stamps: nat -> string, placed: nat -> Outcome<Json>)
    requires forall k :: 0 <= k < |intents| ==> placed(k).Ok? || placed(k).ApiFailure?
    ensures var cycle := SyncSpec(env, productId, tick, intents, postOnly, shadeTicks, openOrders, stamps, placed);
            |cycle.calls| >= |intents| + 1
            && cycle.calls[..|intents| + 1] == [GetOpenOrders(Some(IntToString(productId)), OpenStates)]
                                               + Placements(env, productId, tick, postOnly, shadeTicks, stamps, intents, |intents|)
            && cycle.targets == Targets(tick, shadeTicks, intents, |intents|)
  {
    assert FirstFatal(placed, |intents|).None?;
    SyncHead(env, productId, tick, intents, postOnly, shadeTicks, openOrders, stamps, placed);
  }

  /** A cycle's calls start with the listing and the placements it handled, and its targets are theirs. */
  lemma SyncHead(env: string, productId: int, tick: real, intents: seq<OrderIntent>, postOnly: bool,
                 shadeTicks: int, openOrders: Outcome<Json>, stamps: nat -> string, placed: nat -> Outcome<Json>)
    ensures var cycle := SyncSpec(env, productId, tick, intents, postOnly, shadeTicks, openOrders, stamps, placed);
            var h := Handled(placed, |intents|);
            |cycle.calls| >= h + 1
            && cycle.calls[..h + 1] == [GetOpenOrders(Some(IntToString(productId)), OpenStates)]
                                       + Placements(env, productId, tick, postOnly, shadeTicks, stamps, intents, h)
            && cycle.targets == Targets(tick, shadeTicks, intents, h)
            && (FirstFatal(placed, |intents|).Some? ==>
                  cycle == Cycle([GetOpenOrders(Some(IntToString(productId)), OpenStates)]
                                 + Placements(env, productId, tick, postOnly, shadeTicks, stamps, intents, h),
                                 Targets(tick, shadeTicks, intents, h), true))
  {
    var h := Handled(placed, |intents|);
    var head := [GetOpenOrders(Some(IntToString(productId)), OpenStates)]
                + Placements(env, productId, tick, postOnly, shadeTicks, stamps, intents, h);
    var targets := Targets(tick, shadeTicks, intents, h);
    assert |head| == h + 1;
    if FirstFatal(placed, |intents|).None? {
      match OpenItems(openOrders) {
        case NotIterable =>
          PrefixOfAppend(head, []);
        case Listed(items) =>
          PrefixOfAppend(head, CancelPass(items, targets, tick, productId).0);
      }
    } else {
      PrefixOfAppend(head, []);
    }
  }

  lemma PrefixOfAppend<T>(a: seq<T>, b: seq<T>)
    ensures (a + b)[..|a|] == a && a[..|a|] == a
  {
  }

  /**
   * When a placement raises something other than a `DeltaAPIError` the cycle
   * stops there: its target is still recorded, and no later intent is placed
   * and nothing is cancelled.
   */
  lemma SyncStopsAtEscape(env: string, productId: int, tick: real, intents: seq<OrderIntent>, postOnly: bool,
                          shadeTicks: int, openOrders: Outcome<Json>, stamps: nat -> string, placed: nat -> Outcome<Json>, k: nat)
    requires k < |intents| && placed(k).OtherFailure?
    requires forall j :: 0 <= j < k ==> !placed(j).OtherFailure?
    ensures SyncSpec(env, productId, tick, intents, postOnly, shadeTicks, openOrders, stamps, placed)
            == Cycle([GetOpenOrders(Some(IntToString(productId)), OpenStates)]
                     + Placements(env, productId, tick, postOnly, shadeTicks, stamps, intents, k + 1),
                     Targets(tick, shadeTicks, intents, k + 1), true)
  {
    FirstFatalUpTo(placed, k);
    FirstFatalStable(placed, k, |intents|);
    SyncFatal(env, productId, tick, intents, postOnly, shadeTicks, openOrders, stamps, placed, k);
  }

  lemma SyncFatal(env: string, productId: int, tick: real, intents: seq<OrderIntent>, postOnly: bool,
                  shadeTicks: int, openOrders: Outcome<Json>, stamps: nat -> string, placed: nat -> Outcome<Json>, k: nat)
    requires FirstFatal(placed, |intents|) == Some(k)
    ensures SyncSpec(env, productId, tick, intents, postOnly, shadeTicks, openOrders, stamps, placed)
            == Cycle([GetOpenOrders(Some(IntToString(productId)), OpenStates)]
                     + Placements(env, productId, tick, postOnly, shadeTicks, stamps, intents, k + 1),
                     Targets(tick, shadeTicks, intents, k + 1), true)
  {
    var h := Handled(placed, |intents|);
    assert h == k + 1;
    var cycle := SyncSpec(env, productId, tick, intents, postOnly, shadeTicks, openOrders, stamps, placed);
    assert cycle.calls == [GetOpenOrders(Some(IntToString(productId)), OpenStates)]
                          + Placements(env, productId, tick, postOnly, shadeTicks, stamps, intents, h);
  }

  lemma FirstFatalUpTo(placed: nat -> Outcome<Json>, k: nat)
    requires IsFatal(placed(k)) && forall j :: 0 <= j < k ==> !IsFatal(placed(j))
    ensures FirstFatal(placed, k + 1) == Some(k)
  {
    assert FirstFatal(placed, k).None?;
  }
}
