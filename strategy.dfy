/**
 * The strategy engine: from the current position, the mark price and the
 * strategy settings, the one or two orders the bot wants resting this cycle.
 * Flat, it seeds a one-lot buy below the mark. In a position, it always asks
 * for a take-profit on the other side that flips the position by one lot, and
 * averages on the same side while the risk cap allows.
 */
module Strategy {
  import opened Wrappers

  /** The position's direction: the source's "NONE", "LONG" and "SHORT". */
  datatype PositionSide = Flat | Long | Short

  datatype OrderSide = Buy | Sell

  /** The role of an intent: take-profit, averaging, or the seed when flat. */
  datatype IntentType = TP | AVG | SEED

  datatype Position = Position(side: PositionSide, openLots: int, avgPrice: Option<real>)

  /** `Position()`: the dataclass defaults. */
  const FlatPosition: Position := Position(Flat, 0, None)

  datatype OrderIntent = OrderIntent(side: OrderSide, qtyLots: int, price: real, typ: IntentType)

  datatype Config = Config(
    seedOffsetUsd: real,
    tpStepUsd: real,
    avgStepUsd: real,
    avgMultiplier: int,
    maxTotalLots: int)

  /** The side as the exchange and the order ids spell it. */
  function SideName(s: OrderSide): (name: string)
    ensures name == "buy" || name == "sell"
    ensures (name == "buy") <==> s == Buy
  {
    match s
    case Buy => "buy"
    case Sell => "sell"
  }

  function TypeName(t: IntentType): string {
    match t
    case TP => "TP"
    case AVG => "AVG"
    case SEED => "SEED"
  }

  /** `position.avg_price or mark_price`: a missing or zero average falls back to the mark. */
  function EntryPrice(p: Position, markPrice: real): (avg: real)
    ensures (p.avgPrice == None || p.avgPrice == Some(0.0)) ==> avg == markPrice
    ensures p.avgPrice.Some? && p.avgPrice.value != 0.0 ==> avg == p.avgPrice.value
  {
    match p.avgPrice
    case Some(a) => if a != 0.0 then a else markPrice
    case None => markPrice
  }

  /** How many intents of role `t` a list holds. */
  function CountOf(intents: seq<OrderIntent>, t: IntentType): nat {
    if |intents| == 0 then 0
    else CountOf(intents[..|intents| - 1], t) + (if intents[|intents| - 1].typ == t then 1 else 0)
  }

  /** `compute_next_orders`. */
  function ComputeNextOrders(position: Position, markPrice: real, cfg: Config): (r: seq<OrderIntent>)
    // Flat: exactly the one-lot seed buy below the mark.
    ensures position.side == Flat ==> r == [OrderIntent(Buy, 1, markPrice - cfg.seedOffsetUsd, SEED)]
    // In a position (anything but LONG counts as short): one TP, always last,
    // on the other side, for one lot more than is open, one step past the entry.
    ensures position.side != Flat ==>
      var avg := EntryPrice(position, markPrice);
      var isLong := position.side == Long;
      && |r| >= 1
      && CountOf(r, TP) == 1 && CountOf(r, SEED) == 0
      && r[|r| - 1] == OrderIntent(if isLong then Sell else Buy, position.openLots + 1,
                                   if isLong then avg + cfg.tpStepUsd else avg - cfg.tpStepUsd, TP)
    // Averaging: present exactly when the cap allows it, then first, same side,
    // `open_lots * avg_multiplier` lots, one step against the position.
    ensures position.side != Flat ==>
      var avg := EntryPrice(position, markPrice);
      var isLong := position.side == Long;
      var avgQty := position.openLots * cfg.avgMultiplier;
      && (CountOf(r, AVG) == 1 <==> position.openLots + avgQty <= cfg.maxTotalLots)
      && |r| == 1 + CountOf(r, AVG)
      && (|r| == 2 ==> r[0] == OrderIntent(if isLong then Buy else Sell, avgQty,
                                           if isLong then avg - cfg.avgStepUsd else avg + cfg.avgStepUsd, AVG))
  {
    if position.side == Flat then
      [OrderIntent(Buy, 1, markPrice - cfg.seedOffsetUsd, SEED)]
    else
      var isLong := position.side == Long;
      var avg := EntryPrice(position, markPrice);
      var tp := OrderIntent(if isLong then Sell else Buy, position.openLots + 1,
                            if isLong then avg + cfg.tpStepUsd else avg - cfg.tpStepUsd, TP);
      var avgQty := position.openLots * cfg.avgMultiplier;
      var average := OrderIntent(if isLong then Buy else Sell, avgQty,
                                 if isLong then avg - cfg.avgStepUsd else avg + cfg.avgStepUsd, AVG);
      if position.openLots + avgQty <= cfg.maxTotalLots then
        var r := [average, tp];
        assert r[..1] == [average] && [average][..0] == [];
        assert CountOf([average], TP) == 0 && CountOf([average], SEED) == 0 && CountOf([average], AVG) == 1;
        r
      else [tp]
  }
}
