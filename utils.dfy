/**
 * Price and quantity quantisation and the client order id format.
 */
module BotUtils {
  import opened Text
  import opened PyJson

  /** Python's `round(x)`: the nearest integer, ties to the even one. */
  function RoundHalfEven(x: real): (n: int)
    ensures x - 0.5 <= n as real <= x + 0.5
    ensures (n as real == x - 0.5 || n as real == x + 0.5) ==> n % 2 == 0
  {
    var f := x.Floor;
    var d := x - f as real;
    if d < 0.5 then f
    else if d > 0.5 then f + 1
    else if f % 2 == 0 then f else f + 1
  }

  /** No integer is closer to `x` than `round(x)`. */
  lemma RoundHalfEvenNearest(x: real, m: int)
    ensures Abs(RoundHalfEven(x) as real - x) <= Abs(m as real - x)
  {
    var n := RoundHalfEven(x);
    if m > n {
      assert m as real >= n as real + 1.0;
      assert m as real - x >= 0.5;
    } else if m < n {
      assert m as real <= n as real - 1.0;
      assert x - m as real >= 0.5;
    }
  }

  /** An integer rounds to itself. */
  lemma RoundHalfEvenOfInteger(k: int)
    ensures RoundHalfEven(k as real) == k
  {
  }

  function Abs(x: real): real { if x < 0.0 then -x else x }

  /** `x` is a whole multiple of `step`. */
  ghost predicate OnGrid(x: real, step: real)
    requires step > 0.0
  {
    exists n: int {:trigger n as real * step} :: x == n as real * step
  }

  lemma MultipleOnGrid(n: int, step: real)
    requires step > 0.0
    ensures OnGrid(n as real * step, step)
  {
  }

  lemma DivideMultiple(n: int, step: real)
    requires step > 0.0
    ensures (n as real * step) / step == n as real
  {
  }

  /** `clamp_to_step`: `round(value / step) * step`, or `value` itself when `step <= 0`. */
  function ClampToStep(value: real, step: real): (r: real)
    ensures step <= 0.0 ==> r == value
    ensures step > 0.0 ==> OnGrid(r, step) && Abs(r - value) <= step / 2.0
  {
    if step <= 0.0 then value
    else
      var n := RoundHalfEven(value / step);
      MultipleOnGrid(n, step);
      NearBound(value, step, n);
      n as real * step
  }

  /** Scaling `|n - value/step| <= 1/2` by `step`. */
  lemma NearBound(value: real, step: real, n: int)
    requires step > 0.0
    requires value / step - 0.5 <= n as real <= value / step + 0.5
    ensures Abs(n as real * step - value) <= step / 2.0
  {
    var q := value / step;
    assert q * step == value;
    ScaleBetween(q - 0.5, n as real, q + 0.5, step);
    assert (q - 0.5) * step == value - step / 2.0;
    assert (q + 0.5) * step == value + step / 2.0;
  }

  lemma ScaleBetween(lo: real, x: real, hi: real, s: real)
    requires lo <= x <= hi && s > 0.0
    ensures lo * s <= x * s <= hi * s
  {
    ScaleLe(lo, x, s);
    ScaleLe(x, hi, s);
  }

  lemma ProductPositive(d: real, s: real)
    requires d > 0.0 && s > 0.0
    ensures d * s > 0.0
  {
  }

  /** No multiple of `step` is closer to `value` than `clamp_to_step(value, step)`. */
  lemma ClampToStepNearest(value: real, step: real, m: int)
    requires step > 0.0
    ensures Abs(ClampToStep(value, step) - value) <= Abs(m as real * step - value)
  {
    var q := value / step;
    var n := RoundHalfEven(q);
    assert ClampToStep(value, step) == n as real * step;
    RoundHalfEvenNearest(q, m);
    CloserIntMultiple(n, m, q, step, value);
  }

  lemma CloserIntMultiple(n: int, m: int, q: real, step: real, value: real)
    requires step > 0.0 && q == value / step
    requires Abs(n as real - q) <= Abs(m as real - q)
    ensures Abs(n as real * step - value) <= Abs(m as real * step - value)
  {
    CloserMultiple(n as real, m as real, q, step, value);
  }

  /** A multiplier closer to `value/step` gives a multiple of `step` closer to `value`. */
  lemma CloserMultiple(x: real, y: real, q: real, step: real, value: real)
    requires step > 0.0 && q == value / step
    requires Abs(x - q) <= Abs(y - q)
    ensures Abs(x * step - value) <= Abs(y * step - value)
  {
    ScaledDistance(x, q, step, value);
    ScaledDistance(y, q, step, value);
    ScaleLeAbs(x - q, y - q, step);
  }

  /** `|k*step - value| == |k - value/step| * step`. */
  lemma ScaledDistance(k: real, q: real, step: real, value: real)
    requires step > 0.0 && q == value / step
    ensures Abs(k * step - value) == Abs(k - q) * step
  {
    assert q * step == value;
    assert (k - q) * step == k * step - q * step;
    ScaleAbs(k - q, step);
  }

  lemma ScaleLeAbs(x: real, y: real, s: real)
    requires Abs(x) <= Abs(y) && s > 0.0
    ensures Abs(x) * s <= Abs(y) * s
  {
    ScaleLe(Abs(x), Abs(y), s);
  }

  lemma ScaleAbs(x: real, s: real)
    requires s > 0.0
    ensures Abs(x * s) == Abs(x) * s
  {
    if x < 0.0 {
      ProductPositive(-x, s);
      assert (-x) * s == -(x * s);
    } else if x > 0.0 {
      ProductPositive(x, s);
    }
  }

  lemma ScaleLt(a: real, b: real, s: real)
    requires a < b && s > 0.0
    ensures a * s < b * s
  {
    ProductPositive(b - a, s);
    assert (b - a) * s == b * s - a * s;
  }

  lemma ScaleLe(a: real, b: real, s: real)
    requires a <= b && s > 0.0
    ensures a * s <= b * s
  {
    if a < b { ScaleLt(a, b, s); }
  }

  /** Clamping an already clamped value changes nothing. */
  lemma ClampToStepIdempotent(value: real, step: real)
    ensures ClampToStep(ClampToStep(value, step), step) == ClampToStep(value, step)
  {
    if step > 0.0 {
      var n := RoundHalfEven(value / step);
      var c := ClampToStep(value, step);
      assert c == n as real * step;
      DivideMultiple(n, step);
      assert c / step == n as real;
      RoundHalfEvenOfInteger(n);
      assert RoundHalfEven(c / step) == n;
    }
  }

  /** Clamping a value already on the grid returns it. */
  lemma ClampOnGrid(x: real, step: real)
    requires step > 0.0 && OnGrid(x, step)
    ensures ClampToStep(x, step) == x
  {
    var n: int :| x == n as real * step;
    DivideMultiple(n, step);
    RoundHalfEvenOfInteger(n);
    assert RoundHalfEven(x / step) == n;
  }

  /** Moving a grid point by whole steps stays on the grid. */
  lemma ShiftOnGrid(x: real, k: int, step: real)
    requires step > 0.0 && OnGrid(x, step)
    ensures OnGrid(x + k as real * step, step)
  {
    var n: int :| x == n as real * step;
    var m := n + k;
    var y := x + k as real * step;
    assert y == m as real * step;
    MultipleOnGrid(m, step);
    assert OnGrid(y, step);
  }

  /**
   * `round_price`: the nearest multiple of the tick, or the price itself when
   * the tick is not positive. The source re-reads the product through ten
   * decimal places to shed binary float noise; on exact reals that step is
   * the identity.
   */
  function RoundPrice(price: real, tickSize: real): (r: real)
    ensures tickSize <= 0.0 ==> r == price
    ensures tickSize > 0.0 ==> OnGrid(r, tickSize) && Abs(r - price) <= tickSize / 2.0
  {
    ClampToStep(price, tickSize)
  }

  /** `round_price(round_price(p, t), t) == round_price(p, t)`. */
  lemma RoundPriceIdempotent(price: real, tickSize: real)
    ensures RoundPrice(RoundPrice(price, tickSize), tickSize) == RoundPrice(price, tickSize)
  {
    ClampToStepIdempotent(price, tickSize);
  }

  /**
   * `round_qty`: `int(qty / step) * step`, which never rounds a non-negative
   * quantity up; `qty` itself when `step <= 0`.
   */
  function RoundQty(qty: real, step: real): (r: real)
    ensures step <= 0.0 ==> r == qty
    ensures step > 0.0 ==> OnGrid(r, step)
    ensures step > 0.0 && qty >= 0.0 ==> 0.0 <= r <= qty && qty - r < step
    ensures step > 0.0 && qty < 0.0 ==> qty <= r <= 0.0 && r - qty < step
  {
    if step <= 0.0 then qty
    else
      var n := Trunc(qty / step);
      MultipleOnGrid(n, step);
      TruncScaled(qty, step, n);
      n as real * step
  }

  /** Scaling the truncation bounds on `qty / step` by `step`. */
  lemma TruncScaled(qty: real, step: real, n: int)
    requires step > 0.0 && n == Trunc(qty / step)
    ensures qty >= 0.0 ==> 0.0 <= n as real * step <= qty && qty - n as real * step < step
    ensures qty < 0.0 ==> qty <= n as real * step <= 0.0 && n as real * step - qty < step
  {
    var q := qty / step;
    var k := n as real;
    assert q * step == qty;
    if q >= 0.0 {
      BelowNext(k, q, step, qty);
    } else {
      AboveLast(k, q, step, qty);
    }
  }

  lemma BelowNext(k: real, q: real, s: real, x: real)
    requires 0.0 <= k <= q < k + 1.0 && s > 0.0 && x == q * s
    ensures 0.0 <= x && 0.0 <= k * s <= x && x - k * s < s
  {
    ProductNonNegative(k, s);
    ScaleLe(k, q, s);
    ProductPositive(k + 1.0 - q, s);
    assert (k + 1.0 - q) * s == k * s + s - q * s;
    assert 0.0 <= k * s;
    assert k * s <= x;
    assert 0.0 <= x;
    assert x - k * s < s;
  }

  lemma AboveLast(k: real, q: real, s: real, x: real)
    requires k - 1.0 < q <= k <= 0.0 && q < 0.0 && s > 0.0 && x == q * s
    ensures x < 0.0
    ensures x <= k * s <= 0.0
    ensures k * s - x < s
  {
    ProductPositive(-q, s);
    assert (-q) * s == -(q * s);
    ScaleLe(q, k, s);
    ProductNonNegative(-k, s);
    assert (-k) * s == -(k * s);
    ProductPositive(q - k + 1.0, s);
    assert (q - k + 1.0) * s == q * s - k * s + s;
    var r := k * s;
    assert x - r + s > 0.0;
    assert r - x < s;
  }

  lemma ProductNonNegative(d: real, s: real)
    requires d >= 0.0 && s > 0.0
    ensures d * s >= 0.0
  {
    if d > 0.0 { ProductPositive(d, s); }
  }

  /** The namespace every order id the bot generates starts with. */
  const OrderIdPrefix: string := "HAIDER-"

  /**
   * `gen_client_order_id` with the clock reading `isoTs` passed in:
   * `HAIDER-{ENV}-{TS}-{TYPE}-{SIDE}-{SEQ}`, the three names upper-cased and
   * the sequence number zero-padded to two digits.
   */
  function ClientOrderId(env: string, typ: string, side: string, seqNo: nat, isoTs: string): (id: string)
    ensures StartsWith(id, OrderIdPrefix)
    ensures id == OrderIdPrefix + Upper(env) + "-" + isoTs + "-" + Upper(typ) + "-" + Upper(side) + "-" + Pad2(seqNo)
    ensures EndsWith(id, "-" + Pad2(seqNo))
  {
    var rest := Upper(env) + "-" + isoTs + "-" + Upper(typ) + "-" + Upper(side);
    var head := OrderIdPrefix + rest;
    AffixesOfConcat(OrderIdPrefix, rest + "-" + Pad2(seqNo));
    AffixesOfConcat(head, "-" + Pad2(seqNo));
    head + ("-" + Pad2(seqNo))
  }

  /** Within one clock reading, ids with different sequence numbers differ. */
  lemma ClientOrderIdsDistinct(env: string, typ: string, side: string, a: nat, b: nat, isoTs: string)
    requires a != b
    ensures ClientOrderId(env, typ, side, a, isoTs) != ClientOrderId(env, typ, side, b, isoTs)
  {
    var head := OrderIdPrefix + Upper(env) + "-" + isoTs + "-" + Upper(typ) + "-" + Upper(side) + "-";
    var ia := ClientOrderId(env, typ, side, a, isoTs);
    var ib := ClientOrderId(env, typ, side, b, isoTs);
    assert ia == head + Pad2(a) && ib == head + Pad2(b);
    assert ia[|head|..] == Pad2(a) && ib[|head|..] == Pad2(b);
    if Pad2(a) == Pad2(b) {
      Pad2Injective(a, b);
    }
  }
}
