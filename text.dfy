/**
 * The string operations of Python that the bot relies on, over `seq<char>`:
 * decimal rendering and parsing of numbers (`str(int)`, `int(str)`,
 * `float(str)`), `strip`, `lower`, `upper`, `startswith`, `split(sep, 1)`,
 * `join`, and the `{n:02d}` zero padding.
 */
module Text {
  import opened Wrappers

  // ---------------------------------------------------------------- digits

  predicate IsDigit(c: char) { '0' <= c <= '9' }

  predicate AllDigits(s: string) {
    forall i :: 0 <= i < |s| ==> IsDigit(s[i])
  }

  function DigitValue(c: char): (d: nat)
    requires IsDigit(c)
    ensures d < 10
  {
    c as int - '0' as int
  }

  function DigitChar(d: nat): (c: char)
    requires d < 10
    ensures IsDigit(c) && DigitValue(c) == d
  {
    ('0' as int + d) as char
  }

  /** The number a string of decimal digits denotes, most significant digit first. */
  function DigitsValue(s: string): nat
    requires AllDigits(s)
  {
    if |s| == 0 then 0 else 10 * DigitsValue(s[..|s| - 1]) + DigitValue(s[|s| - 1])
  }

  /** Leading zeros do not change the value of a digit string. */
  lemma {:induction false} DigitsValueLeadingZero(s: string)
    requires AllDigits(s)
    ensures AllDigits("0" + s) && DigitsValue("0" + s) == DigitsValue(s)
  {
    if |s| > 0 {
      var t := "0" + s;
      assert t[..|t| - 1] == "0" + s[..|s| - 1];
      DigitsValueLeadingZero(s[..|s| - 1]);
    }
  }

  /** The decimal digits of `n` as Python's `str` writes them: no leading zero, "0" for zero. */
  function NatDigits(n: nat): (s: string)
    ensures |s| >= 1 && AllDigits(s)
    ensures DigitsValue(s) == n
    ensures |s| > 1 ==> s[0] != '0'
  {
    if n < 10 then [DigitChar(n)]
    else
      var p := NatDigits(n / 10);
      var s := p + [DigitChar(n % 10)];
      assert s[..|s| - 1] == p;
      s
  }

  /** `str(i)` for a Python int. */
  function IntToString(i: int): (s: string)
    ensures |s| >= 1
    ensures i >= 0 ==> AllDigits(s) && DigitsValue(s) == i
    ensures i < 0 ==> s[0] == '-' && AllDigits(s[1..]) && DigitsValue(s[1..]) == -i
  {
    if i < 0 then "-" + NatDigits(-i) else NatDigits(i)
  }

  /**
   * `f"{n:02d}"` for a non-negative `n`: the decimal digits, padded on the
   * left with zeros to at least two characters.
   */
  function Pad2(n: nat): (s: string)
    ensures |s| >= 2 && AllDigits(s) && DigitsValue(s) == n
  {
    var d := NatDigits(n);
    if |d| >= 2 then d else DigitsValueLeadingZero(d); "0" + d
  }

  /** Two padded renderings are equal only for equal numbers. */
  lemma Pad2Injective(a: nat, b: nat)
    requires Pad2(a) == Pad2(b)
    ensures a == b
  {
  }

  // ---------------------------------------------------------------- whitespace and case

  /** `c.isspace()` in Python: ASCII whitespace, the separators 0x1C-0x1F, and the Unicode spaces. */
  predicate IsSpace(c: char) {
    var n := c as int;
    n == 32 || 9 <= n <= 13 || 28 <= n <= 31 || n == 0x85 || n == 0xA0 || n == 0x1680
    || 0x2000 <= n <= 0x200A || n == 0x2028 || n == 0x2029 || n == 0x202F || n == 0x205F || n == 0x3000
  }

  function TrimStart(s: string): (r: string)
    ensures |r| <= |s| && r == s[|s| - |r|..]
    ensures |r| > 0 ==> !IsSpace(r[0])
    ensures forall i :: 0 <= i < |s| - |r| ==> IsSpace(s[i])
  {
    if |s| > 0 && IsSpace(s[0]) then TrimStart(s[1..]) else s
  }

  function TrimEnd(s: string): (r: string)
    ensures |r| <= |s| && r == s[..|r|]
    ensures |r| > 0 ==> !IsSpace(r[|r| - 1])
    ensures forall i :: |r| <= i < |s| ==> IsSpace(s[i])
  {
    if |s| > 0 && IsSpace(s[|s| - 1]) then TrimEnd(s[..|s| - 1]) else s
  }

  /** `s.strip()`: the string without leading and trailing whitespace. */
  function Strip(s: string): (r: string)
    ensures |r| <= |s|
    ensures |r| > 0 ==> !IsSpace(r[0]) && !IsSpace(r[|r| - 1])
    ensures (forall i :: 0 <= i < |s| ==> !IsSpace(s[i])) ==> r == s
  {
    TrimEnd(TrimStart(s))
  }

  /** Cutting `s` down to `s[i..j]` removes only whitespace. */
  predicate CutsOnlySpace(s: string, i: int, j: int) {
    0 <= i <= j <= |s| && (forall k :: 0 <= k < i ==> IsSpace(s[k])) && (forall k :: j <= k < |s| ==> IsSpace(s[k]))
  }

  /** `s.strip()` is a slice of `s`, and only whitespace is cut from either side. */
  lemma StripIsSlice(s: string)
    ensures exists i, j :: CutsOnlySpace(s, i, j) && Strip(s) == s[i..j]
  {
    var i := |s| - |TrimStart(s)|;
    var j := i + |Strip(s)|;
    StripCuts(s);
    assert CutsOnlySpace(s, i, j);
  }

  /** The cut `StripIsSlice` names: what `TrimStart` drops, and what `TrimEnd` then drops. */
  lemma StripCuts(s: string)
    ensures var i := |s| - |TrimStart(s)|;
            var j := i + |Strip(s)|;
            0 <= i <= j <= |s| && Strip(s) == s[i..j]
            && (forall k :: 0 <= k < i ==> IsSpace(s[k])) && (forall k :: j <= k < |s| ==> IsSpace(s[k]))
  {
    var t := TrimStart(s);
    var r := TrimEnd(t);
    var i := |s| - |t|;
    SliceOfSuffix(s, i, |r|);
    forall k | i + |r| <= k < |s|
      ensures IsSpace(s[k])
    {
      assert s[k] == t[k - i];
    }
  }

  lemma SliceOfSuffix(s: string, i: nat, n: nat)
    requires i + n <= |s|
    ensures s[i..][..n] == s[i..i + n]
  {
  }

  function LowerChar(c: char): char {
    if 'A' <= c <= 'Z' then (c as int + 32) as char else c
  }

  function UpperChar(c: char): char {
    if 'a' <= c <= 'z' then (c as int - 32) as char else c
  }

  /** `s.lower()` on ASCII letters. */
  function Lower(s: string): (r: string)
    ensures |r| == |s| && forall i :: 0 <= i < |s| ==> r[i] == LowerChar(s[i])
  {
    seq(|s|, i requires 0 <= i < |s| => LowerChar(s[i]))
  }

  /** `s.upper()` on ASCII letters. */
  function Upper(s: string): (r: string)
    ensures |r| == |s| && forall i :: 0 <= i < |s| ==> r[i] == UpperChar(s[i])
  {
    seq(|s|, i requires 0 <= i < |s| => UpperChar(s[i]))
  }

  predicate HasNoLowerCase(s: string) {
    forall i :: 0 <= i < |s| ==> !('a' <= s[i] <= 'z')
  }

  lemma UpperHasNoLowerCase(s: string)
    ensures HasNoLowerCase(Upper(s))
  {
  }

  // ---------------------------------------------------------------- prefixes and splitting

  /** `s.rstrip(c)`. */
  function RStrip(s: string, c: char): (r: string)
    ensures |r| <= |s| && r == s[..|r|]
    ensures forall i :: |r| <= i < |s| ==> s[i] == c
    ensures |r| == 0 || r[|r| - 1] != c
  {
    if |s| > 0 && s[|s| - 1] == c then RStrip(s[..|s| - 1], c) else s
  }

  /** `s.startswith(p)`. */
  predicate StartsWith(s: string, p: string) {
    |p| <= |s| && s[..|p|] == p
  }

  /** `s.endswith(p)`. */
  predicate EndsWith(s: string, p: string) {
    |p| <= |s| && s[|s| - |p|..] == p
  }

  /** A concatenation starts with its first part and ends with its last. */
  lemma AffixesOfConcat(a: string, b: string)
    ensures StartsWith(a + b, a) && EndsWith(a + b, b)
  {
    assert (a + b)[..|a|] == a;
    assert (a + b)[|a + b| - |b|..] == b;
  }

  /** `p in s` for strings: `p` occurs somewhere in `s`. */
  predicate Contains(s: string, p: string) {
    StartsWith(s, p) || (|s| > 0 && Contains(s[1..], p))
  }

  /** Index of the first `c` in `s`, or `|s|` when there is none. */
  function IndexOf(s: string, c: char): (k: nat)
    ensures k <= |s|
    ensures k < |s| ==> s[k] == c
    ensures forall i :: 0 <= i < k ==> s[i] != c
  {
    if |s| == 0 then 0
    else if s[0] == c then 0
    else 1 + IndexOf(s[1..], c)
  }

  /** `s.split(c, 1)[1]`: the text after the first `c`; Python raises when there is no `c`. */
  function AfterFirst(s: string, c: char): Option<string> {
    var k := IndexOf(s, c);
    if k < |s| then Some(s[k + 1..]) else None
  }

  /** A string that starts with `p` whose only `c` is the last character of `p` splits right after `p`. */
  lemma AfterFirstPrefix(s: string, p: string, c: char)
    requires StartsWith(s, p) && |p| > 0 && p[|p| - 1] == c
    requires forall i :: 0 <= i < |p| - 1 ==> p[i] != c
    ensures AfterFirst(s, c) == Some(s[|p|..])
  {
    assert forall i :: 0 <= i < |p| ==> s[i] == p[i];
    var k := IndexOf(s, c);
    assert k == |p| - 1;
  }

  /** `sep.join(parts)`. */
  function Join(sep: string, parts: seq<string>): string {
    if |parts| == 0 then ""
    else if |parts| == 1 then parts[0]
    else Join(sep, parts[..|parts| - 1]) + sep + parts[|parts| - 1]
  }

  /** `sep.join` seen from the front: the first part, the separator, then the join of the rest. */
  lemma {:induction false} JoinFront(sep: string, a: string, rest: seq<string>)
    requires |rest| >= 1
    ensures Join(sep, [a] + rest) == a + sep + Join(sep, rest)
  {
    if |rest| > 1 {
      var p := [a] + rest;
      assert p[..|p| - 1] == [a] + rest[..|rest| - 1];
      JoinFront(sep, a, rest[..|rest| - 1]);
    }
  }

  /** `s.split(c)`: the pieces between the occurrences of `c`. */
  function Split(s: string, c: char): (parts: seq<string>)
    ensures |parts| >= 1
    decreases |s|
  {
    var k := IndexOf(s, c);
    if k == |s| then [s] else [s[..k]] + Split(s[k + 1..], c)
  }

  lemma IndexOfAfter(a: string, c: char, b: string)
    requires c !in a
    ensures IndexOf(a + [c] + b, c) == |a|
  {
    var s := a + [c] + b;
    assert s[|a|] == c;
    assert forall i :: 0 <= i < |a| ==> s[i] == a[i];
  }

  /** Splitting a join on a separator that no part contains gives the parts back. */
  lemma {:induction false} SplitJoin(parts: seq<string>, c: char)
    requires |parts| >= 1
    requires forall i :: 0 <= i < |parts| ==> c !in parts[i]
    ensures Split(Join([c], parts), c) == parts
  {
    if |parts| > 1 {
      var rest := parts[1..];
      assert parts == [parts[0]] + rest;
      JoinFront([c], parts[0], rest);
      var s := Join([c], parts);
      assert s == parts[0] + [c] + Join([c], rest);
      IndexOfAfter(parts[0], c, Join([c], rest));
      assert s[..|parts[0]|] == parts[0];
      assert s[|parts[0]| + 1..] == Join([c], rest);
      SplitJoin(rest, c);
    }
  }

  // ---------------------------------------------------------------- number parsing

  function Pow10(n: nat): (p: nat)
    ensures p >= 1
  {
    if n == 0 then 1 else 10 * Pow10(n - 1)
  }

  /**
   * An optionally signed string of digits, as `int(s)` reads it once
   * surrounding whitespace is stripped.
   */
  function ParseIntText(s: string): Option<int> {
    var t := Strip(s);
    if |t| > 0 && (t[0] == '-' || t[0] == '+') then
      var d := t[1..];
      if |d| > 0 && AllDigits(d) then
        var v: int := DigitsValue(d);
        Some(if t[0] == '-' then -v else v)
      else None
    else if |t| > 0 && AllDigits(t) then Some(DigitsValue(t))
    else None
  }

  /** What `str` writes for an int has no whitespace, so stripping leaves it alone. */
  lemma IntToStringStripped(i: int)
    ensures Strip(IntToString(i)) == IntToString(i)
  {
    var s := IntToString(i);
    forall k | 0 <= k < |s| ensures !IsSpace(s[k]) {
      if i < 0 && k > 0 {
        assert s[k] == s[1..][k - 1];
      }
    }
  }

  /** `int(str(i)) == i`. */
  lemma IntToStringRoundTrip(i: int)
    ensures ParseIntText(IntToString(i)) == Some(i)
  {
    IntToStringStripped(i);
  }

  /**
   * The value of an unsigned decimal literal `ddd`, `ddd.`, `.ddd` or
   * `ddd.ddd` (at least one digit).
   */
  /** `whole.frac`, where `frac` has `places` digits. */
  function DecimalValue(whole: nat, frac: nat, places: nat): real {
    whole as real + frac as real / Pow10(places) as real
  }

  function ParseUnsignedDecimal(t: string): Option<real> {
    var k := IndexOf(t, '.');
    var whole := t[..k];
    var frac := if k < |t| then t[k + 1..] else "";
    if |whole| + |frac| > 0 && AllDigits(whole) && AllDigits(frac) then
      Some(DecimalValue(DigitsValue(whole), DigitsValue(frac), |frac|))
    else None
  }

  /**
   * `float(s)` for an optionally signed decimal literal with surrounding
   * whitespace. Exponents, `inf`, `nan` and digit separators are not read.
   */
  function ParseFloatText(s: string): (r: Option<real>)
  {
    var t := Strip(s);
    if |t| > 0 && (t[0] == '-' || t[0] == '+') then
      match ParseUnsignedDecimal(t[1..])
      case Some(v) => Some(if t[0] == '-' then -v else v)
      case None => None
    else ParseUnsignedDecimal(t)
  }

  /** A plain digit string reads as the number it denotes. */
  lemma UnsignedDigits(d: string)
    requires |d| > 0 && AllDigits(d)
    ensures ParseUnsignedDecimal(d) == Some(DigitsValue(d) as real)
  {
    NoDotInDigits(d);
    assert d[..|d|] == d;
    assert DigitsValue("") == 0;
    assert ParseUnsignedDecimal(d) == Some(DecimalValue(DigitsValue(d), 0, 0));
    NoFraction(DigitsValue(d));
  }

  lemma NoDotInDigits(d: string)
    requires AllDigits(d)
    ensures IndexOf(d, '.') == |d|
  {
  }

  lemma NoFraction(n: nat)
    ensures DecimalValue(n, 0, 0) == n as real
  {
    assert Pow10(0) == 1;
  }

  /** `float(str(i)) == i` for a Python int rendered by `str`. */
  lemma FloatOfIntText(i: int)
    ensures ParseFloatText(IntToString(i)) == Some(i as real)
  {
    if i < 0 {
      FloatOfNegativeIntText(i);
    } else {
      FloatOfNatText(i);
    }
  }

  lemma FloatOfNegativeIntText(i: int)
    requires i < 0
    ensures ParseFloatText(IntToString(i)) == Some(i as real)
  {
    IntToStringStripped(i);
    UnsignedDigits(IntToString(i)[1..]);
  }

  lemma FloatOfNatText(i: int)
    requires i >= 0
    ensures ParseFloatText(IntToString(i)) == Some(i as real)
  {
    IntToStringStripped(i);
    UnsignedDigits(IntToString(i));
  }
}
