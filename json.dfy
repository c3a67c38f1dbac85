/**
 * Values as Python's `json.loads` produces them, and the few Python
 * operations the bot applies to them: truthiness, `or`, `dict.get`,
 * item assignment, `float(x)`, `int(x)` and `str(x)`.
 */
module PyJson {
  import opened Wrappers
  import opened Text

  /**
   * A decoded JSON value. `json.loads` gives an `int` for an integer literal
   * and a `float` otherwise, so the two are kept apart. An object keeps its
   * keys in insertion order, as a Python dict does.
   */
  datatype Json =
    | JNull
    | JBool(b: bool)
    | JInt(i: int)
    | JFloat(r: real)
    | JStr(s: string)
    | JArr(items: seq<Json>)
    | JObj(fields: seq<(string, Json)>)

  /** Python truthiness (`bool(x)`). */
  predicate Truthy(j: Json) {
    match j
    case JNull => false
    case JBool(b) => b
    case JInt(i) => i != 0
    case JFloat(r) => r != 0.0
    case JStr(s) => s != ""
    case JArr(items) => items != []
    case JObj(fields) => fields != []
  }

  /** `a or b`. */
  function Or(a: Json, b: Json): (r: Json)
    ensures Truthy(a) ==> r == a
    ensures !Truthy(a) ==> r == b
  {
    if Truthy(a) then a else b
  }

  /** The keys of a list of bindings, in order (dict keys, header names). */
  function Keys<V>(fields: seq<(string, V)>): (ks: seq<string>)
    ensures |ks| == |fields| && forall i :: 0 <= i < |fields| ==> ks[i] == fields[i].0
  {
    seq(|fields|, i requires 0 <= i < |fields| => fields[i].0)
  }

  /** The keys of joined bindings are the joined keys. */
  lemma KeysConcat<V>(a: seq<(string, V)>, b: seq<(string, V)>)
    ensures Keys(a + b) == Keys(a) + Keys(b)
  {
    assert forall i :: 0 <= i < |a| + |b| ==> Keys(a + b)[i] == (Keys(a) + Keys(b))[i];
  }

  /** `d.get(key)`: the value bound to `key` (its last binding, as `json.loads` keeps), if any. */
  function Get(fields: seq<(string, Json)>, key: string): (r: Option<Json>)
    ensures r.Some? <==> key in Keys(fields)
  {
    if |fields| == 0 then None
    else if fields[|fields| - 1].0 == key then Some(fields[|fields| - 1].1)
    else
      var r := Get(fields[..|fields| - 1], key);
      assert Keys(fields) == Keys(fields[..|fields| - 1]) + [fields[|fields| - 1].0];
      r
  }

  /** The binding `Get` finds is the last one for the key. */
  lemma {:induction false} GetAt(fields: seq<(string, Json)>, key: string, i: nat)
    requires i < |fields| && fields[i].0 == key
    requires forall j :: i < j < |fields| ==> fields[j].0 != key
    ensures Get(fields, key) == Some(fields[i].1)
  {
    if i < |fields| - 1 {
      GetAt(fields[..|fields| - 1], key, i);
    }
  }

  /** `d.get(key, default)`. */
  function GetOr(fields: seq<(string, Json)>, key: string, default: Json): Json {
    Get(fields, key).GetOr(default)
  }

  /** `d[key] = v`: an existing key keeps its place, a new key goes last. */
  function Put(fields: seq<(string, Json)>, key: string, v: Json): (r: seq<(string, Json)>)
    ensures Get(r, key) == Some(v)
    ensures forall k :: k != key ==> Get(r, k) == Get(fields, k)
    ensures key in Keys(fields) ==> Keys(r) == Keys(fields)
    ensures key !in Keys(fields) ==> Keys(r) == Keys(fields) + [key]
  {
    if key in Keys(fields) then PutExisting(fields, key, v)
    else
      var r := fields + [(key, v)];
      assert r[..|r| - 1] == fields;
      assert Keys(r) == Keys(fields) + [key];
      r
  }

  /** Rebinds every occurrence of `key` in place (only used by `Put`). */
  function PutExisting(fields: seq<(string, Json)>, key: string, v: Json): (r: seq<(string, Json)>)
    ensures Keys(r) == Keys(fields)
    ensures key in Keys(fields) ==> Get(r, key) == Some(v)
    ensures forall k :: k != key ==> Get(r, k) == Get(fields, k)
  {
    if |fields| == 0 then []
    else
      var init := fields[..|fields| - 1];
      var last := fields[|fields| - 1];
      var p := PutExisting(init, key, v);
      var r := p + [if last.0 == key then (key, v) else last];
      assert r[..|r| - 1] == p;
      assert Keys(fields) == Keys(init) + [last.0];
      assert Keys(r) == Keys(p) + [last.0];
      r
  }

  /** `float(x)`, or `None` where Python raises (`None`, lists, dicts, unreadable text). */
  function PyFloat(j: Json): (r: Option<real>)
    ensures j.JInt? ==> r == Some(j.i as real)
    ensures j.JFloat? ==> r == Some(j.r)
    ensures (j.JNull? || j.JArr? || j.JObj?) ==> r == None
  {
    match j
    case JBool(b) => Some(if b then 1.0 else 0.0)
    case JInt(i) => Some(i as real)
    case JFloat(r) => Some(r)
    case JStr(s) => ParseFloatText(s)
    case _ => None
  }

  /** `int(x)`: truncation toward zero. */
  function Trunc(x: real): (n: int)
    ensures x >= 0.0 ==> 0 <= n && n as real <= x < n as real + 1.0
    ensures x < 0.0 ==> n <= 0 && n as real - 1.0 < x <= n as real
  {
    if x >= 0.0 then x.Floor else -((-x).Floor)
  }

  /** `int(x)`, or `None` where Python raises. */
  function PyInt(j: Json): (r: Option<int>)
    ensures j.JInt? ==> r == Some(j.i)
    ensures (j.JNull? || j.JArr? || j.JObj?) ==> r == None
  {
    match j
    case JBool(b) => Some(if b then 1 else 0)
    case JInt(i) => Some(i)
    case JFloat(r) => Some(Trunc(r))
    case JStr(s) => ParseIntText(s)
    case _ => None
  }

  /**
   * `str(x)` for the values whose text the model renders: `None`, booleans,
   * ints and strings. Floats, lists and dicts are not rendered (`None`).
   */
  function PyStr(j: Json): (r: Option<string>)
    ensures j.JStr? ==> r == Some(j.s)
    ensures j.JInt? ==> r == Some(IntToString(j.i))
  {
    match j
    case JNull => Some("None")
    case JBool(b) => Some(if b then "True" else "False")
    case JInt(i) => Some(IntToString(i))
    case JStr(s) => Some(s)
    case _ => None
  }

  /** `isinstance(x, dict)` together with the dict's bindings. */
  predicate IsDict(j: Json) { j.JObj? }

  /** `isinstance(x, list)`. */
  predicate IsList(j: Json) { j.JArr? }
}
