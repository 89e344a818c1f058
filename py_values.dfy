/**
  The Python values the search server handles: what `json.loads` returns for a
  workflow graph, and what the database driver returns for a column.  Also the
  few built-ins the server applies to them: insertion-ordered dict lookup and
  assignment, truth value, `str()`, `str.lower()`, `in` on strings,
  `str.join` and `str()` of an integer.
*/
module PyValues {
  import opened Wrappers

  /**
    A Python value.  `Float` carries the text `str()` gives for the float;
    `Rendered` is a driver value of some other type (a timestamp, a UUID),
    carried by its `str()` text, and is always true in a boolean context.
    A `Dict` lists its entries in insertion order.  A Python dict has
    distinct keys; the type does not enforce this, but every dict the model
    builds comes from `Store`, which never adds a second entry for a key, and
    `Lookup` reads the first entry of a key in any case.
  */
  datatype Value =
    | Null
    | Bool(b: bool)
    | Int(i: int)
    | Float(repr: string)
    | Str(s: string)
    | List(items: seq<Value>)
    | Dict(entries: seq<(string, Value)>)
    | Rendered(text: string)

  // ---------------------------------------------------------------------------
  // Insertion-ordered dicts
  // ---------------------------------------------------------------------------

  /** The keys of a dict, in insertion order. */
  function Keys<V>(d: seq<(string, V)>): (ks: seq<string>)
    ensures |ks| == |d|
  {
    if d == [] then [] else [d[0].0] + Keys(d[1..])
  }

  /** `d.get(k)`: the value stored under `k`, if any. */
  function Lookup<V>(d: seq<(string, V)>, k: string): (r: Option<V>)
    ensures r.Some? <==> k in Keys(d)
    ensures r.Some? ==> (k, r.value) in d
  {
    if d == [] then None
    else if d[0].0 == k then Some(d[0].1)
    else Lookup(d[1..], k)
  }

  /** `d[k] = v`: overwrite the value of an existing key in place, or append a new key. */
  function Store<V>(d: seq<(string, V)>, k: string, v: V): (r: seq<(string, V)>)
    ensures Lookup(r, k) == Some(v)
    ensures forall k' :: k' != k ==> Lookup(r, k') == Lookup(d, k')
    ensures Keys(r) == if k in Keys(d) then Keys(d) else Keys(d) + [k]
  {
    if d == [] then [(k, v)]
    else if d[0].0 == k then
      var r := [(k, v)] + d[1..];
      assert r[1..] == d[1..];
      assert Keys(r) == [k] + Keys(d[1..]) == Keys(d);
      r
    else
      var rest := Store(d[1..], k, v);
      var r := [d[0]] + rest;
      assert r[1..] == rest;
      assert Keys(r) == [d[0].0] + Keys(rest);
      assert Keys(d) == [d[0].0] + Keys(d[1..]);
      r
  }

  /** The keys of a dict with one more pair end with that pair's key. */
  lemma {:induction false} KeysSnoc<V>(d: seq<(string, V)>, k: string, v: V)
    ensures Keys(d + [(k, v)]) == Keys(d) + [k]
  {
    if d != [] {
      assert (d + [(k, v)])[1..] == d[1..] + [(k, v)];
      KeysSnoc(d[1..], k, v);
    }
  }

  /** Assigning a key the dict does not hold appends it at the end. */
  lemma {:induction false} StoreNewKey<V>(d: seq<(string, V)>, k: string, v: V)
    requires k !in Keys(d)
    ensures Store(d, k, v) == d + [(k, v)]
  {
    if d != [] {
      assert Keys(d) == [d[0].0] + Keys(d[1..]);
      assert d[0].0 != k;
      assert Store(d, k, v) == [d[0]] + Store(d[1..], k, v);
      StoreNewKey(d[1..], k, v);
      assert [d[0]] + (d[1..] + [(k, v)]) == d + [(k, v)];
    }
  }

  /** Two assignments of distinct keys to an empty dict keep their order. */
  lemma StoreTwoNewKeys<V>(k1: string, v1: V, k2: string, v2: V)
    requires k1 != k2
    ensures Store(Store([], k1, v1), k2, v2) == [(k1, v1), (k2, v2)]
    ensures Keys([(k1, v1), (k2, v2)]) == [k1, k2]
  {
    var d0: seq<(string, V)> := [];
    var d1 := d0 + [(k1, v1)];
    StoreNewKey(d0, k1, v1);
    KeysSnoc(d0, k1, v1);
    StoreNewKey(d1, k2, v2);
    KeysSnoc(d1, k2, v2);
  }

  /** Three assignments of distinct keys to an empty dict keep their order. */
  lemma StoreThreeNewKeys<V>(k1: string, v1: V, k2: string, v2: V, k3: string, v3: V)
    requires k1 != k2 && k1 != k3 && k2 != k3
    ensures Store(Store(Store([], k1, v1), k2, v2), k3, v3) == [(k1, v1), (k2, v2), (k3, v3)]
  {
    var d2 := [(k1, v1), (k2, v2)];
    StoreTwoNewKeys(k1, v1, k2, v2);
    StoreNewKey(d2, k3, v3);
  }

  /** `v.get(key, default)` on a dict; any other value has no `.get`. */
  function Get(v: Value, key: string, default: Value): Value
    requires v.Dict?
  {
    Lookup(v.entries, key).GetOr(default)
  }

  // ---------------------------------------------------------------------------
  // Truth value and str()
  // ---------------------------------------------------------------------------

  /** Python's truth value of `v` (`if v:`, `v or ...`). */
  predicate Truthy(v: Value)
  {
    match v
    case Null => false
    case Bool(b) => b
    case Int(i) => i != 0
    case Float(r) => r != "0.0" && r != "-0.0"
    case Str(s) => s != ""
    case List(items) => items != []
    case Dict(entries) => entries != []
    case Rendered(_) => true
  }

  /** `str(n)` of a natural number: its decimal digits. */
  function NatToDecimal(n: nat): (r: string)
    ensures |r| > 0 && IsDigits(r)
    ensures |r| > 1 ==> r[0] != '0'
  {
    if n < 10 then ["0123456789"[n]]
    else NatToDecimal(n / 10) + ["0123456789"[n % 10]]
  }

  predicate IsDigits(s: string)
  {
    forall i :: 0 <= i < |s| ==> '0' <= s[i] <= '9'
  }

  /** The number a string of decimal digits denotes (`int(s)` for such strings). */
  function DecimalValue(s: string): nat
    requires IsDigits(s)
  {
    if s == [] then 0
    else DecimalValue(s[..|s| - 1]) * 10 + (s[|s| - 1] as int - '0' as int)
  }

  /** Reading back the decimal text of `n` gives `n`. */
  lemma {:induction false} DecimalRoundTrip(n: nat)
    ensures DecimalValue(NatToDecimal(n)) == n
  {
    if n >= 10 {
      DecimalRoundTrip(n / 10);
      var r := NatToDecimal(n);
      assert r[..|r| - 1] == NatToDecimal(n / 10);
    }
  }

  /** `str(i)` of an int: a minus sign for negative numbers, then the digits. */
  function IntToDecimal(i: int): string
  {
    if i < 0 then "-" + NatToDecimal(-i) else NatToDecimal(i)
  }

  /**
    The text of an int is a minus sign exactly for negative numbers,
    followed by digits that read back as the magnitude.
  */
  lemma IntToDecimalReadsBack(i: int)
    ensures var r := IntToDecimal(i);
      && |r| > 0
      && (r[0] == '-' <==> i < 0)
      && (i >= 0 ==> IsDigits(r) && DecimalValue(r) == i)
      && (i < 0 ==> IsDigits(r[1..]) && DecimalValue(r[1..]) == -i)
  {
    var n: nat := if i < 0 then -i else i;
    DecimalRoundTrip(n);
    SignedDigits(i, NatToDecimal(n));
  }

  /** A sign in front of digits that read back as `|i|`, for negative `i` only. */
  lemma SignedDigits(i: int, digits: string)
    requires |digits| > 0 && IsDigits(digits)
    requires DecimalValue(digits) == if i < 0 then -i else i
    ensures var r := if i < 0 then "-" + digits else digits;
      && |r| > 0
      && (r[0] == '-' <==> i < 0)
      && (i >= 0 ==> IsDigits(r) && DecimalValue(r) == i)
      && (i < 0 ==> IsDigits(r[1..]) && DecimalValue(r[1..]) == -i)
  {
    assert '0' <= digits[0] <= '9';
    if i < 0 {
      assert ("-" + digits)[1..] == digits;
    }
  }

  /** `str(v)` for a value that is neither a list nor a dict. */
  function ScalarStr(v: Value): string
    requires !v.List? && !v.Dict?
  {
    match v
    case Null => "None"
    case Bool(b) => if b then "True" else "False"
    case Int(i) => IntToDecimal(i)
    case Float(r) => r
    case Str(s) => s
    case Rendered(t) => t
  }

  /** `repr(v)`: strings are quoted, containers list their elements' reprs. */
  function Repr(v: Value): string
  {
    match v
    case Str(s) => "'" + s + "'"
    case List(items) =>
      "[" + Join(", ", seq(|items|, i requires 0 <= i < |items| => Repr(items[i]))) + "]"
    case Dict(entries) =>
      "{" + Join(", ", seq(|entries|, i requires 0 <= i < |entries| =>
                                  "'" + entries[i].0 + "': " + Repr(entries[i].1))) + "}"
    case _ => ScalarStr(v)
  }

  /** `str(v)`: a string is its own text, a container is its repr. */
  function PyStr(v: Value): string
  {
    if v.List? || v.Dict? then Repr(v) else ScalarStr(v)
  }

  // ---------------------------------------------------------------------------
  // String operations
  // ---------------------------------------------------------------------------

  /** `sep.join(parts)`. */
  function Join(sep: string, parts: seq<string>): string
  {
    if parts == [] then ""
    else if |parts| == 1 then parts[0]
    else Join(sep, parts[..|parts| - 1]) + sep + parts[|parts| - 1]
  }

  function LowerChar(c: char): char
  {
    if 'A' <= c <= 'Z' then (c as int - 'A' as int + 'a' as int) as char else c
  }

  /** `s.lower()`, restricted to ASCII letters. */
  function Lower(s: string): (r: string)
    ensures |r| == |s|
    ensures forall i :: 0 <= i < |r| ==> !('A' <= r[i] <= 'Z')
  {
    seq(|s|, i requires 0 <= i < |s| => LowerChar(s[i]))
  }

  predicate IsPrefix(p: string, s: string)
  {
    |p| <= |s| && s[..|p|] == p
  }

  /** `needle in hay` for Python strings. */
  predicate Contains(needle: string, hay: string)
    decreases |hay|
  {
    IsPrefix(needle, hay) || (|hay| > 0 && Contains(needle, hay[1..]))
  }

  /** `needle` occurs in `hay` starting at index `i`. */
  predicate OccursAt(needle: string, hay: string, i: int)
  {
    0 <= i <= |hay| - |needle| && hay[i..i + |needle|] == needle
  }

  /** `Contains` holds exactly when `needle` occurs at some position of `hay`. */
  lemma {:induction false} ContainsAt(needle: string, hay: string)
    ensures Contains(needle, hay) <==> exists i :: OccursAt(needle, hay, i)
    decreases |hay|
  {
    var n := |needle|;
    if IsPrefix(needle, hay) {
      assert OccursAt(needle, hay, 0);
    } else if |hay| > 0 {
      ContainsAt(needle, hay[1..]);
      if Contains(needle, hay[1..]) {
        var j :| OccursAt(needle, hay[1..], j);
        assert hay[1..][j..j + n] == hay[j + 1..j + 1 + n];
        assert OccursAt(needle, hay, j + 1);
      }
      if exists i :: OccursAt(needle, hay, i) {
        var i :| OccursAt(needle, hay, i);
        if i > 0 {
          assert hay[1..][i - 1..i - 1 + n] == hay[i..i + n];
          assert OccursAt(needle, hay[1..], i - 1);
        }
      }
    }
  }

  /** The empty string is in every string, and every string is in itself. */
  lemma ContainsTrivia(s: string)
    ensures Contains("", s)
    ensures Contains(s, s)
  {
    assert s[..0] == "";
    assert s[..|s|] == s;
  }
}
