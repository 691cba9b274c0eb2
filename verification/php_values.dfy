/** Loosely-typed PHP values as the gateway sees them after `json_decode($s, true)`,
    together with the handful of PHP primitives the gateway applies to them:
    `empty()`, `isset()`, `??`, string interpolation, `stripslashes` and `trim`.
    Floats are not represented. */
module PhpValues {

  datatype Option<+T> = None | Some(value: T)

  /** An array key. PHP normalises numeric string keys to integers, so a decoded
      JSON object's key "0" and a list's first index are both `IntKey(0)`. */
  datatype Key = IntKey(i: int) | StrKey(s: string)

  /** A PHP value. `Arr` is an ordered array; the model assumes its keys are
      distinct, as they are in every array `json_decode` produces. */
  datatype Value =
    | Null
    | Bool(b: bool)
    | Int(i: int)
    | Str(s: string)
    | Arr(entries: seq<(Key, Value)>)

  /** `empty($s)` for a string: only "" and "0" are empty. */
  predicate EmptyString(s: string) {
    s == "" || s == "0"
  }

  /** PHP's `empty()` (equivalently, `!$v`). */
  predicate Empty(v: Value) {
    match v
    case Null => true
    case Bool(b) => !b
    case Int(i) => i == 0
    case Str(s) => EmptyString(s)
    case Arr(es) => |es| == 0
  }

  /** Position of the first entry of `es` with key `k`. */
  function KeyIndex(es: seq<(Key, Value)>, k: Key): (r: Option<nat>)
    ensures r.Some? ==> r.value < |es| && es[r.value].0 == k
    ensures r.Some? ==> forall j :: 0 <= j < r.value ==> es[j].0 != k
    ensures r.None? ==> forall j :: 0 <= j < |es| ==> es[j].0 != k
  {
    if |es| == 0 then None
    else if es[0].0 == k then Some(0)
    else match KeyIndex(es[1..], k)
      case None => None
      case Some(j) => Some(j + 1)
  }

  /** `$v[k]` read without a warning: `None` when `v` is not an array or has no
      entry `k`. Offsets into strings are never taken by the gateway with a
      string key, and `isset("abc"['x'])` is false, so non-arrays yield `None`. */
  function Get(v: Value, k: Key): (r: Option<Value>)
    ensures r.Some? <==> v.Arr? && exists j :: 0 <= j < |v.entries| && v.entries[j].0 == k
    ensures r.Some? ==> exists j :: 0 <= j < |v.entries| && v.entries[j] == (k, r.value)
  {
    match v
    case Arr(es) =>
      (match KeyIndex(es, k)
       case None => None
       case Some(j) => Some(es[j].1))
    case _ => None
  }

  /** `isset($v[k])`: the entry exists and is not null. */
  predicate Isset(v: Value, k: Key) {
    var e := Get(v, k);
    e.Some? && e.value != Null
  }

  /** `$v[k] ?? d`. */
  function Coalesce(v: Value, k: Key, d: Value): (r: Value)
    ensures Isset(v, k) ==> r == Get(v, k).value && r != Null
    ensures !Isset(v, k) ==> r == d
  {
    if Isset(v, k) then Get(v, k).value else d
  }

  /** `$v[name] ?? d` for a string key. */
  function Field(v: Value, name: string, d: Value): Value {
    Coalesce(v, StrKey(name), d)
  }

  /** An associative array built from string-keyed pairs, in order. */
  function Assoc(pairs: seq<(string, Value)>): (r: Value)
    ensures r.Arr? && |r.entries| == |pairs|
    ensures forall j :: 0 <= j < |pairs| ==> r.entries[j] == (StrKey(pairs[j].0), pairs[j].1)
  {
    Arr(seq(|pairs|, j requires 0 <= j < |pairs| => (StrKey(pairs[j].0), pairs[j].1)))
  }

  /** Reading a name back from an array built by `Assoc`: the value of the
      first pair with that name. */
  lemma AssocGet(pairs: seq<(string, Value)>, j: nat, name: string)
    requires j < |pairs| && pairs[j].0 == name
    requires forall m :: 0 <= m < j ==> pairs[m].0 != name
    ensures Get(Assoc(pairs), StrKey(name)) == Some(pairs[j].1)
  {
    var es := Assoc(pairs).entries;
    assert es[j].0 == StrKey(name);
    assert forall m :: 0 <= m < j ==> es[m].0 != StrKey(name);
    assert KeyIndex(es, StrKey(name)) == Some(j);
  }

  lemma AssocGetPrefix(pairs: seq<(string, Value)>, extra: seq<(string, Value)>, j: nat, name: string)
    requires j < |pairs| && pairs[j].0 == name
    requires forall m :: 0 <= m < j ==> pairs[m].0 != name
    ensures Get(Assoc(pairs + extra), StrKey(name)) == Some(pairs[j].1)
  {
    AssocGet(pairs + extra, j, name);
  }

  /** A name no pair carries is absent from the array. */
  lemma AssocMissing(pairs: seq<(string, Value)>, name: string)
    requires forall m :: 0 <= m < |pairs| ==> pairs[m].0 != name
    ensures Get(Assoc(pairs), StrKey(name)) == None
  {
    var es := Assoc(pairs).entries;
    assert forall m :: 0 <= m < |es| ==> es[m].0 != StrKey(name);
  }

  /** A list (keys 0, 1, ...) of the given values. */
  function List(vs: seq<Value>): (r: Value)
    ensures r.Arr? && |r.entries| == |vs|
    ensures forall j :: 0 <= j < |vs| ==> r.entries[j] == (IntKey(j), vs[j])
  {
    Arr(seq(|vs|, j requires 0 <= j < |vs| => (IntKey(j), vs[j])))
  }

  function DigitChar(d: nat): char
    requires d < 10
  {
    "0123456789"[d]
  }

  /** Decimal rendering of a natural number, as PHP prints an int. */
  function NatToString(n: nat): (r: string)
    ensures |r| >= 1
    ensures forall j :: 0 <= j < |r| ==> '0' <= r[j] <= '9'
    decreases n
  {
    if n < 10 then [DigitChar(n)] else NatToString(n / 10) + [DigitChar(n % 10)]
  }

  /** Value of a string of decimal digits; the inverse of `NatToString`. */
  function DigitsValue(s: string): nat
    requires forall j :: 0 <= j < |s| ==> '0' <= s[j] <= '9'
  {
    if |s| == 0 then 0 else DigitsValue(s[..|s| - 1]) * 10 + (s[|s| - 1] as int - '0' as int)
  }

  lemma {:induction false} NatToStringRoundTrip(n: nat)
    ensures DigitsValue(NatToString(n)) == n
    decreases n
  {
    var r := NatToString(n);
    if n < 10 {
      assert r[..|r| - 1] == "";
    } else {
      NatToStringRoundTrip(n / 10);
      assert r[..|r| - 1] == NatToString(n / 10);
    }
  }

  /** Decimal rendering of an int, with a leading '-' for negatives. */
  function IntToString(i: int): string {
    if i < 0 then "-" + NatToString(-i) else NatToString(i)
  }

  /** The string PHP interpolates for a value in `"...{$v}..."`. */
  function Interpolate(v: Value): string {
    match v
    case Null => ""
    case Bool(b) => if b then "1" else ""
    case Int(i) => IntToString(i)
    case Str(s) => s
    case Arr(_) => "Array"
  }

  /** PHP's `stripslashes` (what WordPress's `wp_unslash` applies to a string):
      a backslash is dropped and the character after it kept, except that
      `\0` becomes a NUL character and a trailing lone backslash vanishes. */
  function StripSlashes(s: string): (r: string)
    ensures |r| <= |s|
    decreases |s|
  {
    if |s| == 0 then ""
    else if s[0] != '\\' then [s[0]] + StripSlashes(s[1..])
    else if |s| == 1 then ""
    else (if s[1] == '0' then ['\0'] else [s[1]]) + StripSlashes(s[2..])
  }

  lemma {:induction false} StripSlashesKeepsPlainText(s: string)
    requires forall j :: 0 <= j < |s| ==> s[j] != '\\'
    ensures StripSlashes(s) == s
    decreases |s|
  {
    if |s| > 0 {
      StripSlashesKeepsPlainText(s[1..]);
      assert s == [s[0]] + s[1..];
    }
  }

  /** The characters PHP's `trim()` removes by default. */
  predicate TrimmedChar(c: char) {
    c == ' ' || c == '\t' || c == '\n' || c == '\r' || c == '\0' || c == '\U{0B}'
  }

  function TrimLeft(s: string): (r: string)
    ensures |r| <= |s| && r == s[|s| - |r|..]
    ensures |r| > 0 ==> !TrimmedChar(r[0])
    ensures forall j :: 0 <= j < |s| - |r| ==> TrimmedChar(s[j])
  {
    if |s| > 0 && TrimmedChar(s[0]) then TrimLeft(s[1..]) else s
  }

  function TrimRight(s: string): (r: string)
    ensures |r| <= |s| && r == s[..|r|]
    ensures |r| > 0 ==> !TrimmedChar(r[|r| - 1])
    ensures forall j :: |r| <= j < |s| ==> TrimmedChar(s[j])
  {
    if |s| > 0 && TrimmedChar(s[|s| - 1]) then TrimRight(s[..|s| - 1]) else s
  }

  /** PHP's `trim()`. */
  function Trim(s: string): string {
    TrimRight(TrimLeft(s))
  }
}
