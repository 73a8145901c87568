/**
 * The dynamically typed values the core receives from JSON payloads and
 * settings, with the Python operations the core applies to them:
 * `dict.get`, `d[k] = v`, truthiness, `a or b`, `str(v)`, `int(v)` and
 * `v.strip()`.
 */
module Json {
  import opened Wrappers
  import opened Text

  /** A decoded JSON value (numbers with a fraction are not modelled). */
  datatype Value =
    | Null
    | Bool(b: bool)
    | Int(i: int)
    | Str(s: string)
    | List(items: seq<Value>)
    | Obj(fields: seq<(string, Value)>)

  /** A Python dict with string keys, in insertion order. */
  type Fields = seq<(string, Value)>

  predicate HasKey(d: Fields, key: string)
  {
    exists k :: 0 <= k < |d| && d[k].0 == key
  }

  /** `d.get(key)`, with `None` for a missing key. */
  function Get(d: Fields, key: string): (r: Option<Value>)
    ensures r.Some? <==> HasKey(d, key)
    ensures r.Some? ==> (key, r.value) in d
  {
    if d == [] then None
    else if d[0].0 == key then Some(d[0].1)
    else
      var r := Get(d[1..], key);
      assert HasKey(d, key) ==> HasKey(d[1..], key) by {
        if HasKey(d, key) {
          var k :| 0 <= k < |d| && d[k].0 == key;
          assert d[1..][k - 1].0 == key;
        }
      }
      assert HasKey(d[1..], key) ==> HasKey(d, key) by {
        if HasKey(d[1..], key) {
          var k :| 0 <= k < |d[1..]| && d[1..][k].0 == key;
          assert d[k + 1].0 == key;
        }
      }
      r
  }

  /** The first entry with the key is the one `get` finds. */
  lemma {:induction false} GetAppend(d: Fields, more: Fields, key: string)
    requires Get(d, key).Some?
    ensures Get(d + more, key) == Get(d, key)
  {
    assert (d + more)[0] == d[0];
    if d[0].0 != key {
      assert (d + more)[1..] == d[1..] + more;
      GetAppend(d[1..], more, key);
    }
  }

  /** `d.get(key, default)`. */
  function GetOr(d: Fields, key: string, default: Value): Value
  {
    Get(d, key).GetOr(default)
  }

  /** `d.get(key)` where a missing key reads as `None`. */
  function Lookup(d: Fields, key: string): Value
  {
    GetOr(d, key, Null)
  }

  /** `d[key] = v`: replaces the value in place, or appends a new key at the end. */
  function Put(d: Fields, key: string, v: Value): (r: Fields)
    ensures |r| == |d| || |r| == |d| + 1
  {
    if d == [] then [(key, v)]
    else if d[0].0 == key then [(key, v)] + d[1..]
    else [d[0]] + Put(d[1..], key, v)
  }

  /** After `d[key] = v`, `key` maps to `v` and every other key is unchanged. */
  lemma {:induction false} GetPut(d: Fields, key: string, v: Value, other: string)
    ensures Get(Put(d, key, v), key) == Some(v)
    ensures other != key ==> Get(Put(d, key, v), other) == Get(d, other)
  {
    if d != [] && d[0].0 != key {
      GetPut(d[1..], key, v, other);
      assert Put(d, key, v)[1..] == Put(d[1..], key, v);
    }
  }

  /** The length Python's `xs[:limit]` keeps. */
  function PrefixLength(len: nat, limit: int): (n: nat)
    ensures n <= len
    ensures limit >= 0 ==> n <= limit
    ensures 0 <= limit <= len ==> n == limit
  {
    if limit >= 0 then (if limit < len then limit else len)
    else if len + limit > 0 then len + limit else 0
  }

  /** Python truthiness. */
  predicate Truthy(v: Value)
  {
    match v
    case Null => false
    case Bool(b) => b
    case Int(i) => i != 0
    case Str(s) => s != ""
    case List(items) => items != []
    case Obj(fields) => fields != []
  }

  /** Python `a or b`. */
  function Or(a: Value, b: Value): (r: Value)
    ensures Truthy(r) <==> Truthy(a) || Truthy(b)
  {
    if Truthy(a) then a else b
  }

  /** Python `repr(v)`; strings are quoted with `'` and not escaped. */
  function Repr(v: Value): string
    decreases v, 1, 0
  {
    match v
    case Null => "None"
    case Bool(b) => if b then "True" else "False"
    case Int(i) => IntToString(i)
    case Str(s) => "'" + s + "'"
    case List(items) => "[" + ReprItems(v, 0) + "]"
    case Obj(fields) => "{" + ReprFields(v, 0) + "}"
  }

  function ReprItems(v: Value, i: nat): string
    requires v.List? && i <= |v.items|
    decreases v, 0, |v.items| - i
  {
    if i == |v.items| then ""
    else (if i > 0 then ", " else "") + Repr(v.items[i]) + ReprItems(v, i + 1)
  }

  function ReprFields(v: Value, i: nat): string
    requires v.Obj? && i <= |v.fields|
    decreases v, 0, |v.fields| - i
  {
    if i == |v.fields| then ""
    else
      (if i > 0 then ", " else "") + "'" + v.fields[i].0 + "': " + Repr(v.fields[i].1)
      + ReprFields(v, i + 1)
  }

  /** Python `str(v)`. */
  function PyStr(v: Value): string
  {
    if v.Str? then v.s else Repr(v)
  }

  /** Python `int(v)`; `None` stands for the TypeError or ValueError it raises. */
  function ToInt(v: Value): Option<int>
  {
    match v
    case Null => None
    case Bool(b) => Some(if b then 1 else 0)
    case Int(i) => Some(i)
    case Str(s) => ParseInt(s)
    case List(_) => None
    case Obj(_) => None
  }

  /** Python `v.strip()`; `None` stands for the AttributeError a non-string raises. */
  function StripValue(v: Value): (r: Option<string>)
    ensures r.Some? <==> v.Str?
    ensures r.Some? ==> IsStripped(r.value)
  {
    if v.Str? then Some(Strip(v.s)) else None
  }

  /** Python `(v or "").strip()`: raises only for a truthy non-string. */
  function StripOrEmpty(v: Value): (r: Option<string>)
    ensures r.None? <==> Truthy(v) && !v.Str?
  {
    StripValue(Or(v, Str("")))
  }
}
