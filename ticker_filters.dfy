/**
 * The `to_list` template filter of the security ticker: any value becomes a
 * list of trimmed, non-empty strings. `json.loads` is an input: `loads(s)`
 * is the decoded value, or `None` when decoding raises.
 */
module TickerFilters {
  import opened Wrappers
  import opened Text
  import opened Json

  predicate Clean(xs: seq<string>)
  {
    forall k :: 0 <= k < |xs| ==> xs[k] != "" && IsStripped(xs[k])
  }

  /** `[s.strip() for s in xs if s.strip()]`. */
  function Tidy(xs: seq<string>): (r: seq<string>)
    ensures Clean(r) && |r| <= |xs|
  {
    if xs == [] then []
    else
      var rest := Tidy(xs[1..]);
      var head := Strip(xs[0]);
      if head != "" then [head] + rest else rest
  }

  /** Tidying works element by element: order and duplicates are kept. */
  lemma {:induction false} TidyAppend(xs: seq<string>, ys: seq<string>)
    ensures Tidy(xs + ys) == Tidy(xs) + Tidy(ys)
  {
    if xs != [] {
      assert (xs + ys)[0] == xs[0];
      assert (xs + ys)[1..] == xs[1..] + ys;
      TidyAppend(xs[1..], ys);
    } else {
      assert xs + ys == ys;
    }
  }

  /** An element survives exactly when it strips to a non-empty string, and it appears stripped. */
  lemma {:induction false} TidyMembers(xs: seq<string>, x: string)
    ensures x in Tidy(xs) <==> x != "" && exists k :: 0 <= k < |xs| && Strip(xs[k]) == x
  {
    if xs != [] {
      TidyMembers(xs[1..], x);
      if exists k :: 0 <= k < |xs[1..]| && Strip(xs[1..][k]) == x {
        var k :| 0 <= k < |xs[1..]| && Strip(xs[1..][k]) == x;
        assert Strip(xs[k + 1]) == x;
      }
      if exists k :: 0 <= k < |xs| && Strip(xs[k]) == x {
        var k :| 0 <= k < |xs| && Strip(xs[k]) == x;
        if k > 0 {
          assert Strip(xs[1..][k - 1]) == x;
        }
      }
    }
  }

  /** A list that is already clean comes back unchanged. */
  lemma {:induction false} TidyOfClean(xs: seq<string>)
    requires Clean(xs)
    ensures Tidy(xs) == xs
  {
    if xs != [] {
      StripOfStripped(xs[0]);
      TidyOfClean(xs[1..]);
    }
  }

  /** `[str(x) for x in items]`. */
  function Strs(items: seq<Value>): (r: seq<string>)
    ensures |r| == |items| && forall k :: 0 <= k < |items| ==> r[k] == PyStr(items[k])
  {
    if items == [] then [] else [PyStr(items[0])] + Strs(items[1..])
  }

  /** A list of strings as a JSON list value. */
  function StrValues(xs: seq<string>): (r: seq<Value>)
    ensures |r| == |xs| && forall k :: 0 <= k < |xs| ==> r[k] == Str(xs[k])
  {
    if xs == [] then [] else [Str(xs[0])] + StrValues(xs[1..])
  }

  /** `to_list(value)`. */
  function ToList(value: Value, loads: string -> Option<Value>): (r: seq<string>)
    ensures Clean(r)
    ensures value.Null? ==> r == []
  {
    match value
    case Null => []
    case List(items) => Tidy(Strs(items))
    case Str(s) =>
      var parsed := loads(s);
      if parsed.Some? && parsed.value.List? then Tidy(Strs(parsed.value.items))
      else Tidy(Split(s, ','))
    case _ => Tidy(Split(PyStr(value), ','))
  }

  /** A list of clean strings is returned as it is. */
  lemma ToListOfClean(xs: seq<string>, loads: string -> Option<Value>)
    requires Clean(xs)
    ensures ToList(List(StrValues(xs)), loads) == xs
  {
    assert Strs(StrValues(xs)) == xs;
    TidyOfClean(xs);
  }

  /** `to_list` is idempotent: its output, given back as a list, comes back unchanged. */
  lemma ToListIdempotent(value: Value, loads: string -> Option<Value>)
    ensures ToList(List(StrValues(ToList(value, loads))), loads) == ToList(value, loads)
  {
    ToListOfClean(ToList(value, loads), loads);
  }

  /** `','.join` of pieces without a comma splits back into the same pieces. */
  lemma {:induction false} SplitOfJoin(parts: seq<string>)
    requires parts != [] && forall k :: 0 <= k < |parts| ==> ',' !in parts[k]
    ensures Split(Join(parts, ','), ',') == parts
  {
    if |parts| > 1 {
      var s := Join(parts, ',');
      assert s == parts[0] + [','] + Join(parts[1..], ',');
      assert s[|parts[0]|] == ',';
      assert s[..|parts[0]|] == parts[0];
      var i := IndexOf(s, ',');
      assert i == |parts[0]|;
      assert s[i + 1..] == Join(parts[1..], ',');
      SplitOfJoin(parts[1..]);
    }
  }

  /**
   * A comma-separated string that does not decode to a JSON list gives its
   * trimmed, non-empty fields in order.
   */
  lemma CsvFields(parts: seq<string>, loads: string -> Option<Value>)
    requires parts != [] && Clean(parts) && forall k :: 0 <= k < |parts| ==> ',' !in parts[k]
    requires !(loads(Join(parts, ',')).Some? && loads(Join(parts, ',')).value.List?)
    ensures ToList(Str(Join(parts, ',')), loads) == parts
  {
    SplitOfJoin(parts);
    TidyOfClean(parts);
  }
}
