/**
 * `is_valid_email`: a simple shape check of the stripped value against the
 * pattern `^[^@\s]+@[^@\s]+\.[^@\s]+$`.
 */
module Email {
  import opened Wrappers
  import opened Text

  /** The character class `[^@\s]`. */
  predicate AddressChar(c: char)
  {
    c != '@' && !IsSpace(c)
  }

  /** `[^@\s]+`. */
  predicate AddressRun(t: string)
  {
    t != [] && forall k :: 0 <= k < |t| ==> AddressChar(t[k])
  }

  /** The pattern, matched against the whole string. */
  ghost predicate PatternMatch(s: string)
  {
    exists local, host, tld :: AddressRun(local) && AddressRun(host) && AddressRun(tld)
                               && s == local + "@" + host + "." + tld
  }

  predicate NoSpace(s: string)
  {
    forall k :: 0 <= k < |s| ==> !IsSpace(s[k])
  }

  /** A '.' that is neither the first nor the last character. */
  predicate InnerDot(d: string)
  {
    exists i :: 0 < i < |d| - 1 && d[i] == '.'
  }

  /** One '@' with text on both sides, no white space, and an inner '.' after the '@'. */
  predicate EmailShape(s: string)
  {
    NoSpace(s) && '@' in s
    && var at := IndexOf(s, '@');
       0 < at && '@' !in s[at + 1..] && InnerDot(s[at + 1..])
  }

  /** The pattern matches exactly the strings of that shape. */
  lemma PatternIsShape(s: string)
    ensures PatternMatch(s) <==> EmailShape(s)
  {
    if PatternMatch(s) {
      PatternToShape(s);
    }
    if EmailShape(s) {
      ShapeToPattern(s);
    }
  }

  lemma PatternToShape(s: string)
    requires PatternMatch(s)
    ensures EmailShape(s)
  {
    var local, host, tld :| AddressRun(local) && AddressRun(host) && AddressRun(tld)
                            && s == local + "@" + host + "." + tld;
    var d := host + "." + tld;
    assert s == local + ("@" + d);
    JoinedParts(local, d);
    RunsNoSpace(host, tld);
    RunsNoSpace(local, d);
    assert d[|host|] == '.';
  }

  /** A run, '@', then anything: the '@' is the first one and the rest follows it. */
  lemma JoinedParts(local: string, d: string)
    requires AddressRun(local)
    ensures var s := local + ("@" + d);
            && '@' in s && IndexOf(s, '@') == |local| && s[|local| + 1..] == d
  {
    var s := local + ("@" + d);
    assert s[|local|] == '@';
    assert s[..|local|] == local;
    assert s[|local| + 1..] == d;
  }

  /** Joining two space-free runs with '@' or '.' gives a space-free string without a new '@'. */
  lemma RunsNoSpace(a: string, b: string)
    requires AddressRun(a) && (AddressRun(b) || NoSpace(b))
    ensures NoSpace(a + "@" + b) && NoSpace(a + ("@" + b)) && NoSpace(a + "." + b)
    ensures AddressRun(b) ==> '@' !in a + "." + b
  {
    NoSpaceJoin(a, '@', b);
    NoSpaceJoin(a, '.', b);
    assert a + "@" + b == a + ("@" + b);
    if AddressRun(b) {
      assert '@' !in a;
      assert '@' !in b;
    }
  }

  lemma NoSpaceJoin(a: string, c: char, b: string)
    requires !IsSpace(c) && NoSpace(a) && NoSpace(b)
    ensures NoSpace(a + [c] + b)
  {
    var s := a + [c] + b;
    forall k | 0 <= k < |s|
      ensures !IsSpace(s[k])
    {
      if k < |a| {
        assert s[k] == a[k];
      } else if k > |a| {
        assert s[k] == b[k - |a| - 1];
      }
    }
  }

  lemma ShapeToPattern(s: string)
    requires EmailShape(s)
    ensures PatternMatch(s)
  {
    var at := IndexOf(s, '@');
    var d := s[at + 1..];
    var i :| 0 < i < |d| - 1 && d[i] == '.';
    var dot := at + 1 + i;
    assert s[dot] == d[i];
    forall k | 0 <= k < at
      ensures s[k] != '@'
    {
      assert s[k] == s[..at][k];
    }
    forall k | at + 1 <= k < |s|
      ensures s[k] != '@'
    {
      assert s[k] == d[k - at - 1];
    }
    var local, host, tld := s[0..at], s[at + 1..dot], s[dot + 1..|s|];
    SliceRun(s, 0, at);
    SliceRun(s, at + 1, dot);
    SliceRun(s, dot + 1, |s|);
    SplitTwice(s, at, dot);
    assert [s[at]] == "@" && [s[dot]] == ".";
    assert s == local + "@" + host + "." + tld;
    MatchOf(local, host, tld);
  }

  lemma MatchOf(local: string, host: string, tld: string)
    requires AddressRun(local) && AddressRun(host) && AddressRun(tld)
    ensures PatternMatch(local + "@" + host + "." + tld)
  {
  }

  /** A non-empty slice of a space-free string that holds no '@' is a run. */
  lemma SliceRun(s: string, lo: nat, hi: nat)
    requires lo < hi <= |s| && NoSpace(s) && forall k :: lo <= k < hi ==> s[k] != '@'
    ensures AddressRun(s[lo..hi])
  {
    forall k | 0 <= k < hi - lo
      ensures AddressChar(s[lo..hi][k])
    {
      assert s[lo..hi][k] == s[lo + k];
    }
  }

  lemma SplitTwice(s: string, a: nat, b: nat)
    requires a < b < |s|
    ensures s == s[0..a] + [s[a]] + s[a + 1..b] + [s[b]] + s[b + 1..|s|]
  {
  }

  /** `is_valid_email(value)`. */
  function IsValidEmail(value: Option<string>): (b: bool)
    ensures b ==> value.Some? && Strip(value.value) != "" && NoSpace(Strip(value.value))
  {
    if value.None? then false
    else
      var candidate := Strip(value.value);
      candidate != "" && EmailShape(candidate)
  }

  /** Valid exactly when the stripped value matches the pattern. */
  lemma IsValidEmailPattern(s: string)
    ensures IsValidEmail(Some(s)) <==> PatternMatch(Strip(s))
  {
    PatternIsShape(Strip(s));
  }

  /** None and white-space-only values are invalid. */
  lemma BlankInvalid(s: string)
    requires AllSpace(s)
    ensures !IsValidEmail(None) && !IsValidEmail(Some(s))
  {
    StripEmpty(s);
  }

  /** Only the stripped value matters. */
  lemma OnlyStrippedMatters(s: string)
    ensures IsValidEmail(Some(s)) == IsValidEmail(Some(Strip(s)))
  {
    StripIdempotent(s);
  }
}
