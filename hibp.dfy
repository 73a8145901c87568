/**
 * The HIBP ("Have I Been Pwned" v3) breached-account client: date
 * normalisation, the per-record normaliser, the percent-encoded request path
 * and the mapping from the HTTP response to breach records or a typed error.
 * The HTTP exchange itself is an input (`HttpResponse`).
 */
module Hibp {
  import opened Wrappers
  import opened Text
  import opened Json
  import opened Models

  const Base: string := "https://haveibeenpwned.com/api/v3"
  const DefaultUserAgent: string := "DarkWebLeakFinder/1.0"

  // ---------------------------------------------------------------------------
  // Errors
  // ---------------------------------------------------------------------------

  /**
   * What `breaches_for_account` can raise: the two typed HibpError subclasses,
   * the HTTPError of `raise_for_status`, a transport failure of `requests`
   * (which also covers a body that is not valid JSON), and the AttributeError
   * or ValueError a malformed record raises inside the normaliser.
   */
  datatype HibpError =
    | AuthError
    | RateLimitError
    | HttpError(status: int)
    | TransportError
    | MalformedRecord

  /** The text of the two typed errors; the rate-limit text is shown to the user. */
  function ErrorText(e: HibpError): string
  {
    match e
    case AuthError => "HIBP 401 Unauthorized: API key missing/invalid."
    case RateLimitError => "HIBP 429 Rate limited. Try again shortly."
    case HttpError(_) => "HTTP error"
    case TransportError => "network error"
    case MalformedRecord => "malformed record"
  }

  // ---------------------------------------------------------------------------
  // Dates
  // ---------------------------------------------------------------------------

  /** The regex `^\d{4}-\d{2}-\d{2}$` on ASCII digits. */
  predicate IsYmd(s: string)
  {
    |s| == 10 && AllDigits(s[..4]) && s[4] == '-' && AllDigits(s[5..7]) && s[7] == '-' && AllDigits(s[8..])
  }

  /** `_date_yyyy_mm_dd`: the first ten characters of `str(v).strip()` when they form a date. */
  function DateYmd(v: Value): (r: Option<string>)
    ensures r.Some? ==> IsYmd(r.value)
    ensures !Truthy(v) ==> r.None?
    ensures r.Some? <==> Truthy(v) && |Strip(PyStr(v))| >= 10 && IsYmd(Strip(PyStr(v))[..10])
    ensures r.Some? ==> r.value == Strip(PyStr(v))[..10]
  {
    if !Truthy(v) then None
    else
      var s := Strip(PyStr(v));
      var t := if |s| >= 10 then s[..10] else s;
      if IsYmd(t) then Some(t) else None
  }

  lemma YmdIsStripped(s: string)
    requires IsYmd(s)
    ensures IsStripped(s)
  {
    assert s[0] == s[..4][0];
    assert s[9] == s[8..][1];
  }

  /** Normalising a normalised date gives it back. */
  lemma DateYmdIdempotent(v: Value)
    requires DateYmd(v).Some?
    ensures DateYmd(Str(DateYmd(v).value)) == DateYmd(v)
  {
    var d := DateYmd(v).value;
    YmdIsStripped(d);
    StripOfStripped(d);
    assert |d| == 10 && d[..10] == d;
    assert Truthy(Str(d)) && PyStr(Str(d)) == d;
  }

  // ---------------------------------------------------------------------------
  // Record normalisation
  // ---------------------------------------------------------------------------

  /** The normalised breach record `_normalize_breach` returns. */
  datatype NormalizedBreach = NormalizedBreach(
    breachName: string,
    title: string,
    domain: string,
    breachDate: Option<string>,
    occurredOn: Option<string>,
    addedOn: Option<string>,
    modifiedOn: Option<string>,
    pwnCount: int,
    dataClasses: seq<string>,
    description: string,
    flags: Flags)

  function OptStr(o: Option<string>): Value
  {
    if o.Some? then Str(o.value) else Null
  }

  /** The dict the normaliser builds, with its keys in the source's order. */
  function AsFields(nb: NormalizedBreach): Fields
  {
    NameFields(nb) + DetailFields(nb)
  }

  /** The first three entries of the record. */
  function NameFields(nb: NormalizedBreach): Fields
  {
    [("breach_name", Str(nb.breachName)), ("title", Str(nb.title)), ("domain", Str(nb.domain))]
  }

  /** The remaining entries of the record. */
  function DetailFields(nb: NormalizedBreach): Fields
  {
    [ ("breach_date", OptStr(nb.breachDate)), ("occurred_on", OptStr(nb.occurredOn)),
      ("added_on", OptStr(nb.addedOn)), ("modified_on", OptStr(nb.modifiedOn)),
      ("pwn_count", Int(nb.pwnCount)),
      ("data_classes", List(seq(|nb.dataClasses|, k requires 0 <= k < |nb.dataClasses| => Str(nb.dataClasses[k])))),
      ("description", Str(nb.description)),
      ("is_verified", Bool(nb.flags.isVerified)), ("is_sensitive", Bool(nb.flags.isSensitive)),
      ("is_fabricated", Bool(nb.flags.isFabricated)), ("is_spam_list", Bool(nb.flags.isSpamList)),
      ("is_retired", Bool(nb.flags.isRetired)), ("is_malware", Bool(nb.flags.isMalware)),
      ("is_stealer_log", Bool(nb.flags.isStealerLog)),
      ("is_subscription_free", Bool(nb.flags.isSubscriptionFree)) ]
  }

  /** Every key of the record is lower-case snake_case, so no raw HIBP key (which is capitalised) is present. */
  lemma AsFieldsLowerKeys(nb: NormalizedBreach)
    ensures forall k :: 0 <= k < |AsFields(nb)| ==> AsFields(nb)[k].0 != [] && 'a' <= AsFields(nb)[k].0[0] <= 'z'
  {
    var a, b := NameFields(nb), DetailFields(nb);
    assert forall k :: 0 <= k < |a| ==> a[k].0 != [] && 'a' <= a[k].0[0] <= 'z';
    assert forall k :: 0 <= k < |b| ==> b[k].0 != [] && 'a' <= b[k].0[0] <= 'z';
  }

  lemma AsFieldsNoCapitalKey(nb: NormalizedBreach, key: string)
    requires key != [] && 'A' <= key[0] <= 'Z'
    ensures !HasKey(AsFields(nb), key)
  {
    AsFieldsLowerKeys(nb);
  }

  /** The record's first three entries are its name, title and domain. */
  lemma AsFieldsNames(nb: NormalizedBreach)
    ensures Get(AsFields(nb), "breach_name") == Some(Str(nb.breachName))
    ensures Get(AsFields(nb), "title") == Some(Str(nb.title))
    ensures Get(AsFields(nb), "domain") == Some(Str(nb.domain))
  {
    var names := NameFields(nb);
    assert Get(names[2..], "domain") == Some(Str(nb.domain));
    assert Get(names[1..], "domain") == Some(Str(nb.domain));
    GetAppend(names, DetailFields(nb), "breach_name");
    GetAppend(names, DetailFields(nb), "title");
    GetAppend(names, DetailFields(nb), "domain");
  }

  /** The non-empty pieces, in order. */
  function NonEmpty(ys: seq<string>): (r: seq<string>)
    ensures |r| <= |ys|
  {
    if ys == [] then [] else (if ys[0] != "" then [ys[0]] else []) + NonEmpty(ys[1..])
  }

  lemma {:induction false} NonEmptyAppend(a: seq<string>, b: seq<string>)
    ensures NonEmpty(a + b) == NonEmpty(a) + NonEmpty(b)
  {
    if a == [] {
      assert a + b == b;
    } else {
      assert (a + b)[0] == a[0];
      assert (a + b)[1..] == a[1..] + b;
      NonEmptyAppend(a[1..], b);
    }
  }

  lemma {:induction false} NonEmptyFrom(ys: seq<string>)
    ensures forall k :: 0 <= k < |NonEmpty(ys)| ==> NonEmpty(ys)[k] != "" && NonEmpty(ys)[k] in ys
  {
    if ys != [] {
      NonEmptyFrom(ys[1..]);
    }
  }

  lemma {:induction false} NonEmptyKeeps(ys: seq<string>)
    requires forall k :: 0 <= k < |ys| ==> ys[k] != ""
    ensures NonEmpty(ys) == ys
  {
    if ys != [] {
      NonEmptyKeeps(ys[1..]);
    }
  }

  /** The trimmed, non-empty pieces, in order: `[s.strip() for s in xs if s.strip()]`. */
  function KeepTrimmed(xs: seq<string>): (r: seq<string>)
    ensures |r| <= |xs|
  {
    NonEmpty(MapSeq(Strip, xs))
  }

  /** The kept pieces are stripped and non-empty. */
  lemma KeepTrimmedClean(xs: seq<string>)
    ensures forall k :: 0 <= k < |KeepTrimmed(xs)| ==> KeepTrimmed(xs)[k] != "" && IsStripped(KeepTrimmed(xs)[k])
  {
    var ys := MapSeq(Strip, xs);
    forall k | 0 <= k < |ys|
      ensures IsStripped(ys[k])
    {
      MapSeqAt(Strip, xs, k);
    }
    NonEmptyFrom(ys);
  }

  lemma KeepTrimmedAppend(a: seq<string>, b: seq<string>)
    ensures KeepTrimmed(a + b) == KeepTrimmed(a) + KeepTrimmed(b)
  {
    MapSeqAppend(Strip, a, b);
    NonEmptyAppend(MapSeq(Strip, a), MapSeq(Strip, b));
  }

  /** Every trimmed non-empty piece is kept, duplicates included. */
  lemma KeepTrimmedKeepsClean(xs: seq<string>)
    requires forall k :: 0 <= k < |xs| ==> xs[k] != "" && IsStripped(xs[k])
    ensures KeepTrimmed(xs) == xs
  {
    var ys := MapSeq(Strip, xs);
    forall k | 0 <= k < |xs|
      ensures ys[k] == xs[k]
    {
      MapSeqAt(Strip, xs, k);
      StripOfStripped(xs[k]);
    }
    assert ys == xs;
    NonEmptyKeeps(xs);
  }

  function StrAll(xs: seq<Value>): seq<string>
  {
    seq(|xs|, k requires 0 <= k < |xs| => PyStr(xs[k]))
  }

  /** The DataClasses coercion: a list's elements, or a comma-split string, trimmed; anything else gives []. */
  function DataClasses(dc: Value): (r: seq<string>)
    ensures forall k :: 0 <= k < |r| ==> r[k] != "" && IsStripped(r[k])
    ensures !dc.List? && !dc.Str? ==> r == []
  {
    match dc
    case List(xs) => KeepTrimmedClean(StrAll(xs)); KeepTrimmed(StrAll(xs))
    case Str(s) => KeepTrimmedClean(Split(s, ',')); KeepTrimmed(Split(s, ','))
    case _ => []
  }

  /** The flags read with plain truthiness; note the misspelled fabricated key. */
  function ReadFlags(b: Fields): Flags
  {
    Flags(
      Truthy(Lookup(b, "IsVerified")),
      Truthy(Lookup(b, "IsSensitive")),
      Truthy(Lookup(b, "IsFabricricated")),
      Truthy(Lookup(b, "IsSpamList")),
      Truthy(Lookup(b, "IsRetired")),
      Truthy(Lookup(b, "IsMalware")),
      Truthy(Lookup(b, "IsStealerLog")),
      Truthy(Lookup(b, "IsSubscriptionFree")))
  }

  /** The values `_normalize_breach` reads from a record, by key; a missing key reads as Null. */
  datatype RawBreach = RawBreach(
    name: Value, title: Value, domain: Value,
    breachDate: Value, addedDate: Value, modifiedDate: Value,
    pwnCount: Value, dataClasses: Value, description: Value, flags: Flags)

  function ReadRaw(b: Fields): RawBreach
  {
    RawBreach(
      Lookup(b, "Name"), Lookup(b, "Title"), Lookup(b, "Domain"),
      Lookup(b, "BreachDate"), Lookup(b, "AddedDate"), Lookup(b, "ModifiedDate"),
      Lookup(b, "PwnCount"), Lookup(b, "DataClasses"), Lookup(b, "Description"), ReadFlags(b))
  }

  /**
   * `_normalize_breach` on the values read: `Ok(None)` drops a record whose
   * Name is missing or blank; `Err` is the exception a non-string Name, Title,
   * Domain or Description, or a PwnCount `int()` rejects, raises.
   */
  function NormalizeRaw(raw: RawBreach): (r: Result<Option<NormalizedBreach>, HibpError>)
    ensures r.Ok? && r.value.Some? ==> r.value.value.breachName != ""
  {
    var name :- StripOrEmpty(raw.name).ToResult(MalformedRecord);
    if name == "" then Ok(None)
    else
      var title :- StripOrEmpty(raw.title).ToResult(MalformedRecord);
      var domain :- StripOrEmpty(raw.domain).ToResult(MalformedRecord);
      var breachDate := DateYmd(raw.breachDate);
      var pwnCount :- ToInt(Or(raw.pwnCount, Int(0))).ToResult(ValueErrorAsRecord());
      var description :- StripOrEmpty(raw.description).ToResult(MalformedRecord);
      Ok(Some(NormalizedBreach(
        name, if title != "" then title else name, domain,
        breachDate, breachDate,
        DateYmd(raw.addedDate), DateYmd(raw.modifiedDate),
        pwnCount, DataClasses(raw.dataClasses), description, raw.flags)))
  }

  /** `_normalize_breach(b)`: the record's values read by key, then normalised. */
  function NormalizeBreach(b: Fields): (r: Result<Option<NormalizedBreach>, HibpError>)
    ensures r.Ok? && r.value.Some? ==> r.value.value.breachName != ""
  {
    NormalizeRaw(ReadRaw(b))
  }

  function ValueErrorAsRecord(): HibpError
  {
    MalformedRecord
  }

  /**
   * The shape of a kept record: a stripped non-empty name read from Name, a
   * title that is the stripped Title or else the name, the stripped domain and
   * description, `int(PwnCount or 0)`, the three dates normalised to
   * 'YYYY-MM-DD' or None, occurred_on mirroring breach_date, the trimmed data
   * classes and the flags as read.
   */
  lemma NormalizeBreachShape(raw: RawBreach)
    requires NormalizeRaw(raw).Ok? && NormalizeRaw(raw).value.Some?
    ensures var nb := NormalizeRaw(raw).value.value;
            && nb.breachName != "" && IsStripped(nb.breachName)
            && StripOrEmpty(raw.name) == Some(nb.breachName)
            && StripOrEmpty(raw.title).Some?
            && nb.title == (if StripOrEmpty(raw.title).value != "" then StripOrEmpty(raw.title).value else nb.breachName)
            && nb.title != ""
            && nb.domain == StripOrEmpty(raw.domain).value
            && nb.description == StripOrEmpty(raw.description).value
            && ToInt(Or(raw.pwnCount, Int(0))) == Some(nb.pwnCount)
            && nb.breachDate == DateYmd(raw.breachDate)
            && nb.addedOn == DateYmd(raw.addedDate)
            && nb.modifiedOn == DateYmd(raw.modifiedDate)
            && (nb.breachDate.Some? ==> IsYmd(nb.breachDate.value))
            && (nb.addedOn.Some? ==> IsYmd(nb.addedOn.value))
            && (nb.modifiedOn.Some? ==> IsYmd(nb.modifiedOn.value))
            && nb.occurredOn == nb.breachDate
            && nb.dataClasses == DataClasses(raw.dataClasses)
            && nb.flags == raw.flags
  {
  }

  /** A record is dropped exactly when its Name is missing or blank (and nothing else raised first). */
  lemma NormalizeDropsExactlyNameless(raw: RawBreach)
    requires NormalizeRaw(raw).Ok?
    ensures NormalizeRaw(raw).value.None? <==> StripOrEmpty(raw.name) == Some("")
  {
  }

  /** `is_fabricated` is set only by a truthy value under the misspelled key "IsFabricricated". */
  lemma FabricatedReadsMisspelledKey(b: Fields)
    requires NormalizeBreach(b).Ok? && NormalizeBreach(b).value.Some?
    ensures NormalizeBreach(b).value.value.flags.isFabricated <==> Truthy(Lookup(b, "IsFabricricated"))
  {
    NormalizeBreachShape(ReadRaw(b));
  }

  // ---------------------------------------------------------------------------
  // Percent-encoding of the account (quote(..., safe=""))
  // ---------------------------------------------------------------------------

  type Byte = x: int | 0 <= x < 256

  /** The UTF-8 encoding of one character. */
  function Utf8Char(c: char): (r: seq<Byte>)
    ensures 1 <= |r| <= 4
  {
    var n := c as int;
    if n < 0x80 then [n]
    else if n < 0x800 then [0xC0 + n / 64, 0x80 + n % 64]
    else if n < 0x10000 then [0xE0 + n / 4096, 0x80 + (n / 64) % 64, 0x80 + n % 64]
    else [0xF0 + (n / 262144) % 8, 0x80 + (n / 4096) % 64, 0x80 + (n / 64) % 64, 0x80 + n % 64]
  }

  function Utf8(s: string): seq<Byte>
  {
    if s == [] then [] else Utf8Char(s[0]) + Utf8(s[1..])
  }

  /** The unreserved characters of section 2.3 of RFC 3986, which `quote` never escapes. */
  predicate IsUnreservedByte(b: Byte)
  {
    ('A' as int <= b <= 'Z' as int) || ('a' as int <= b <= 'z' as int) || ('0' as int <= b <= '9' as int)
    || b == '-' as int || b == '.' as int || b == '_' as int || b == '~' as int
  }

  /** An upper-case hex digit, as `quote` writes them. */
  function HexDigit(n: int): char
    requires 0 <= n < 16
  {
    if n < 10 then ('0' as int + n) as char else ('A' as int + n - 10) as char
  }

  predicate IsHexChar(c: char)
  {
    ('0' <= c <= '9') || ('A' <= c <= 'F') || ('a' <= c <= 'f')
  }

  function HexValue(c: char): (v: int)
    requires IsHexChar(c)
    ensures 0 <= v < 16
  {
    if '0' <= c <= '9' then c as int - '0' as int
    else if 'A' <= c <= 'F' then c as int - 'A' as int + 10
    else c as int - 'a' as int + 10
  }

  lemma HexDigitValue(n: int)
    requires 0 <= n < 16
    ensures IsHexChar(HexDigit(n)) && HexValue(HexDigit(n)) == n
  {
  }

  /** The percent-encoding of one byte. */
  function QuoteByte(b: Byte): (r: string)
    ensures |r| == 1 || |r| == 3
  {
    if IsUnreservedByte(b) then [b as char] else ['%', HexDigit(b / 16), HexDigit(b % 16)]
  }

  function QuoteBytes(bs: seq<Byte>): string
  {
    if bs == [] then "" else QuoteByte(bs[0]) + QuoteBytes(bs[1..])
  }

  /** Python `quote(s, safe="")`: UTF-8, then every byte outside the unreserved set as %XX. */
  function Quote(s: string): string
  {
    QuoteBytes(Utf8(s))
  }

  /** The inverse of QuoteBytes: %XX back to a byte, any other character to its own code. */
  function UnquoteBytes(s: string): seq<Byte>
  {
    if s == [] then []
    else if s[0] == '%' && |s| >= 3 && IsHexChar(s[1]) && IsHexChar(s[2]) then
      [16 * HexValue(s[1]) + HexValue(s[2])] + UnquoteBytes(s[3..])
    else [(s[0] as int) % 256] + UnquoteBytes(s[1..])
  }

  /** Decoding the percent-encoding gives the bytes back. */
  lemma {:induction false} QuoteRoundTrip(bs: seq<Byte>)
    ensures UnquoteBytes(QuoteBytes(bs)) == bs
  {
    if bs != [] {
      QuoteRoundTrip(bs[1..]);
      assert QuoteBytes(bs) == QuoteByte(bs[0]) + QuoteBytes(bs[1..]);
      UnquoteByte(bs[0], QuoteBytes(bs[1..]));
      assert bs == [bs[0]] + bs[1..];
    }
  }

  /** One quoted byte decodes back, whatever follows it. */
  lemma UnquoteByte(b: Byte, rest: string)
    ensures UnquoteBytes(QuoteByte(b) + rest) == [b] + UnquoteBytes(rest)
  {
    var s := QuoteByte(b) + rest;
    if IsUnreservedByte(b) {
      assert s[0] == b as char != '%';
      assert s[1..] == rest;
    } else {
      HexDigitValue(b / 16);
      HexDigitValue(b % 16);
      assert s[0] == '%' && s[1] == HexDigit(b / 16) && s[2] == HexDigit(b % 16);
      assert s[3..] == rest;
    }
  }

  /** '%' or an unreserved character (the upper-case hex digits are among them). */
  predicate IsQuotedChar(c: char)
  {
    c == '%' || (c as int < 256 && IsUnreservedByte(c as int))
  }

  /** Every character of the encoding is unreserved, '%' or an upper-case hex digit. */
  lemma {:induction false} QuoteAlphabet(bs: seq<Byte>)
    ensures forall k :: 0 <= k < |QuoteBytes(bs)| ==> IsQuotedChar(QuoteBytes(bs)[k])
  {
    if bs != [] {
      QuoteAlphabet(bs[1..]);
      var q := QuoteByte(bs[0]);
      assert QuoteBytes(bs) == q + QuoteBytes(bs[1..]);
      forall k | 0 <= k < |QuoteBytes(bs)|
        ensures IsQuotedChar(QuoteBytes(bs)[k])
      {
        if k >= |q| {
          assert QuoteBytes(bs)[k] == QuoteBytes(bs[1..])[k - |q|];
        }
      }
    }
  }

  /** The request path for one account: the address stripped, lower-cased and percent-encoded. */
  function AccountPath(email: string): string
  {
    Base + "/breachedaccount/" + Quote(Lower(Strip(email)))
  }

  // ---------------------------------------------------------------------------
  // The breached-account call
  // ---------------------------------------------------------------------------

  /** The single GET: a transport failure, or a status, a Content-Type and a body (None when not JSON). */
  datatype HttpResponse =
    | TransportFailure
    | Response(status: int, contentType: Option<string>, body: Option<Value>)

  /** The request that is sent: URL, the two query flags and the two identifying headers. */
  datatype HibpRequest = HibpRequest(
    url: string, truncateResponse: string, includeUnverified: string, apiKey: string, userAgent: string)

  /** What one list item contributes: nothing for a non-dict or a nameless record. */
  function NormalizeItem(item: Value): (r: Result<seq<NormalizedBreach>, HibpError>)
    ensures r.Ok? ==> |r.value| <= 1
    ensures r.Ok? && |r.value| == 1 ==> r.value[0].breachName != ""
  {
    if !item.Obj? then Ok([])
    else
      var nb := NormalizeBreach(item.fields);
      if nb.Err? then Err(nb.error)
      else if nb.value.Some? then Ok([nb.value.value])
      else Ok([])
  }

  /** `[f(x) for x in xs]`. */
  function MapSeq<A, B>(f: A -> B, xs: seq<A>): (ys: seq<B>)
    ensures |ys| == |xs|
  {
    if xs == [] then [] else [f(xs[0])] + MapSeq(f, xs[1..])
  }

  lemma {:induction false} MapSeqAt<A, B>(f: A -> B, xs: seq<A>, k: nat)
    requires k < |xs|
    ensures MapSeq(f, xs)[k] == f(xs[k])
  {
    if k > 0 {
      MapSeqAt(f, xs[1..], k - 1);
    }
  }

  lemma {:induction false} MapSeqAppend<A, B>(f: A -> B, a: seq<A>, b: seq<A>)
    ensures MapSeq(f, a + b) == MapSeq(f, a) + MapSeq(f, b)
  {
    if a == [] {
      assert a + b == b;
    } else {
      assert (a + b)[0] == a[0];
      assert (a + b)[1..] == a[1..] + b;
      MapSeqAppend(f, a[1..], b);
    }
  }

  lemma MapSeqPrefix<A, B>(f: A -> B, xs: seq<A>, i: nat)
    requires i <= |xs|
    ensures MapSeq(f, xs[..i]) == MapSeq(f, xs)[..i]
  {
    assert xs == xs[..i] + xs[i..];
    MapSeqAppend(f, xs[..i], xs[i..]);
  }

  /** What each list item contributes on its own, in order. */
  function ItemOutputs(data: seq<Value>): (rs: seq<Result<seq<NormalizedBreach>, HibpError>>)
    ensures |rs| == |data|
  {
    MapSeq(NormalizeItem, data)
  }

  lemma ItemOutputsSmall(data: seq<Value>)
    ensures forall k :: 0 <= k < |data| && ItemOutputs(data)[k].Ok? ==> |ItemOutputs(data)[k].value| <= 1
  {
    forall k | 0 <= k < |data|
      ensures ItemOutputs(data)[k] == NormalizeItem(data[k])
    {
      MapSeqAt(NormalizeItem, data, k);
    }
  }

  /** The contributions joined in order, or the first error among them. */
  function Gather(rs: seq<Result<seq<NormalizedBreach>, HibpError>>): Result<seq<NormalizedBreach>, HibpError>
  {
    if rs == [] then Ok([])
    else if rs[0].Err? then Err(rs[0].error)
    else
      var rest := Gather(rs[1..]);
      if rest.Err? then rest
      else Ok(rs[0].value + rest.value)
  }

  /** Contributions of at most one record each join to no more records than contributions. */
  lemma {:induction false} GatherLength(rs: seq<Result<seq<NormalizedBreach>, HibpError>>)
    requires forall k :: 0 <= k < |rs| && rs[k].Ok? ==> |rs[k].value| <= 1
    ensures Gather(rs).Ok? ==> |Gather(rs).value| <= |rs|
  {
    if rs != [] && rs[0].Ok? {
      GatherLength(rs[1..]);
    }
  }

  /** Contributions whose records are all named join to named records. */
  lemma {:induction false} GatherNamed(rs: seq<Result<seq<NormalizedBreach>, HibpError>>)
    requires forall k, j :: 0 <= k < |rs| && rs[k].Ok? && 0 <= j < |rs[k].value| ==> rs[k].value[j].breachName != ""
    ensures Gather(rs).Ok? ==> forall j :: 0 <= j < |Gather(rs).value| ==> Gather(rs).value[j].breachName != ""
  {
    if rs != [] && rs[0].Ok? && Gather(rs[1..]).Ok? {
      GatherNamed(rs[1..]);
      var h: seq<NormalizedBreach> := rs[0].value;
      var t: seq<NormalizedBreach> := Gather(rs[1..]).value;
      assert Gather(rs).value == h + t;
      forall j | 0 <= j < |h + t|
        ensures (h + t)[j].breachName != ""
      {
        if j < |h| {
          assert (h + t)[j] == rs[0].value[j];
        } else {
          assert (h + t)[j] == t[j - |h|];
        }
      }
    }
  }

  lemma {:induction false} GatherAppend(a: seq<Result<seq<NormalizedBreach>, HibpError>>, b: seq<Result<seq<NormalizedBreach>, HibpError>>)
    requires Gather(a).Ok? && Gather(b).Ok?
    ensures Gather(a + b) == Ok(Gather(a).value + Gather(b).value)
  {
    if a == [] {
      assert a + b == b;
      assert Gather(a).value + Gather(b).value == Gather(b).value;
    } else {
      assert (a + b)[0] == a[0];
      assert (a + b)[1..] == a[1..] + b;
      GatherAppend(a[1..], b);
      var h := a[0].value;
      var ta := Gather(a[1..]).value;
      var tb := Gather(b).value;
      assert h + (ta + tb) == (h + ta) + tb;
    }
  }

  lemma {:induction false} GatherErrorAt(rs: seq<Result<seq<NormalizedBreach>, HibpError>>, i: nat)
    requires i < |rs| && rs[i].Err? && Gather(rs[..i]).Ok?
    ensures Gather(rs) == Err(rs[i].error)
  {
    if i > 0 {
      assert rs[..i][0] == rs[0];
      assert rs[..i][1..] == rs[1..][..i - 1];
      GatherErrorAt(rs[1..], i - 1);
    }
  }

  /** `_normalize_breaches` over a list: each item normalised, in order, or the first error. */
  function NormalizeAll(data: seq<Value>): (r: Result<seq<NormalizedBreach>, HibpError>)
    ensures r.Ok? ==> |r.value| <= |data|
  {
    ItemOutputsSmall(data);
    GatherLength(ItemOutputs(data));
    Gather(ItemOutputs(data))
  }

  /** Every record returned has a non-empty name; an error is a malformed record. */
  lemma NormalizeAllNamed(data: seq<Value>)
    ensures NormalizeAll(data).Ok? ==>
              forall k :: 0 <= k < |NormalizeAll(data).value| ==> NormalizeAll(data).value[k].breachName != ""
  {
    var rs := ItemOutputs(data);
    forall k, j | 0 <= k < |rs| && rs[k].Ok? && 0 <= j < |rs[k].value|
      ensures rs[k].value[j].breachName != ""
    {
      MapSeqAt(NormalizeItem, data, k);
    }
    GatherNamed(rs);
  }

  /** Normalisation works item by item: the output of a concatenation is the concatenation of outputs. */
  lemma NormalizeAllAppend(a: seq<Value>, b: seq<Value>)
    requires NormalizeAll(a).Ok? && NormalizeAll(b).Ok?
    ensures NormalizeAll(a + b) == Ok(NormalizeAll(a).value + NormalizeAll(b).value)
  {
    MapSeqAppend(NormalizeItem, a, b);
    GatherAppend(ItemOutputs(a), ItemOutputs(b));
  }

  lemma NormalizeAllSingleton(item: Value)
    ensures NormalizeAll([item]) == NormalizeItem(item)
  {
    var rs := ItemOutputs([item]);
    assert [item][1..] == [];
    assert rs == [NormalizeItem(item)];
    assert rs[1..] == [];
    assert Gather(rs[1..]) == Ok([]);
    if NormalizeItem(item).Ok? {
      assert Gather(rs) == Ok(NormalizeItem(item).value + []);
      assert NormalizeItem(item).value + [] == NormalizeItem(item).value;
    }
  }

  /** One raising record makes the whole normalisation raise. */
  lemma NormalizeAllErrorAt(data: seq<Value>, i: nat)
    requires i < |data| && NormalizeItem(data[i]).Err?
    requires NormalizeAll(data[..i]).Ok?
    ensures NormalizeAll(data) == Err(NormalizeItem(data[i]).error)
  {
    var rs := ItemOutputs(data);
    MapSeqPrefix(NormalizeItem, data, i);
    MapSeqAt(NormalizeItem, data, i);
    GatherErrorAt(rs, i);
  }

  /** Whether a Content-Type announces JSON: `str(ct or "").lower().startswith("application/json")`. */
  predicate IsJsonContentType(ct: Option<string>)
  {
    StartsWith(Lower(ct.GetOr("")), "application/json")
  }

  class HibpClient {
    const key: string
    const userAgent: string
    var lastStatus: Option<int>
    var lastUrl: Option<string>
    var lastItems: Option<int>
    var lastCt: Option<string>

    /** Reads HIBP_API_KEY and HIBP_USER_AGENT (None when unset). */
    constructor (keyEnv: Option<string>, userAgentEnv: Option<string>)
      ensures key == Strip(keyEnv.GetOr(""))
      ensures userAgent == Strip(if userAgentEnv.Some? && userAgentEnv.value != "" then userAgentEnv.value
                                 else DefaultUserAgent)
      ensures lastStatus == None && lastUrl == None && lastItems == None && lastCt == None
    {
      key := Strip(keyEnv.GetOr(""));
      userAgent := Strip(if userAgentEnv.Some? && userAgentEnv.value != "" then userAgentEnv.value
                         else DefaultUserAgent);
      lastStatus, lastUrl, lastItems, lastCt := None, None, None, None;
    }

    /** What `breaches_for_account` returns for a given response: the specification of the method. */
    static function Outcome(key: string, response: HttpResponse): (r: Result<seq<NormalizedBreach>, HibpError>)
      ensures key == "" ==> r == Ok([])
      ensures key != "" && response.Response? && response.status == 404 ==> r == Ok([])
      ensures key != "" && response.Response? && response.status == 401 ==> r == Err(AuthError)
      ensures key != "" && response.Response? && response.status == 429 ==> r == Err(RateLimitError)
      ensures (key != "" && response.Response? && response.status !in {401, 404, 429} &&
               400 <= response.status < 600) ==> r == Err(HttpError(response.status))
      ensures (key != "" && response.Response? && !(400 <= response.status < 600) &&
               !IsJsonContentType(response.contentType)) ==> r == Ok([])
      ensures key != "" && response.TransportFailure? ==> r == Err(TransportError)
      ensures (key != "" && response.Response? && !(400 <= response.status < 600) &&
               IsJsonContentType(response.contentType)) ==>
                && (response.body.None? ==> r == Err(TransportError))
                && (response.body.Some? && !response.body.value.List? ==> r == Ok([]))
                && (response.body.Some? && response.body.value.List? ==> r == NormalizeAll(response.body.value.items))
    {
      if key == "" then Ok([])
      else if response.TransportFailure? then Err(TransportError)
      else if response.status == 404 then Ok([])
      else if response.status == 401 then Err(AuthError)
      else if response.status == 429 then Err(RateLimitError)
      else if 400 <= response.status < 600 then Err(HttpError(response.status))
      else if !IsJsonContentType(response.contentType) then Ok([])
      else if response.body.None? then Err(TransportError)
      else if !response.body.value.List? then Ok([])
      else NormalizeAll(response.body.value.items)
    }

    /**
     * `breaches_for_account(email)`. `sent` is the request when one is made
     * (never without an API key). The `last_*` fields are updated as the source
     * does: no key sets (None, None, 0); a response sets status, content type
     * and the redacted URL, and `last_items` becomes the length of what is returned.
     */
    method BreachesForAccount(email: string, response: HttpResponse)
      returns (r: Result<seq<NormalizedBreach>, HibpError>, sent: Option<HibpRequest>)
      modifies this`lastStatus, this`lastUrl, this`lastItems, this`lastCt
      ensures r == Outcome(key, response)
      ensures sent.Some? <==> key != ""
      ensures sent.Some? ==> sent.value == HibpRequest(AccountPath(email), "false", "true", key, userAgent)
      ensures key == "" ==> lastStatus == None && lastUrl == None && lastItems == Some(0)
                            && lastCt == old(lastCt)
      ensures key != "" && response.Response? ==>
                && lastStatus == Some(response.status)
                && lastCt == Some(response.contentType.GetOr(""))
                && lastUrl == Some(Base + "/breachedaccount/<redacted>")
      ensures key != "" && response.TransportFailure? ==> unchanged(this)
      ensures r.Ok? ==> lastItems == Some(|r.value|)
      ensures r.Err? ==> lastItems == old(lastItems)
    {
      if key == "" {
        lastStatus, lastUrl, lastItems := None, None, Some(0);
        return Ok([]), None;
      }
      var account := Quote(Lower(Strip(email)));
      var url := Base + "/breachedaccount/" + account;
      sent := Some(HibpRequest(url, "false", "true", key, userAgent));
      if response.TransportFailure? {
        return Err(TransportError), sent;
      }
      lastStatus := Some(response.status);
      lastCt := Some(response.contentType.GetOr(""));
      lastUrl := Some(Base + "/breachedaccount/<redacted>");
      if response.status == 404 {
        lastItems := Some(0);
        return Ok([]), sent;
      }
      if response.status == 401 {
        return Err(AuthError), sent;
      }
      if response.status == 429 {
        return Err(RateLimitError), sent;
      }
      if 400 <= response.status < 600 {
        return Err(HttpError(response.status)), sent;
      }
      if !IsJsonContentType(lastCt) {
        lastItems := Some(0);
        return Ok([]), sent;
      }
      if response.body.None? {
        return Err(TransportError), sent;
      }
      var data := response.body.value;
      if !data.List? {
        lastItems := Some(0);
        return Ok([]), sent;
      }
      r := NormalizeItems(data.items);
      if r.Ok? {
        lastItems := Some(|r.value|);
      }
      return r, sent;
    }
  }

  /** The loop of `breaches_for_account` over the decoded list: the first raising record aborts it. */
  method NormalizeItems(items: seq<Value>) returns (r: Result<seq<NormalizedBreach>, HibpError>)
    ensures r == NormalizeAll(items)
  {
    var normalized: seq<NormalizedBreach> := [];
    var i := 0;
    while i < |items|
      invariant 0 <= i <= |items|
      invariant NormalizeAll(items[..i]) == Ok(normalized)
    {
      var raw := items[i];
      assert items[..i + 1] == items[..i] + [raw];
      var out := NormalizeItem(raw);
      if out.Err? {
        NormalizeAllErrorAt(items, i);
        return Err(out.error);
      }
      NormalizeAllSingleton(raw);
      NormalizeAllAppend(items[..i], [raw]);
      normalized := normalized + out.value;
      i := i + 1;
    }
    assert items[..i] == items;
    return Ok(normalized);
  }
}
