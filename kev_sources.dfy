/**
 * The security ticker's feed reader (`fetch_kev_items`): the CISA Known
 * Exploited Vulnerabilities feed first, the NVD `hasKev` query second, and a
 * one-item placeholder last, each live result mapped to title/date/link
 * entries and cut to `limit`.
 *
 * Each HTTP exchange is an input (`FeedResponse`); the model computes what the
 * code does with it. The text of an exception raised while mapping a payload
 * (an AttributeError or TypeError) is not computed: it is the input
 * `mappingErrorText`.
 */
module KevSources {
  import opened Wrappers
  import opened Text
  import opened Json

  const CisaUrls: seq<string> := ["https://www.cisa.gov/sites/default/files/feeds/known_exploited_vulnerabilities.json"]
  const NvdUrl := "https://services.nvd.nist.gov/rest/json/cves/2.0?hasKev"
  const CisaCatalog := "https://www.cisa.gov/known-exploited-vulnerabilities-catalog"
  const CisaSearch := "https://www.cisa.gov/known-exploited-vulnerabilities-catalog?search_api_fulltext="
  const NvdDetail := "https://nvd.nist.gov/vuln/detail/"
  const NvdHome := "https://nvd.nist.gov/"

  /** One GET: a transport failure with its message, or a status, a reason phrase and the decoded body (or the decoder's message). */
  datatype FeedResponse =
    | NetFailure(message: string)
    | Reply(status: int, reason: string, body: Result<Value, string>)

  /** The exceptions a source attempt can raise. */
  datatype FeedError =
    | Blocked(status: int, url: string)                      // the explicit 403/404 HTTPError
    | HttpFailure(status: int, reason: string, url: string)  // raise_for_status
    | Transport(message: string)
    | Undecodable(message: string)
    | MappingFailed                                          // AttributeError/TypeError while mapping

  /** `str(e)` for each exception. */
  function ErrorText(e: FeedError, mappingErrorText: string): string
  {
    match e
    case Blocked(status, url) => IntToString(status) + " for " + url
    case HttpFailure(status, reason, url) =>
      IntToString(status) + (if status < 500 then " Client Error: " else " Server Error: ") + reason + " for url: " + url
    case Transport(message) => message
    case Undecodable(message) => message
    case MappingFailed => mappingErrorText
  }

  /** `_get_json`: 403 and 404 raise like any other error status; success decodes the body. */
  function GetJson(url: string, response: FeedResponse): (r: Result<Value, FeedError>)
    ensures response.Reply? && (response.status == 403 || response.status == 404) ==>
              r == Err(Blocked(response.status, url))
    ensures r.Ok? <==> response.Reply? && !(400 <= response.status < 600) && response.body.Ok?
  {
    match response
    case NetFailure(message) => Err(Transport(message))
    case Reply(status, reason, body) =>
      if status == 403 || status == 404 then Err(Blocked(status, url))
      else if 400 <= status < 600 then Err(HttpFailure(status, reason, url))
      else if body.Err? then Err(Undecodable(body.error))
      else Ok(body.value)
  }

  /** `v[:limit]` on a JSON value: lists and strings slice, anything else raises. */
  function SliceTo(v: Value, limit: int): (r: Option<Value>)
    ensures r.Some? <==> v.List? || v.Str?
    ensures v.List? ==> r == Some(List(v.items[..PrefixLength(|v.items|, limit)]))
    ensures v.Str? ==> r == Some(Str(v.s[..PrefixLength(|v.s|, limit)]))
  {
    match v
    case List(items) => Some(List(items[..PrefixLength(|items|, limit)]))
    case Str(s) => Some(Str(s[..PrefixLength(|s|, limit)]))
    case _ => None
  }

  /** `for v in xs`: the elements of a sliced list, or the characters of a sliced string. */
  function Elements(v: Value): seq<Value>
    requires v.List? || v.Str?
  {
    if v.List? then v.items else seq(|v.s|, k requires 0 <= k < |v.s| => Str([v.s[k]]))
  }

  /** One ticker entry. Title and date are whatever the payload held; the link is text. */
  datatype KevItem = KevItem(title: Value, date: Value, link: string)

  /** The placeholder returned when no feed produced items. */
  const Placeholder := KevItem(Str("No KEV feed available"), Str(""), CisaCatalog)

  /** Mapping one CISA entry; a non-object entry, or a date that cannot be sliced, raises. */
  function MapCisa(v: Value): (r: Result<KevItem, FeedError>)
    ensures r.Ok? ==> v.Obj?
  {
    if !v.Obj? then Err(MappingFailed)
    else
      var f := v.fields;
      var cve := Or(Or(Lookup(f, "cveID"), Lookup(f, "cve_id")), Str(""));
      match SliceTo(Or(Or(Lookup(f, "dateAdded"), Lookup(f, "date_added")), Str("")), 10)
      case None => Err(MappingFailed)
      case Some(date) =>
        Ok(KevItem(
          Or(cve, Or(Lookup(f, "vendorProject"), Str("CISA KEV"))),
          date,
          if Truthy(cve) then CisaSearch + PyStr(cve) else CisaCatalog))
  }

  /**
   * A CISA entry's title is its CVE id, else its vendor, else "CISA KEV"; its
   * date is the first (at most) 10 characters of the date added, else ""; the
   * link names the CVE exactly when there is one.
   */
  lemma MapCisaFields(f: Fields)
    requires MapCisa(Obj(f)).Ok?
    ensures var item := MapCisa(Obj(f)).value;
            var cve := Or(Lookup(f, "cveID"), Lookup(f, "cve_id"));
            var date := Or(Lookup(f, "dateAdded"), Lookup(f, "date_added"));
            && (Truthy(cve) ==> item.title == cve && item.link == CisaSearch + PyStr(cve))
            && (!Truthy(cve) && Truthy(Lookup(f, "vendorProject")) ==> item.title == Lookup(f, "vendorProject"))
            && (!Truthy(cve) && !Truthy(Lookup(f, "vendorProject")) ==> item.title == Str("CISA KEV"))
            && (!Truthy(cve) ==> item.link == CisaCatalog)
            && (date.Str? && Truthy(date) ==> item.date == Str(date.s[..if |date.s| < 10 then |date.s| else 10]))
            && (!Truthy(date) ==> item.date == Str(""))
  {
  }

  /** `obj.get(key, {}).get(sub)` on an NVD entry; None for the AttributeError of a non-object. */
  function NestedGet(obj: Value, key: string, sub: string): (r: Option<Value>)
    ensures r.Some? ==> obj.Obj?
  {
    if !obj.Obj? then None
    else
      var inner := GetOr(obj.fields, key, Obj([]));
      if inner.Obj? then Some(Lookup(inner.fields, sub)) else None
  }

  /** Mapping one NVD entry. */
  function MapNvd(obj: Value): (r: Result<KevItem, FeedError>)
    ensures r.Ok? ==> obj.Obj?
  {
    match NestedGet(obj, "cve", "id")
    case None => Err(MappingFailed)
    case Some(id) =>
      var cve := Or(id, Str(""));
      match NestedGet(obj, "cve", "published")
      case None => Err(MappingFailed)
      case Some(published) =>
        match SliceTo(Or(published, Str("")), 10)
        case None => Err(MappingFailed)
        case Some(date) =>
          Ok(KevItem(Or(cve, Str("NVD hasKev")), date, if Truthy(cve) then NvdDetail + PyStr(cve) else NvdHome))
  }

  /** An NVD entry's title is its id or "NVD hasKev", its link the detail page of the id or the NVD home page. */
  lemma MapNvdFields(obj: Value)
    requires MapNvd(obj).Ok?
    ensures var item := MapNvd(obj).value;
            var id := NestedGet(obj, "cve", "id").value;
            && (Truthy(id) ==> item.title == id && item.link == NvdDetail + PyStr(id))
            && (!Truthy(id) ==> item.title == Str("NVD hasKev") && item.link == NvdHome)
  {
  }

  /** Which feed a mapping applies to. */
  datatype Feed = Cisa | Nvd

  function MapEntry(feed: Feed, v: Value): Result<KevItem, FeedError>
  {
    match feed
    case Cisa => MapCisa(v)
    case Nvd => MapNvd(v)
  }

  /** Each entry mapped on its own, in order. */
  function EntryResults(feed: Feed, vs: seq<Value>): (rs: seq<Result<KevItem, FeedError>>)
    ensures |rs| == |vs| && forall k :: 0 <= k < |vs| ==> rs[k] == MapEntry(feed, vs[k])
  {
    seq(|vs|, k requires 0 <= k < |vs| => MapEntry(feed, vs[k]))
  }

  /** All the mapped items in order, or the first error among them. */
  function Collect(rs: seq<Result<KevItem, FeedError>>): (r: Result<seq<KevItem>, FeedError>)
    ensures r.Ok? ==> |r.value| == |rs|
  {
    if rs == [] then Ok([])
    else
      var init :- Collect(rs[..|rs| - 1]);
      var last :- rs[|rs| - 1];
      Ok(init + [last])
  }

  lemma CollectSnoc(rs: seq<Result<KevItem, FeedError>>, i: nat)
    requires i < |rs| && Collect(rs[..i]).Ok?
    ensures rs[i].Ok? ==> Collect(rs[..i + 1]) == Ok(Collect(rs[..i]).value + [rs[i].value])
    ensures rs[i].Err? ==> Collect(rs[..i + 1]) == Err(rs[i].error)
  {
    assert rs[..i + 1][..i] == rs[..i];
    assert rs[..i + 1][i] == rs[i];
  }

  lemma {:induction false} CollectErrorStays(rs: seq<Result<KevItem, FeedError>>, i: nat)
    requires i <= |rs| && Collect(rs[..i]).Err?
    ensures Collect(rs) == Collect(rs[..i])
    decreases |rs| - i
  {
    if i < |rs| {
      assert rs[..i + 1][..i] == rs[..i];
      CollectErrorStays(rs, i + 1);
    } else {
      assert rs[..i] == rs;
    }
  }

  /** The list comprehension over the entries: every entry mapped, in order, or the first exception. */
  function MapEntries(feed: Feed, vs: seq<Value>): (r: Result<seq<KevItem>, FeedError>)
    ensures r.Ok? ==> |r.value| == |vs|
  {
    Collect(EntryResults(feed, vs))
  }

  lemma MapEntriesSnoc(feed: Feed, vs: seq<Value>, i: nat)
    requires i < |vs| && MapEntries(feed, vs[..i]).Ok?
    ensures MapEntry(feed, vs[i]).Ok? ==>
              MapEntries(feed, vs[..i + 1]) == Ok(MapEntries(feed, vs[..i]).value + [MapEntry(feed, vs[i]).value])
    ensures MapEntry(feed, vs[i]).Err? ==> MapEntries(feed, vs[..i + 1]) == Err(MapEntry(feed, vs[i]).error)
  {
    var rs := EntryResults(feed, vs);
    assert EntryResults(feed, vs[..i + 1]) == rs[..i + 1];
    assert EntryResults(feed, vs[..i]) == rs[..i];
    CollectSnoc(rs, i);
  }

  lemma MapEntriesErrorStays(feed: Feed, vs: seq<Value>, i: nat)
    requires i <= |vs| && MapEntries(feed, vs[..i]).Err?
    ensures MapEntries(feed, vs) == MapEntries(feed, vs[..i])
  {
    var rs := EntryResults(feed, vs);
    assert EntryResults(feed, vs[..i]) == rs[..i];
    CollectErrorStays(rs, i);
  }

  /** The `for` loop that appends one mapped entry per element. */
  method MapLoop(feed: Feed, vs: seq<Value>) returns (r: Result<seq<KevItem>, FeedError>)
    ensures r == MapEntries(feed, vs)
  {
    var items: seq<KevItem> := [];
    var i := 0;
    while i < |vs|
      invariant 0 <= i <= |vs|
      invariant MapEntries(feed, vs[..i]) == Ok(items)
    {
      var item := MapEntry(feed, vs[i]);
      MapEntriesSnoc(feed, vs, i);
      if item.Err? {
        MapEntriesErrorStays(feed, vs, i + 1);
        return Err(item.error);
      }
      items := items + [item.value];
      i := i + 1;
    }
    assert vs[..i] == vs;
    return Ok(items);
  }

  /** The entry list of a payload: CISA reads either key with `or`, NVD reads one key with a default. */
  function EntryList(feed: Feed, data: Value): Option<Value>
  {
    if !data.Obj? then None
    else
      var f := data.fields;
      match feed
      case Cisa => Some(Or(Or(Lookup(f, "vulnerabilities"), Lookup(f, "known_exploited_vulnerabilities")), List([])))
      case Nvd => Some(GetOr(f, "vulnerabilities", List([])))
  }

  /** One attempt at a feed: fetch, take the entry list, cut it to `limit`, map every entry. */
  function Attempt(feed: Feed, url: string, response: FeedResponse, limit: int): (r: Result<seq<KevItem>, FeedError>)
    ensures r.Ok? && limit >= 0 ==> |r.value| <= limit
    ensures GetJson(url, response).Err? ==> r == Err(GetJson(url, response).error)
  {
    var data :- GetJson(url, response);
    var entries :- EntryList(feed, data).ToResult(MappingFailed);
    var cut :- SliceTo(entries, limit).ToResult(MappingFailed);
    MapEntries(feed, Elements(cut))
  }

  /** One attempt as the code runs it: `_get_json`, the entry list, the slice, then the mapping loop. */
  method AttemptFeed(feed: Feed, url: string, response: FeedResponse, limit: int)
    returns (r: Result<seq<KevItem>, FeedError>)
    ensures r == Attempt(feed, url, response, limit)
  {
    var data := GetJson(url, response);
    if data.Err? {
      return Err(data.error);
    }
    var entries := EntryList(feed, data.value);
    if entries.None? {
      return Err(MappingFailed);
    }
    var cut := SliceTo(entries.value, limit);
    if cut.None? {
      return Err(MappingFailed);
    }
    r := MapLoop(feed, Elements(cut.value));
  }

  /** The source tag. */
  datatype Tag = CisaJson | NvdHasKev | Fallback | FallbackAfter(error: FeedError)

  function TagText(t: Tag, mappingErrorText: string): string
  {
    match t
    case CisaJson => "cisa_json"
    case NvdHasKev => "nvd_hasKev"
    case Fallback => "fallback"
    case FallbackAfter(e) => "fallback: " + ErrorText(e, mappingErrorText)
  }

  /** What the function returns, and how many 0.2 s pauses it took. */
  datatype KevResult = KevResult(items: seq<KevItem>, tag: Tag, pauses: nat)

  /** What one feed attempt returned. */
  type AttemptResult = Result<seq<KevItem>, FeedError>

  /** The NVD stage, given what the NVD attempt returned: its items, else the placeholder. */
  function Settle(nvd: AttemptResult, lastErr: Option<FeedError>, pauses: nat): (r: KevResult)
    ensures r.items != []
  {
    match nvd
    case Ok(items) =>
      if items != [] then KevResult(items, NvdHasKev, pauses)
      else KevResult([Placeholder], if lastErr.Some? then FallbackAfter(lastErr.value) else Fallback, pauses)
    case Err(e) => KevResult([Placeholder], FallbackAfter(e), pauses)
  }

  /** Where the loop over the CISA URLs ends: with the first non-empty result, or with every URL tried. */
  datatype CisaStage = Found(items: seq<KevItem>, pauses: nat) | Exhausted(lastErr: Option<FeedError>, pauses: nat)

  /** The loop over the CISA URLs from attempt `i` on, given what each attempt returned. */
  function CisaFrom(cisa: seq<AttemptResult>, i: nat, lastErr: Option<FeedError>, pauses: nat): (st: CisaStage)
    requires i <= |cisa|
    ensures st.Found? ==> st.items != []
    decreases |cisa| - i
  {
    if i == |cisa| then Exhausted(lastErr, pauses)
    else
      match cisa[i]
      case Ok(items) =>
        if items != [] then Found(items, pauses)
        else CisaFrom(cisa, i + 1, lastErr, pauses)
      case Err(e) => CisaFrom(cisa, i + 1, Some(e), pauses + 1)
  }

  /** The whole cascade: CISA items if any URL gave some, else the NVD stage. */
  function Cascade(cisa: seq<AttemptResult>, nvd: AttemptResult, i: nat, lastErr: Option<FeedError>, pauses: nat)
    : (r: KevResult)
    requires i <= |cisa|
    ensures r.items != []
  {
    match CisaFrom(cisa, i, lastErr, pauses)
    case Found(items, p) => KevResult(items, CisaJson, p)
    case Exhausted(e, p) => Settle(nvd, e, p)
  }

  /** The attempt against each CISA URL, with its response. */
  function CisaAttempts(urls: seq<string>, cisa: seq<FeedResponse>, limit: int): (rs: seq<AttemptResult>)
    requires |cisa| == |urls|
    ensures |rs| == |urls|
  {
    seq(|urls|, k requires 0 <= k < |urls| => Attempt(Cisa, urls[k], cisa[k], limit))
  }

  /** The CISA loop from URL `i` on: the specification of FetchKevItems. */
  function FromCisa(urls: seq<string>, cisa: seq<FeedResponse>, nvd: FeedResponse, limit: int,
                    i: nat, lastErr: Option<FeedError>, pauses: nat): (r: KevResult)
    requires |cisa| == |urls| && i <= |urls|
    ensures r.items != []
  {
    Cascade(CisaAttempts(urls, cisa, limit), Attempt(Nvd, NvdUrl, nvd, limit), i, lastErr, pauses)
  }

  /** `fetch_kev_items(limit)` over the configured URLs. */
  function KevItems(cisa: seq<FeedResponse>, nvd: FeedResponse, limit: int): KevResult
    requires |cisa| == |CisaUrls|
  {
    FromCisa(CisaUrls, cisa, nvd, limit, 0, None, 0)
  }

  /**
   * `fetch_kev_items`: the loop over the CISA URLs (one response each), then
   * NVD, then the placeholder. `pauses` counts the `time.sleep(0.2)` calls.
   */
  method FetchKevItems(urls: seq<string>, cisa: seq<FeedResponse>, nvd: FeedResponse, limit: int)
    returns (items: seq<KevItem>, tag: Tag, pauses: nat)
    requires |cisa| == |urls|
    ensures KevResult(items, tag, pauses) == FromCisa(urls, cisa, nvd, limit, 0, None, 0)
  {
    ghost var rs := CisaAttempts(urls, cisa, limit);
    ghost var stage := CisaFrom(rs, 0, None, 0);
    var lastErr: Option<FeedError> := None;
    pauses := 0;
    var i := 0;
    while i < |urls|
      invariant 0 <= i <= |urls|
      invariant stage == CisaFrom(rs, i, lastErr, pauses)
    {
      var got := AttemptFeed(Cisa, urls[i], cisa[i], limit);
      assert got == rs[i];
      if got.Ok? {
        if got.value != [] {
          return got.value, CisaJson, pauses;
        }
      } else {
        lastErr := Some(got.error);
        pauses := pauses + 1;
      }
      i := i + 1;
    }
    var got := AttemptFeed(Nvd, NvdUrl, nvd, limit);
    if got.Ok? && got.value != [] {
      return got.value, NvdHasKev, pauses;
    }
    if got.Err? {
      lastErr := Some(got.error);
    }
    items := [Placeholder];
    tag := if lastErr.Some? then FallbackAfter(lastErr.value) else Fallback;
  }

  /** Items found by the CISA loop come from one attempt; an exhausted loop with no error saw no error. */
  lemma {:induction false} CisaFromShape(cisa: seq<AttemptResult>, limit: int, i: nat, lastErr: Option<FeedError>, pauses: nat)
    requires i <= |cisa|
    requires forall k :: 0 <= k < |cisa| && cisa[k].Ok? && limit >= 0 ==> |cisa[k].value| <= limit
    ensures var st := CisaFrom(cisa, i, lastErr, pauses);
            && (st.Found? && limit >= 0 ==> |st.items| <= limit)
            && (st.Exhausted? && st.lastErr.None? ==> lastErr.None? && st.pauses == pauses)
    decreases |cisa| - i
  {
    if i < |cisa| {
      match cisa[i]
      case Ok(_) => CisaFromShape(cisa, limit, i + 1, lastErr, pauses);
      case Err(e) => CisaFromShape(cisa, limit, i + 1, Some(e), pauses + 1);
    }
  }

  /** The result is never empty; the placeholder comes exactly with a fallback tag, and alone. */
  lemma FromCisaShape(urls: seq<string>, cisa: seq<FeedResponse>, nvd: FeedResponse, limit: int,
                      i: nat, lastErr: Option<FeedError>, pauses: nat)
    requires |cisa| == |urls| && i <= |urls|
    ensures var r := FromCisa(urls, cisa, nvd, limit, i, lastErr, pauses);
            && r.items != []
            && (r.tag.Fallback? || r.tag.FallbackAfter? ==> r.items == [Placeholder])
            && ((r.tag.CisaJson? || r.tag.NvdHasKev?) && limit >= 0 ==> |r.items| <= limit)
            && (r.tag.Fallback? ==> lastErr.None? && r.pauses == pauses)
  {
    var rs := CisaAttempts(urls, cisa, limit);
    forall k | 0 <= k < |rs| && rs[k].Ok? && limit >= 0
      ensures |rs[k].value| <= limit
    {
      assert rs[k] == Attempt(Cisa, urls[k], cisa[k], limit);
    }
    CisaFromShape(rs, limit, i, lastErr, pauses);
  }

  /**
   * NVD is consulted only when no CISA URL produced items, and a pause follows
   * exactly the CISA attempts that raised (an empty result gives none).
   */
  lemma {:induction false} CisaFromEmpty(cisa: seq<AttemptResult>, i: nat, lastErr: Option<FeedError>, pauses: nat)
    requires i <= |cisa|
    requires forall k :: i <= k < |cisa| ==> cisa[k] == Ok([])
    ensures CisaFrom(cisa, i, lastErr, pauses) == Exhausted(lastErr, pauses)
    decreases |cisa| - i
  {
    if i < |cisa| {
      CisaFromEmpty(cisa, i + 1, lastErr, pauses);
    }
  }

  /** When every CISA URL raises, NVD decides, after one pause per URL, with the last CISA error remembered. */
  lemma {:induction false} CisaFromAllRaise(cisa: seq<AttemptResult>, i: nat, lastErr: Option<FeedError>, pauses: nat)
    requires i < |cisa|
    requires forall k :: i <= k < |cisa| ==> cisa[k].Err?
    ensures CisaFrom(cisa, i, lastErr, pauses) == Exhausted(Some(cisa[|cisa| - 1].error), pauses + (|cisa| - i))
    decreases |cisa| - i
  {
    if i + 1 < |cisa| {
      CisaFromAllRaise(cisa, i + 1, Some(cisa[i].error), pauses + 1);
    }
  }

  /** A CISA attempt with items wins without consulting NVD. */
  lemma CisaFirst(cisa: seq<FeedResponse>, nvd: FeedResponse, limit: int)
    requires |cisa| == |CisaUrls|
    requires var a := Attempt(Cisa, CisaUrls[0], cisa[0], limit); a.Ok? && a.value != []
    ensures KevItems(cisa, nvd, limit) == KevResult(Attempt(Cisa, CisaUrls[0], cisa[0], limit).value, CisaJson, 0)
  {
  }

  /** A 403 from CISA and a 404 from NVD: the placeholder, tagged with the NVD error's text. */
  lemma BothBlocked(body: Result<Value, string>, limit: int)
    ensures var r := KevItems([Reply(403, "Forbidden", body)], Reply(404, "Not Found", body), limit);
            && r.items == [Placeholder] && r.tag == FallbackAfter(Blocked(404, NvdUrl)) && r.pauses == 1
            && TagText(r.tag, "") == "fallback: 404 for " + NvdUrl
  {
    var cisa := CisaAttempts(CisaUrls, [Reply(403, "Forbidden", body)], limit);
    assert cisa[0] == Err(Blocked(403, CisaUrls[0]));
    var nvd := Attempt(Nvd, NvdUrl, Reply(404, "Not Found", body), limit);
    assert nvd == Err(Blocked(404, NvdUrl));
    CisaFromAllRaise(cisa, 0, None, 0);
    NotFoundText(NvdUrl);
  }

  lemma NotFoundText(url: string)
    ensures TagText(FallbackAfter(Blocked(404, url)), "") == "fallback: 404 for " + url
  {
    assert IntToString(404) == "404";
  }
}
