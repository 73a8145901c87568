/**
 * The Cloudflare Radar adapter of the threat map: the source-to-endpoint
 * table, the search for the rows array in a response, the control flow of
 * `fetch_points` (token check, query name, error and empty-result fallbacks,
 * the `limit` cut and the country filter) and the static fallback points.
 *
 * Coordinates, intensities, metrics, rounding and the random jitter are
 * floating-point work and are not part of the points modelled here; a point
 * keeps its country, layer and direction.
 */
module Cloudflare {
  import opened Wrappers
  import opened Text
  import opened Json

  const ApiBase := "https://api.cloudflare.com/client/v4/"

  /** The country codes with a centroid. */
  const Centroids: seq<string> := [
    "US", "CN", "RU", "BR", "IN", "GB", "DE", "JP", "FR", "CA", "AU",
    "KR", "NL", "IT", "ES", "TR", "MX", "SG", "SE", "NO", "PL"]

  /** `LAYER_URLS`: a source key to its endpoint path and the row field holding the country. */
  function LayerUrl(key: string): Option<(string, string)>
  {
    if key == "layer7_origin" then Some(("radar/attacks/layer7/top/locations/origin", "originCountryAlpha2"))
    else if key == "layer7_target" then Some(("radar/attacks/layer7/top/locations/target", "targetCountryAlpha2"))
    else if key == "layer3_origin" then Some(("radar/attacks/layer3/top/locations/origin", "originCountryAlpha2"))
    else if key == "layer3_target" then Some(("radar/attacks/layer3/top/locations/target", "targetCountryAlpha2"))
    else None
  }

  /** Python `s or ""` / `s or d` on an optional string. */
  function OrText(s: Option<string>, default: string): string
  {
    if s.Some? && s.value != "" then s.value else default
  }

  /** `_url_for(source)`: the full URL and the country field; no, empty or unknown sources use layer7_origin. */
  function UrlFor(source: Option<string>): (r: (string, string))
    ensures ApiBase <= r.0
    ensures LayerUrl(OrText(source, "layer7_origin")).None? ==>
              r == (ApiBase + "radar/attacks/layer7/top/locations/origin", "originCountryAlpha2")
    ensures LayerUrl(OrText(source, "layer7_origin")).Some? ==>
              r == (ApiBase + LayerUrl(OrText(source, "layer7_origin")).value.0,
                    LayerUrl(OrText(source, "layer7_origin")).value.1)
  {
    var entry := LayerUrl(OrText(source, "layer7_origin")).GetOr(LayerUrl("layer7_origin").value);
    (ApiBase + entry.0, entry.1)
  }

  /** The keys tried first, in order. */
  const RowKeys: seq<string> := ["attacks_origin", "attacks_target", "top_locations", "series", "data"]

  /** The list under the first of `keys[i..]` whose value is a list. */
  function FirstListUnder(fields: Fields, keys: seq<string>, i: nat): (r: Option<seq<Value>>)
    requires i <= |keys|
    ensures r.Some? <==> exists j :: i <= j < |keys| && Lookup(fields, keys[j]).List?
    ensures r.Some? ==> exists j :: i <= j < |keys| && Lookup(fields, keys[j]) == List(r.value)
                                    && forall k :: i <= k < j ==> !Lookup(fields, keys[k]).List?
    decreases |keys| - i
  {
    if i == |keys| then None
    else
      var v := Lookup(fields, keys[i]);
      if v.List? then Some(v.items) else FirstListUnder(fields, keys, i + 1)
  }

  /** The first value, in insertion order, that is a list. */
  function FirstListValue(fields: Fields): (r: Option<seq<Value>>)
    ensures r.Some? <==> exists j :: 0 <= j < |fields| && fields[j].1.List?
    ensures r.Some? ==> exists j :: 0 <= j < |fields| && fields[j].1 == List(r.value)
                                    && forall k :: 0 <= k < j ==> !fields[k].1.List?
  {
    if fields == [] then None
    else if fields[0].1.List? then Some(fields[0].1.items)
    else
      var r := FirstListValue(fields[1..]);
      assert forall j :: 1 <= j < |fields| ==> fields[j] == fields[1..][j - 1];
      r
  }

  /**
   * `_extract_rows(payload)`: the first list among the known keys of
   * `result`, else the first list value of `result`, else []. None is the
   * AttributeError of a payload or result that is truthy but not a dict.
   */
  function ExtractRows(payload: Value): (r: Option<seq<Value>>)
    ensures r.Some? <==> payload.Obj? && (Or(Lookup(payload.fields, "result"), Obj([]))).Obj?
  {
    if !payload.Obj? then None
    else
      var result := Or(Lookup(payload.fields, "result"), Obj([]));
      if !result.Obj? then None
      else
        match FirstListUnder(result.fields, RowKeys, 0)
        case Some(rows) => Some(rows)
        case None =>
          match FirstListValue(result.fields)
          case Some(rows) => Some(rows)
          case None => Some([])
  }

  /** The order of the search: a known key wins over any other list, and [] only when `result` holds no list. */
  lemma ExtractRowsOrder(payload: Value)
    requires ExtractRows(payload).Some?
    ensures var result := Or(Lookup(payload.fields, "result"), Obj([])).fields;
            && (FirstListUnder(result, RowKeys, 0).Some? ==> ExtractRows(payload) == FirstListUnder(result, RowKeys, 0))
            && (FirstListUnder(result, RowKeys, 0).None? && FirstListValue(result).Some? ==>
                  ExtractRows(payload) == FirstListValue(result))
            && (FirstListUnder(result, RowKeys, 0).None? && FirstListValue(result).None? ==>
                  ExtractRows(payload) == Some([]))
  {
  }

  /** A heat-map point, without its floating-point fields. */
  datatype Point = Point(country: string, layer: string, direction: string)

  /** `_fallback(source)`: four fixed points, relabelled by what the source names. */
  function FallbackPoints(source: Option<string>): (r: seq<Point>)
    ensures |r| == 4 && r[0].country == "US" && r[1].country == "CN" && r[2].country == "RU" && r[3].country == "IT"
    ensures forall k :: 0 <= k < 4 ==>
              (r[k].layer == "L3" <==> source.Some? && Contains(source.value, "layer3"))
              && (r[k].layer == "L3" || r[k].layer == "L7")
              && (r[k].direction == "target" <==> source.Some? && Contains(source.value, "target"))
              && (r[k].direction == "target" || r[k].direction == "origin")
  {
    var layer := if source.Some? && source.value != "" && Contains(source.value, "layer3") then "L3" else "L7";
    var direction := if source.Some? && source.value != "" && Contains(source.value, "target") then "target" else "origin";
    [Point("US", layer, direction), Point("CN", layer, direction),
     Point("RU", layer, direction), Point("IT", layer, direction)]
  }

  /** The sample as written, before relabelling. */
  const Sample: seq<Point> := [
    Point("US", "L7", "origin"), Point("CN", "L7", "origin"),
    Point("RU", "L7", "origin"), Point("IT", "L7", "origin")]

  /** `_fallback` as the code runs it: build the sample, then rewrite layer and direction in place. */
  method Fallback(source: Option<string>) returns (sample: seq<Point>)
    ensures sample == FallbackPoints(source)
  {
    sample := Sample;
    if source.Some? && source.value != "" && Contains(source.value, "layer3") {
      for i := 0 to |sample|
        invariant |sample| == 4
        invariant forall k :: 0 <= k < i ==> sample[k] == Sample[k].(layer := "L3")
        invariant forall k :: i <= k < 4 ==> sample[k] == Sample[k]
      {
        sample := sample[i := sample[i].(layer := "L3")];
      }
    }
    ghost var relabelled := sample;
    if source.Some? && source.value != "" && Contains(source.value, "target") {
      for i := 0 to |sample|
        invariant |sample| == 4
        invariant forall k :: 0 <= k < i ==> sample[k] == relabelled[k].(direction := "target")
        invariant forall k :: i <= k < 4 ==> sample[k] == relabelled[k]
      {
        sample := sample[i := sample[i].(direction := "target")];
      }
    }
  }

  /** The `name` query parameter. */
  function QueryName(source: Option<string>): (name: string)
    ensures Contains(OrText(source, ""), "origin") ==> name == "attacks_origin"
    ensures !Contains(OrText(source, ""), "origin") && Contains(OrText(source, ""), "target") ==> name == "attacks_target"
    ensures !Contains(OrText(source, ""), "target") ==> name == "attacks_origin"
  {
    var s := OrText(source, "");
    if Contains(s, "origin") then "attacks_origin"
    else if Contains(s, "target") then "attacks_target"
    else "attacks_origin"
  }

  /** `float(row.get("value") or 0)` does not raise; `floatOk` says which strings Python's `float` accepts. */
  predicate Measurable(row: Value, floatOk: string -> bool)
  {
    row.Obj? &&
    match Or(Lookup(row.fields, "value"), Int(0))
    case Int(_) => true
    case Bool(_) => true
    case Str(s) => floatOk(s)
    case _ => false
  }

  /** The `max(...)` over every row (not only the first `limit`) raises unless all rows are measurable. */
  predicate AllMeasurable(rows: seq<Value>, floatOk: string -> bool)
  {
    forall k :: 0 <= k < |rows| ==> Measurable(rows[k], floatOk)
  }

  /** What one row contributes: nothing for an unknown country, a point, or None for the AttributeError of a non-string code. */
  function RowPoint(row: Value, field: string, layer: string, direction: string): (r: Option<seq<Point>>)
    requires row.Obj?
    ensures r.Some? ==> |r.value| <= 1 && forall p :: p in r.value ==> p.country in Centroids && p.layer == layer && p.direction == direction
  {
    var code := Or(Lookup(row.fields, field), Str(""));
    if !code.Str? then None
    else
      var cc := Upper(code.s);
      if cc == "" || cc !in Centroids then Some([]) else Some([Point(cc, layer, direction)])
  }

  /** The `for row in rows[:limit]` loop, as a fold over the rows. */
  function LivePoints(rows: seq<Value>, field: string, layer: string, direction: string): (r: Option<seq<Point>>)
    requires forall k :: 0 <= k < |rows| ==> rows[k].Obj?
    ensures r.Some? ==> |r.value| <= |rows|
    ensures r.Some? ==> forall p :: p in r.value ==> p.country in Centroids && p.layer == layer && p.direction == direction
  {
    if rows == [] then Some([])
    else
      match LivePoints(rows[..|rows| - 1], field, layer, direction)
      case None => None
      case Some(init) =>
        match RowPoint(rows[|rows| - 1], field, layer, direction)
        case None => None
        case Some(p) => Some(init + p)
  }

  lemma LivePointsSnoc(rows: seq<Value>, field: string, layer: string, direction: string, i: nat)
    requires i < |rows| && forall k :: 0 <= k < |rows| ==> rows[k].Obj?
    ensures LivePoints(rows[..i], field, layer, direction).None? ==> LivePoints(rows[..i + 1], field, layer, direction).None?
    ensures LivePoints(rows[..i], field, layer, direction).Some? && RowPoint(rows[i], field, layer, direction).None? ==>
              LivePoints(rows[..i + 1], field, layer, direction).None?
    ensures LivePoints(rows[..i], field, layer, direction).Some? && RowPoint(rows[i], field, layer, direction).Some? ==>
              LivePoints(rows[..i + 1], field, layer, direction) ==
              Some(LivePoints(rows[..i], field, layer, direction).value + RowPoint(rows[i], field, layer, direction).value)
  {
    assert rows[..i + 1][..i] == rows[..i];
  }

  /** The loop itself: skip, append, or stop at the first raising row. */
  method CollectPoints(rows: seq<Value>, field: string, layer: string, direction: string)
    returns (points: Option<seq<Point>>)
    requires forall k :: 0 <= k < |rows| ==> rows[k].Obj?
    ensures points == LivePoints(rows, field, layer, direction)
  {
    var acc: seq<Point> := [];
    var i := 0;
    while i < |rows|
      invariant 0 <= i <= |rows|
      invariant LivePoints(rows[..i], field, layer, direction) == Some(acc)
    {
      var point := RowPoint(rows[i], field, layer, direction);
      LivePointsSnoc(rows, field, layer, direction, i);
      if point.None? {
        LivePointsNoneStays(rows, field, layer, direction, i + 1);
        return None;
      }
      acc := acc + point.value;
      i := i + 1;
    }
    assert rows[..i] == rows;
    return Some(acc);
  }

  lemma {:induction false} LivePointsNoneStays(rows: seq<Value>, field: string, layer: string, direction: string, i: nat)
    requires i <= |rows| && forall k :: 0 <= k < |rows| ==> rows[k].Obj?
    requires LivePoints(rows[..i], field, layer, direction).None?
    ensures LivePoints(rows, field, layer, direction).None?
    decreases |rows| - i
  {
    if i < |rows| {
      LivePointsSnoc(rows, field, layer, direction, i);
      LivePointsNoneStays(rows, field, layer, direction, i + 1);
    } else {
      assert rows[..i] == rows;
    }
  }

  /** One Radar GET: a transport failure, or a status and the decoded body (Err: the body is not JSON). */
  datatype RadarResponse = RadarNetFailure | RadarReply(status: int, body: Result<Value, string>)

  /** The request sent: URL and the query parameters that vary. */
  datatype RadarRequest = RadarRequest(url: string, name: string, limit: int)

  /** `response.json() or {}` after the `ok` check; None for the exception raised on the way. */
  function Payload(response: RadarResponse): Option<Value>
  {
    match response
    case RadarNetFailure => None
    case RadarReply(status, body) =>
      if 400 <= status < 600 || body.Err? then None else Some(Or(body.value, Obj([])))
  }

  /**
   * The token the provider holds, `token or CLOUDFLARE_API_TOKEN`: a usable
   * (non-empty) token exactly when either source gives one, the explicit one first.
   */
  function ProviderToken(explicit: Option<string>, env: Option<string>): (r: Option<string>)
    ensures (r.Some? && r.value != "") <==> (explicit.Some? && explicit.value != "") || (env.Some? && env.value != "")
    ensures explicit.Some? && explicit.value != "" ==> r == explicit
    ensures r.Some? && r.value != "" ==> r == explicit || r == env
  {
    if explicit.Some? && explicit.value != "" then explicit else env
  }

  function LayerOf(url: string): string
  {
    if Contains(url, "layer7") then "L7" else "L3"
  }

  function DirectionOf(url: string): string
  {
    if Contains(url, "origin") then "origin" else "target"
  }

  /** What `fetch_points` returns, and the request it sends (None: none sent). */
  datatype Fetched = Fetched(points: seq<Point>, request: Option<RadarRequest>)

  /** The live branch once rows are in hand: the cut to `limit`, the country filter, the empty fallback. */
  function FromRows(rows: seq<Value>, limit: int, source: Option<string>, floatOk: string -> bool): (r: seq<Point>)
  {
    var (url, field) := UrlFor(source);
    if rows == [] || !AllMeasurable(rows, floatOk) then FallbackPoints(source)
    else
      var cut := rows[..PrefixLength(|rows|, limit)];
      match LivePoints(cut, field, LayerOf(url), DirectionOf(url))
      case None => FallbackPoints(source)
      case Some(points) => if points == [] then FallbackPoints(source) else points
  }

  /** `fetch_points(limit, source)`: the specification of FetchPoints. */
  function FetchSpec(token: Option<string>, limit: int, source: Option<string>, response: RadarResponse,
                     floatOk: string -> bool): (r: Fetched)
  {
    if token.None? || token.value == "" then Fetched(FallbackPoints(source), None)
    else
      var request := RadarRequest(UrlFor(source).0, QueryName(source), limit);
      match Payload(response)
      case None => Fetched(FallbackPoints(source), Some(request))
      case Some(payload) =>
        match ExtractRows(payload)
        case None => Fetched(FallbackPoints(source), Some(request))
        case Some(rows) => Fetched(FromRows(rows, limit, source, floatOk), Some(request))
  }

  /**
   * `fetch_points`: every exception, an empty rows array and a result with no
   * mappable row all end in the fallback points.
   */
  method FetchPoints(token: Option<string>, limit: int, source: Option<string>, response: RadarResponse,
                     floatOk: string -> bool)
    returns (points: seq<Point>, request: Option<RadarRequest>)
    ensures Fetched(points, request) == FetchSpec(token, limit, source, response, floatOk)
  {
    var (url, field) := UrlFor(source);
    if token.None? || token.value == "" {
      points := Fallback(source);
      return points, None;
    }
    request := Some(RadarRequest(url, QueryName(source), limit));
    var payload := Payload(response);
    if payload.None? {
      points := Fallback(source);
      return;
    }
    var rows := ExtractRows(payload.value);
    if rows.None? {
      points := Fallback(source);
      return;
    }
    points := PointsFromRows(rows.value, limit, source, floatOk);
  }

  /** The live branch of `fetch_points` once the rows are in hand. */
  method PointsFromRows(rows: seq<Value>, limit: int, source: Option<string>, floatOk: string -> bool)
    returns (points: seq<Point>)
    ensures points == FromRows(rows, limit, source, floatOk)
  {
    var (url, field) := UrlFor(source);
    if rows == [] || !AllMeasurable(rows, floatOk) {
      points := Fallback(source);
      return;
    }
    var collected := CollectPoints(rows[..PrefixLength(|rows|, limit)], field, LayerOf(url), DirectionOf(url));
    if collected.None? || collected.value == [] {
      points := Fallback(source);
      return;
    }
    points := collected.value;
  }

  /**
   * The fallback ignores `limit`: without a token it always holds four points,
   * so a limit below four is exceeded.
   */
  lemma FallbackExceedsLimit(token: Option<string>, limit: int, source: Option<string>, response: RadarResponse,
                             floatOk: string -> bool)
    requires token.None? || token.value == ""
    ensures |FetchSpec(token, limit, source, response, floatOk).points| == 4
    ensures limit < 4 ==> |FetchSpec(token, limit, source, response, floatOk).points| > limit
  {
    NoTokenNoRequest(token, limit, source, response, floatOk);
  }

  /** Without a token no request is made and the fallback points come back. */
  lemma NoTokenNoRequest(token: Option<string>, limit: int, source: Option<string>, response: RadarResponse,
                         floatOk: string -> bool)
    requires token.None? || token.value == ""
    ensures FetchSpec(token, limit, source, response, floatOk) == Fetched(FallbackPoints(source), None)
  {
  }

  /**
   * Live points (those that are not the fallback) number at most `limit` and
   * at most the rows; each has a known country and the layer and direction
   * the URL names.
   */
  lemma LivePointsShape(rows: seq<Value>, limit: int, source: Option<string>, floatOk: string -> bool)
    requires FromRows(rows, limit, source, floatOk) != FallbackPoints(source)
    ensures var points := FromRows(rows, limit, source, floatOk);
            var url := UrlFor(source).0;
            && 0 < |points| <= |rows|
            && (limit >= 0 ==> |points| <= limit)
            && forall p :: p in points ==>
                 && p.country in Centroids
                 && (p.layer == "L7" <==> Contains(url, "layer7"))
                 && (p.direction == "origin" <==> Contains(url, "origin"))
  {
  }

  /** Empty rows, an unmeasurable row, or rows without a known country give the fallback. */
  lemma FallbackTriggers(rows: seq<Value>, limit: int, source: Option<string>, floatOk: string -> bool)
    ensures rows == [] ==> FromRows(rows, limit, source, floatOk) == FallbackPoints(source)
    ensures !AllMeasurable(rows, floatOk) ==> FromRows(rows, limit, source, floatOk) == FallbackPoints(source)
    ensures limit == 0 ==> FromRows(rows, limit, source, floatOk) == FallbackPoints(source)
  {
    if limit == 0 && rows != [] && AllMeasurable(rows, floatOk) {
      assert rows[..PrefixLength(|rows|, limit)] == [];
    }
  }
}
