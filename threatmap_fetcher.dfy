/**
 * The threat-map service entry point (`get_points`): configuration read
 * through `conf_get`, the limit and TTL clamps, a cache keyed by provider,
 * source and limit, and one call to the Cloudflare provider on a miss.
 *
 * The cache is an object holding a map from key to points; expiry is not
 * modelled (an entry, once set, stays).
 */
module ThreatmapFetcher {
  import opened Wrappers
  import opened Text
  import opened Json
  import opened ThreatmapConf
  import opened Cloudflare

  function Min(a: int, b: int): int
  {
    if a < b then a else b
  }

  /** `_safe_limit(raw, default, max_limit)`: a non-integer or a value below 1 becomes the default, then the cap applies. */
  function SafeLimit(raw: Value, default: int, maxLimit: int): (r: int)
    ensures r <= maxLimit
    ensures ToInt(raw).Some? && ToInt(raw).value >= 1 ==> r == Min(ToInt(raw).value, maxLimit)
    ensures ToInt(raw).None? || ToInt(raw).value < 1 ==> r == Min(default, maxLimit)
  {
    var value := if ToInt(raw).Some? then ToInt(raw).value else default;
    var value' := if value < 1 then default else value;
    Min(value', maxLimit)
  }

  /** With the defaults `get_points` passes, the limit lies in [1, 200]. */
  lemma SafeLimitRange(raw: Value)
    ensures 1 <= SafeLimit(raw, 50, 200) <= 200
  {
  }

  /** `_safe_ttl(raw, default)`: a non-integer or a value of at most 0 becomes the default. */
  function SafeTtl(raw: Value, default: int): (r: int)
    ensures ToInt(raw).Some? && ToInt(raw).value > 0 ==> r == ToInt(raw).value
    ensures ToInt(raw).None? || ToInt(raw).value <= 0 ==> r == default
    ensures default > 0 ==> r > 0
  {
    var value := if ToInt(raw).Some? then ToInt(raw).value else default;
    if value <= 0 then default else value
  }

  /** `f"threatmap:{provider_key}:{source or 'default'}:{limit}"`. */
  function CacheKey(providerKey: Value, source: Option<string>, limit: int): (key: string)
    ensures StartsWith(key, "threatmap:" + PyStr(providerKey) + ":" + OrText(source, "default") + ":")
  {
    "threatmap:" + PyStr(providerKey) + ":" + OrText(source, "default") + ":" + IntToString(limit)
  }

  /** Keys of different limits differ (the limit is the last field and has no ':'). */
  lemma CacheKeySeparatesLimits(providerKey: Value, source: Option<string>, m: nat, n: nat)
    requires CacheKey(providerKey, source, m) == CacheKey(providerKey, source, n)
    ensures m == n
  {
    var prefix := "threatmap:" + PyStr(providerKey) + ":" + OrText(source, "default") + ":";
    assert CacheKey(providerKey, source, m)[|prefix|..] == NatToString(m);
    assert CacheKey(providerKey, source, n)[|prefix|..] == NatToString(n);
    NatToStringInjective(m, n);
  }

  /** What `get_points` raises. */
  datatype PointsError =
    | ConfFailed(error: ConfError)  // from conf_get
    | UnhashableProvider            // `PROVIDERS.get` with a list or dict key

  /** The outcome of one call: the result, the cache afterwards, and the provider request (None: the provider was not called). */
  datatype PointsOutcome = PointsOutcome(
    result: Result<seq<Point>, PointsError>,
    entries: map<string, seq<Point>>,
    called: bool,
    request: Option<RadarRequest>)

  /** `get_points(source)`: the specification of GetPoints. */
  function PointsSpec(entries: map<string, seq<Point>>, threatmap: Option<Value>, source: Option<string>,
                      token: Option<string>, response: RadarResponse, floatOk: string -> bool): (o: PointsOutcome)
    ensures !o.called ==> o.entries == entries && o.request.None?
  {
    var providerKey := ConfGet("PROVIDER", threatmap);
    var ttlRaw := ConfGet("CACHE_SECONDS", threatmap);
    var limitRaw := ConfGet("POINT_LIMIT", threatmap);
    if providerKey.Err? then PointsOutcome(Err(ConfFailed(providerKey.error)), entries, false, None)
    else if ttlRaw.Err? then PointsOutcome(Err(ConfFailed(ttlRaw.error)), entries, false, None)
    else if limitRaw.Err? then PointsOutcome(Err(ConfFailed(limitRaw.error)), entries, false, None)
    else PointsFrom(entries, providerKey.value, ttlRaw.value, limitRaw.value, source, token, response, floatOk)
  }

  /** `get_points` once the three settings have been read. */
  function PointsFrom(entries: map<string, seq<Point>>, providerKey: Value, ttlRaw: Value, limitRaw: Value,
                      source: Option<string>, token: Option<string>, response: RadarResponse,
                      floatOk: string -> bool): (o: PointsOutcome)
    ensures !o.called ==> o.entries == entries && o.request.None?
  {
    if !Truthy(providerKey) then PointsOutcome(Ok([]), entries, false, None)
    else
      var ttl := SafeTtl(ttlRaw, 300);
      var limit := SafeLimit(limitRaw, 50, 200);
      var key := CacheKey(providerKey, source, limit);
      if key in entries then PointsOutcome(Ok(entries[key]), entries, false, None)
      else if providerKey.List? || providerKey.Obj? then PointsOutcome(Err(UnhashableProvider), entries, false, None)
      else if providerKey != Str("cloudflare") then PointsOutcome(Ok([]), entries, false, None)
      else
        var fetched := FetchSpec(token, limit, source, response, floatOk);
        PointsOutcome(Ok(fetched.points), if ttl > 0 then entries[key := fetched.points] else entries, true, fetched.request)
  }

  /** The cache `get_points` reads and writes. */
  class PointCache {
    var entries: map<string, seq<Point>>

    constructor()
      ensures entries == map[]
    {
      entries := map[];
    }
  }

  /**
   * `get_points(source)` against the cache. The registry's provider is built
   * without a token, so it holds CLOUDFLARE_API_TOKEN (`tokenEnv`); the Radar
   * response is an input.
   */
  method GetPoints(cache: PointCache, threatmap: Option<Value>, source: Option<string>, tokenEnv: Option<string>,
                   response: RadarResponse, floatOk: string -> bool)
    returns (result: Result<seq<Point>, PointsError>, called: bool, request: Option<RadarRequest>)
    modifies cache
    ensures var o := PointsSpec(old(cache.entries), threatmap, source, ProviderToken(None, tokenEnv), response, floatOk);
            result == o.result && cache.entries == o.entries && called == o.called && request == o.request
  {
    called, request := false, None;
    var providerKey := ConfGet("PROVIDER", threatmap);
    var ttlRaw := ConfGet("CACHE_SECONDS", threatmap);
    var limitRaw := ConfGet("POINT_LIMIT", threatmap);
    if providerKey.Err? {
      return Err(ConfFailed(providerKey.error)), called, request;
    }
    if ttlRaw.Err? {
      return Err(ConfFailed(ttlRaw.error)), called, request;
    }
    if limitRaw.Err? {
      return Err(ConfFailed(limitRaw.error)), called, request;
    }
    if !Truthy(providerKey.value) {
      return Ok([]), called, request;
    }
    var ttl := SafeTtl(ttlRaw.value, 300);
    var limit := SafeLimit(limitRaw.value, 50, 200);
    var key := CacheKey(providerKey.value, source, limit);
    if key in cache.entries {
      return Ok(cache.entries[key]), called, request;
    }
    if providerKey.value.List? || providerKey.value.Obj? {
      return Err(UnhashableProvider), called, request;
    }
    if providerKey.value != Str("cloudflare") {
      return Ok([]), called, request;
    }
    var token := ProviderToken(None, tokenEnv);
    var points;
    points, request := FetchPoints(token, limit, source, response, floatOk);
    called := true;
    if ttl > 0 {
      cache.entries := cache.entries[key := points];
    }
    return Ok(points), called, request;
  }

  /** A settings error is raised before the cache or the provider is consulted. */
  lemma ConfErrorFirst(entries: map<string, seq<Point>>, threatmap: Option<Value>, source: Option<string>,
                       token: Option<string>, response: RadarResponse, floatOk: string -> bool)
    requires threatmap.Some? && Truthy(threatmap.value) && !threatmap.value.Obj?
    ensures PointsSpec(entries, threatmap, source, token, response, floatOk)
            == PointsOutcome(Err(ConfFailed(BlockNotADict)), entries, false, None)
  {
    KnownNames("PROVIDER");
    ConfGetKnown("PROVIDER", threatmap);
  }

  /** With valid settings, `get_points` is PointsFrom on the three values read. */
  lemma SettingsRead(entries: map<string, seq<Point>>, threatmap: Option<Value>, source: Option<string>,
                     token: Option<string>, response: RadarResponse, floatOk: string -> bool)
    requires threatmap.None? || threatmap.value.Obj? || !Truthy(threatmap.value)
    ensures ConfGet("PROVIDER", threatmap).Ok? && ConfGet("CACHE_SECONDS", threatmap).Ok? && ConfGet("POINT_LIMIT", threatmap).Ok?
    ensures PointsSpec(entries, threatmap, source, token, response, floatOk)
            == PointsFrom(entries, ConfGet("PROVIDER", threatmap).value, ConfGet("CACHE_SECONDS", threatmap).value,
                          ConfGet("POINT_LIMIT", threatmap).value, source, token, response, floatOk)
  {
    KnownNames("PROVIDER");
    KnownNames("CACHE_SECONDS");
    KnownNames("POINT_LIMIT");
  }

  /** A falsy provider name returns [] without touching the cache or the provider. */
  lemma FalsyProvider(entries: map<string, seq<Point>>, providerKey: Value, ttlRaw: Value, limitRaw: Value,
                      source: Option<string>, token: Option<string>, response: RadarResponse, floatOk: string -> bool)
    requires !Truthy(providerKey)
    ensures PointsFrom(entries, providerKey, ttlRaw, limitRaw, source, token, response, floatOk)
            == PointsOutcome(Ok([]), entries, false, None)
  {
  }

  /** A cache hit is returned as stored; the provider is not called and nothing is written. */
  lemma CacheHit(entries: map<string, seq<Point>>, providerKey: Value, ttlRaw: Value, limitRaw: Value,
                 source: Option<string>, token: Option<string>, response: RadarResponse, floatOk: string -> bool)
    requires Truthy(providerKey)
    requires CacheKey(providerKey, source, SafeLimit(limitRaw, 50, 200)) in entries
    ensures PointsFrom(entries, providerKey, ttlRaw, limitRaw, source, token, response, floatOk)
            == PointsOutcome(Ok(entries[CacheKey(providerKey, source, SafeLimit(limitRaw, 50, 200))]), entries, false, None)
  {
  }

  /**
   * On a miss with the "cloudflare" provider, the provider is called once, with
   * the clamped limit and the source; its points are stored under the key
   * (the TTL is always positive) and returned.
   */
  lemma CacheMissFetches(entries: map<string, seq<Point>>, ttlRaw: Value, limitRaw: Value,
                         source: Option<string>, token: Option<string>, response: RadarResponse, floatOk: string -> bool)
    requires CacheKey(Str("cloudflare"), source, SafeLimit(limitRaw, 50, 200)) !in entries
    ensures var limit := SafeLimit(limitRaw, 50, 200);
            var fetched := FetchSpec(token, limit, source, response, floatOk);
            var o := PointsFrom(entries, Str("cloudflare"), ttlRaw, limitRaw, source, token, response, floatOk);
            && 1 <= limit <= 200
            && o.called && o.request == fetched.request
            && o.result == Ok(fetched.points)
            && o.entries == entries[CacheKey(Str("cloudflare"), source, limit) := fetched.points]
  {
    SafeLimitRange(limitRaw);
  }

  /** The provider is called only on a miss for "cloudflare". */
  lemma CalledOnlyOnMiss(entries: map<string, seq<Point>>, providerKey: Value, ttlRaw: Value, limitRaw: Value,
                         source: Option<string>, token: Option<string>, response: RadarResponse, floatOk: string -> bool)
    requires PointsFrom(entries, providerKey, ttlRaw, limitRaw, source, token, response, floatOk).called
    ensures providerKey == Str("cloudflare")
    ensures CacheKey(providerKey, source, SafeLimit(limitRaw, 50, 200)) !in entries
  {
  }

  /** A provider name other than "cloudflare" that misses the cache returns [] and writes nothing. */
  lemma UnknownProvider(entries: map<string, seq<Point>>, providerKey: Value, ttlRaw: Value, limitRaw: Value,
                        source: Option<string>, token: Option<string>, response: RadarResponse, floatOk: string -> bool)
    requires Truthy(providerKey) && !providerKey.List? && !providerKey.Obj? && providerKey != Str("cloudflare")
    requires CacheKey(providerKey, source, SafeLimit(limitRaw, 50, 200)) !in entries
    ensures PointsFrom(entries, providerKey, ttlRaw, limitRaw, source, token, response, floatOk)
            == PointsOutcome(Ok([]), entries, false, None)
  {
  }
}
