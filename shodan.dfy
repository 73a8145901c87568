/**
 * The Shodan host lookup: the API-key check, the IP-literal pass-through of
 * host resolution, and the bounded retry loop with exponential back-off on
 * 429 and a fixed one-second wait on transport errors. Each attempt's HTTP
 * outcome and the DNS answer are inputs; sleeps are returned as the list of
 * waits the loop asked for.
 */
module Shodan {
  import opened Wrappers
  import opened Text
  import opened Json

  /** Why `fetch_host` raises ShodanError. */
  datatype ShodanError =
    | NotConfigured
    | ResolutionFailed
    | ApiError(status: int)
    | NetworkFailure

  /** One HTTP attempt: a status with a body (None when it is not JSON), or a transport error. */
  datatype Attempt = Reply(status: int, body: Option<Value>) | TransportError

  /**
   * What `fetch_host` does: no data (404, or a loop that never ran), the host
   * JSON, a ShodanError, or another exception (a non-dict body the `ip_str`
   * enrichment trips over).
   */
  datatype FetchResult = NoData | Host(data: Value) | Raised(error: ShodanError) | Crashed

  /** The result, the waits (seconds) slept between attempts, and the number of requests sent. */
  datatype Outcome = Outcome(result: FetchResult, waits: seq<nat>, requests: nat)

  /** The key: Django settings first, the environment when the setting is unset or empty. */
  function ApiKey(settingsKey: Option<string>, envKey: Option<string>): (key: Option<string>)
    ensures settingsKey.Some? && settingsKey.value != "" ==> key == settingsKey
    ensures (settingsKey.None? || settingsKey.value == "") ==> key == envKey
  {
    if settingsKey.Some? && settingsKey.value != "" then settingsKey else envKey
  }

  /** `_resolve_to_ip`: an IP literal is used unchanged; anything else goes to DNS (None = failure). */
  function ResolveToIp(target: string, isIpLiteral: bool, dns: Option<string>): (r: Result<string, ShodanError>)
    ensures isIpLiteral ==> r == Ok(target)
    ensures !isIpLiteral && dns.None? ==> r == Err(ResolutionFailed)
    ensures !isIpLiteral && dns.Some? ==> r == Ok(dns.value)
  {
    if isIpLiteral then Ok(target)
    else if dns.Some? then Ok(dns.value)
    else Err(ResolutionFailed)
  }

  function Pow2(n: nat): (p: nat)
    ensures p >= 1
  {
    if n == 0 then 1 else 2 * Pow2(n - 1)
  }

  /**
   * The `ip_str` convenience key: added as `str(ip)` when missing and `ip` is
   * present. A body that is not an object either passes through or, where the
   * `in` test or the subscript has no meaning for it, raises.
   */
  function Enrich(data: Value): (r: FetchResult)
    ensures data.Obj? ==> r.Host? && r.data.Obj?
  {
    match data
    case Obj(fields) =>
      if !HasKey(fields, "ip_str") && HasKey(fields, "ip") then
        Host(Obj(Put(fields, "ip_str", Str(PyStr(Lookup(fields, "ip"))))))
      else Host(data)
    case List(items) => if Str("ip_str") !in items && Str("ip") in items then Crashed else Host(data)
    case Str(s) => if !Contains(s, "ip_str") && Contains(s, "ip") then Crashed else Host(data)
    case _ => Crashed
  }

  /** Enrichment changes no key but `ip_str`, and `ip_str` afterwards is present whenever `ip` is. */
  lemma EnrichKeepsOtherKeys(fields: Fields, key: string)
    ensures var r := Enrich(Obj(fields)).data.fields;
            && (key != "ip_str" ==> Get(r, key) == Get(fields, key))
            && (HasKey(fields, "ip") ==> HasKey(r, "ip_str"))
            && (HasKey(fields, "ip_str") ==> Get(r, "ip_str") == Get(fields, "ip_str"))
            && (!HasKey(fields, "ip_str") && HasKey(fields, "ip") ==>
                  Get(r, "ip_str") == Some(Str(PyStr(Lookup(fields, "ip")))))
  {
    if !HasKey(fields, "ip_str") && HasKey(fields, "ip") {
      GetPut(fields, "ip_str", Str(PyStr(Lookup(fields, "ip"))), key);
      GetPut(fields, "ip_str", Str(PyStr(Lookup(fields, "ip"))), "ip");
    }
  }

  /** Prepends one wait and one request to the rest of the loop. */
  function After(wait: nat, rest: Outcome): Outcome
  {
    Outcome(rest.result, [wait] + rest.waits, rest.requests + 1)
  }

  /** What one pass of the loop body decides: retry after a wait, or leave the loop with a result. */
  datatype Decision = Retry(wait: nat) | Stop(result: FetchResult)

  /** The body of the loop for one attempt: the 404 return, the HTTPError and RequestException handlers. */
  function Classify(step: Attempt, attempt: nat, retries: int): (d: Decision)
    ensures d.Retry? ==> attempt < retries
    ensures d.Retry? ==> d.wait == 1 || d.wait == Pow2(attempt)
  {
    match step
    case Reply(status, body) =>
      if status == 404 then Stop(NoData)
      else if 400 <= status < 600 then
        if status == 429 && attempt < retries then Retry(Pow2(attempt))
        else Stop(Raised(ApiError(status)))
      else if body.None? then
        // an unparseable body raises a requests exception, handled like a transport error
        if attempt < retries then Retry(1) else Stop(Raised(NetworkFailure))
      else Stop(Enrich(body.value))
    case TransportError =>
      if attempt < retries then Retry(1) else Stop(Raised(NetworkFailure))
  }

  /** The `while attempt <= retries` loop from a given attempt on: the specification of RetryLoop. */
  function RetryFrom(respond: nat -> Attempt, retries: int, attempt: nat): (o: Outcome)
    ensures attempt > retries ==> o == Outcome(NoData, [], 0)
    ensures attempt <= retries ==> 1 <= o.requests <= retries - attempt + 1
    ensures attempt <= retries ==> |o.waits| == o.requests - 1
    decreases retries - attempt
  {
    if attempt > retries then Outcome(NoData, [], 0)
    else
      match Classify(respond(attempt), attempt, retries)
      case Retry(wait) => After(wait, RetryFrom(respond, retries, attempt + 1))
      case Stop(result) => Outcome(result, [], 1)
  }

  /** Every wait is 1 s (transport error) or 2^k s for the attempt k it follows (rate limit). */
  predicate BackoffWaits(waits: seq<nat>, first: nat)
  {
    forall k {:trigger waits[k]} :: 0 <= k < |waits| ==> waits[k] == 1 || waits[k] == Pow2(first + k)
  }

  lemma {:induction false} RetryWaits(respond: nat -> Attempt, retries: int, attempt: nat)
    ensures BackoffWaits(RetryFrom(respond, retries, attempt).waits, attempt)
    decreases retries - attempt
  {
    if attempt <= retries {
      RetryWaits(respond, retries, attempt + 1);
      var rest := RetryFrom(respond, retries, attempt + 1);
      var o := RetryFrom(respond, retries, attempt);
      var d := Classify(respond(attempt), attempt, retries);
      if d.Retry? {
        assert o == After(d.wait, rest);
        forall k | 0 <= k < |o.waits|
          ensures o.waits[k] == 1 || o.waits[k] == Pow2(attempt + k)
        {
          if k > 0 {
            assert o.waits[k] == rest.waits[k - 1];
          }
        }
      }
    }
  }

  /** A 404 ends the loop at once with no data. */
  lemma NotFoundStops(respond: nat -> Attempt, retries: int, attempt: nat)
    requires attempt <= retries && respond(attempt).Reply? && respond(attempt).status == 404
    ensures RetryFrom(respond, retries, attempt) == Outcome(NoData, [], 1)
  {
  }

  /** A persistently rate-limited host: retries + 1 requests, waits 1, 2, 4, ..., then a 429 error. */
  lemma {:induction false} AlwaysRateLimited(respond: nat -> Attempt, retries: int, attempt: nat)
    requires attempt <= retries
    requires forall k :: respond(k) == Reply(429, None)
    ensures var o := RetryFrom(respond, retries, attempt);
            && o.result == Raised(ApiError(429))
            && o.requests == retries - attempt + 1
            && forall k :: 0 <= k < |o.waits| ==> o.waits[k] == Pow2(attempt + k)
    decreases retries - attempt
  {
    if attempt < retries {
      AlwaysRateLimited(respond, retries, attempt + 1);
      var rest := RetryFrom(respond, retries, attempt + 1);
      var o := RetryFrom(respond, retries, attempt);
      assert o == After(Pow2(attempt), rest);
      forall k | 0 <= k < |o.waits|
        ensures o.waits[k] == Pow2(attempt + k)
      {
        if k > 0 {
          assert o.waits[k] == rest.waits[k - 1];
        }
      }
    }
  }

  /** A host that never answers: retries + 1 requests with one-second waits, then a network error. */
  lemma {:induction false} AlwaysUnreachable(respond: nat -> Attempt, retries: int, attempt: nat)
    requires attempt <= retries
    requires forall k :: respond(k) == TransportError
    ensures var o := RetryFrom(respond, retries, attempt);
            && o.result == Raised(NetworkFailure)
            && o.requests == retries - attempt + 1
            && forall k :: 0 <= k < |o.waits| ==> o.waits[k] == 1
    decreases retries - attempt
  {
    if attempt < retries {
      AlwaysUnreachable(respond, retries, attempt + 1);
      var rest := RetryFrom(respond, retries, attempt + 1);
      var o := RetryFrom(respond, retries, attempt);
      assert o == After(1, rest);
      forall k | 0 <= k < |o.waits|
        ensures o.waits[k] == 1
      {
        if k > 0 {
          assert o.waits[k] == rest.waits[k - 1];
        }
      }
    }
  }

  /** What `fetch_host` does overall: the specification of FetchHost. */
  function HostLookup(key: Option<string>, target: string, isIpLiteral: bool, dns: Option<string>,
                      retries: int, respond: nat -> Attempt): (o: Outcome)
    ensures key.None? || key.value == "" ==> o == Outcome(Raised(NotConfigured), [], 0)
    ensures key.Some? && key.value != "" && !isIpLiteral && dns.None? ==> o == Outcome(Raised(ResolutionFailed), [], 0)
    ensures o.requests <= if retries < 0 then 0 else retries + 1
  {
    if key.None? || key.value == "" then Outcome(Raised(NotConfigured), [], 0)
    else if ResolveToIp(target, isIpLiteral, dns).Err? then Outcome(Raised(ResolutionFailed), [], 0)
    else RetryFrom(respond, retries, 0)
  }

  /**
   * `fetch_host(target, retries=...)`: the key check, resolution, then the
   * retry loop. `ip` is the address that was queried (None when no request
   * was built).
   */
  method FetchHost(key: Option<string>, target: string, isIpLiteral: bool, dns: Option<string>,
                   retries: int, respond: nat -> Attempt)
    returns (o: Outcome, ip: Option<string>)
    ensures o == HostLookup(key, target, isIpLiteral, dns, retries, respond)
    ensures ip.Some? <==> key.Some? && key.value != "" && ResolveToIp(target, isIpLiteral, dns).Ok?
    ensures ip.Some? ==> ip.value == ResolveToIp(target, isIpLiteral, dns).value
  {
    if key.None? || key.value == "" {
      return Outcome(Raised(NotConfigured), [], 0), None;
    }
    var resolved := ResolveToIp(target, isIpLiteral, dns);
    if resolved.Err? {
      return Outcome(Raised(ResolutionFailed), [], 0), None;
    }
    ip := Some(resolved.value);
    o := RetryLoop(retries, respond);
  }

  /** The loop invariant: the whole outcome is the waits so far followed by the outcome from `attempt` on. */
  predicate Resumes(respond: nat -> Attempt, retries: int, attempt: nat, waits: seq<nat>)
  {
    var rest := RetryFrom(respond, retries, attempt);
    RetryFrom(respond, retries, 0) == Outcome(rest.result, waits + rest.waits, attempt + rest.requests)
  }

  lemma ResumesStep(respond: nat -> Attempt, retries: int, attempt: nat, waits: seq<nat>)
    requires attempt <= retries && Resumes(respond, retries, attempt, waits)
    requires Classify(respond(attempt), attempt, retries).Retry?
    ensures Resumes(respond, retries, attempt + 1, waits + [Classify(respond(attempt), attempt, retries).wait])
  {
    var w := Classify(respond(attempt), attempt, retries).wait;
    var rest := RetryFrom(respond, retries, attempt + 1);
    assert RetryFrom(respond, retries, attempt) == After(w, rest);
    assert waits + ([w] + rest.waits) == (waits + [w]) + rest.waits;
  }

  lemma ResumesStop(respond: nat -> Attempt, retries: int, attempt: nat, waits: seq<nat>)
    requires attempt <= retries && Resumes(respond, retries, attempt, waits)
    requires Classify(respond(attempt), attempt, retries).Stop?
    ensures RetryFrom(respond, retries, 0)
            == Outcome(Classify(respond(attempt), attempt, retries).result, waits, attempt + 1)
  {
    assert waits + [] == waits;
  }

  lemma ResumesEnd(respond: nat -> Attempt, retries: int, attempt: nat, waits: seq<nat>)
    requires attempt > retries && Resumes(respond, retries, attempt, waits)
    ensures RetryFrom(respond, retries, 0) == Outcome(NoData, waits, attempt)
  {
    assert waits + [] == waits;
  }

  /** The `while attempt <= retries` loop of `fetch_host`. */
  method RetryLoop(retries: int, respond: nat -> Attempt) returns (o: Outcome)
    ensures o == RetryFrom(respond, retries, 0)
  {
    var waits: seq<nat> := [];
    var attempt: nat := 0;
    while attempt <= retries
      invariant attempt == 0 || attempt <= retries
      invariant |waits| == attempt
      invariant Resumes(respond, retries, attempt, waits)
      decreases retries - attempt
    {
      var d := Classify(respond(attempt), attempt, retries);
      if d.Stop? {
        ResumesStop(respond, retries, attempt, waits);
        return Outcome(d.result, waits, attempt + 1);
      }
      ResumesStep(respond, retries, attempt, waits);
      waits := waits + [d.wait];
      attempt := attempt + 1;
    }
    ResumesEnd(respond, retries, attempt, waits);
    return Outcome(NoData, waits, attempt);
  }

  /** At most retries + 1 requests are sent, and none when retries is negative. */
  lemma RequestBound(respond: nat -> Attempt, retries: int)
    ensures retries < 0 ==> RetryFrom(respond, retries, 0).requests == 0
    ensures retries >= 0 ==> 1 <= RetryFrom(respond, retries, 0).requests <= retries + 1
  {
  }
}
