/**
 * The reconciliation performed by the breaches views:
 *   - `scan_identity`: one HIBP lookup, then, for each returned record, name
 *     resolution, disambiguation of repeated names with " (n)" suffixes,
 *     and an upsert keyed by (identity, name) that counts created and
 *     updated rows;
 *   - `scan_target`: one Shodan lookup, port normalisation and an upsert
 *     keyed by IP.
 *
 * The batch is specified by `Run`, a left fold of `Step` over the items; the
 * methods on the database are proved to follow it, and the lemmas state what
 * a run guarantees.
 */
module BreachViews {
  import opened Wrappers
  import opened Text
  import opened Json
  import opened Models
  import opened Hibp
  import Shodan

  // ---------------------------------------------------------------------------
  // _safe_date
  // ---------------------------------------------------------------------------

  /**
   * `_safe_date` (the undecorated body): 'YYYY-MM-DD'-shaped text or None,
   * never "". Only the positions of the two dashes are checked.
   */
  function SafeDate(v: Value): (r: Option<string>)
    ensures r.Some? ==> |r.value| == 10 && r.value[4] == '-' && r.value[7] == '-'
    ensures r != Some("")
    ensures !Truthy(v) ==> r.None?
    ensures r.Some? ==> |Strip(PyStr(v))| >= 10 && Strip(PyStr(v))[..10] == r.value
  {
    if !Truthy(v) then None
    else
      var s := Strip(PyStr(v));
      if s == "" then None
      else
        var t := if |s| >= 10 then s[..10] else s;
        if |t| == 10 && t[4] == '-' && t[7] == '-' then Some(t) else None
  }

  /** The light check accepts every date the HIBP normaliser produces, unchanged. */
  lemma SafeDateAcceptsNormalized(v: Value)
    requires DateYmd(v).Some?
    ensures SafeDate(v) == DateYmd(v)
  {
  }

  /** The light check is not a date check: "2019-10-1 5" passes as "2019-10-1 ", which a second pass rejects. */
  lemma SafeDateNotIdempotent()
    ensures SafeDate(Str("2019-10-1 5")) == Some("2019-10-1 ")
    ensures SafeDate(Str("2019-10-1 ")) == None
  {
    var s := "2019-10-1 5";
    assert IsStripped(s);
    StripOfStripped(s);
    assert s[..10] == "2019-10-1 ";
    var t := "2019-10-1 ";
    assert SkipSpaces(t, 0) == 0;
    assert BackSpaces(t, |t|) == 9 by {
      assert IsSpace(t[9]);
      assert !IsSpace(t[8]);
    }
    assert t[0..9] == "2019-10-1";
  }

  /** What the decorated helper raises: `login_required` reads `.user` from its argument. */
  datatype DecoratorError = NoUserAttribute

  /**
   * `_safe_date` as written: `@login_required` wraps it, and the wrapper reads
   * `value.user` before calling the body, which raises for every value a scan
   * passes (a string or None).
   */
  function SafeDateAsWritten(v: Value): (r: Result<Option<string>, DecoratorError>)
    ensures r.Err?
  {
    Err(NoUserAttribute)
  }

  // ---------------------------------------------------------------------------
  // Resolving one item
  // ---------------------------------------------------------------------------

  /** Python `a or b` on strings. */
  function OrStr(a: string, b: string): (r: string)
    ensures r == "" <==> a == "" && b == ""
  {
    if a != "" then a else b
  }

  /** The deterministic fallback name "unknown-<breach date or na>-<added date or na>". */
  function FallbackName(breachDate: Option<string>, addedDate: Option<string>): (r: string)
    ensures "unknown-" <= r
  {
    "unknown-" + breachDate.GetOr("na") + "-" + addedDate.GetOr("na")
  }

  /** The fallback chain, as written, including the trailing "Unknown". */
  function ResolveName(rawName: string, title: string, domain: string,
                       breachDate: Option<string>, addedDate: Option<string>): string
  {
    OrStr(rawName, OrStr(title, OrStr(domain, OrStr(FallbackName(breachDate, addedDate), "Unknown"))))
  }

  /**
   * The resolved name is never empty, the "Unknown" alternative is never taken,
   * and "Unknown" comes out only when one of the three inputs is literally "Unknown".
   */
  lemma ResolveNameTotal(rawName: string, title: string, domain: string,
                         breachDate: Option<string>, addedDate: Option<string>)
    ensures var name := ResolveName(rawName, title, domain, breachDate, addedDate);
            && name != ""
            && name == OrStr(rawName, OrStr(title, OrStr(domain, FallbackName(breachDate, addedDate))))
            && (name == "Unknown" ==> rawName == "Unknown" || title == "Unknown" || domain == "Unknown")
  {
    var f := FallbackName(breachDate, addedDate);
    assert f[0] == 'u';
  }

  /** The stripped text of `item.get(a) or item.get(b)`; None for the AttributeError of a non-string. */
  function FieldText(item: Fields, key: string, rawKey: string): (r: Option<string>)
    ensures r.Some? ==> IsStripped(r.value)
  {
    StripOrEmpty(Or(Lookup(item, key), Lookup(item, rawKey)))
  }

  /** `bool(item.get(key, item.get(rawKey, False)))`. */
  function Flag(item: Fields, key: string, rawKey: string): bool
  {
    Truthy(GetOr(item, key, GetOr(item, rawKey, Bool(false))))
  }

  function ItemFlags(item: Fields): Flags
  {
    Flags(
      Flag(item, "is_verified", "IsVerified"),
      Flag(item, "is_sensitive", "IsSensitive"),
      Flag(item, "is_fabricated", "IsFabricated"),
      Flag(item, "is_spam_list", "IsSpamList"),
      Flag(item, "is_retired", "IsRetired"),
      Flag(item, "is_malware", "IsMalware"),
      Flag(item, "is_stealer_log", "IsStealerLog"),
      Flag(item, "is_subscription_free", "IsSubscriptionFree"))
  }

  /** The exception a malformed item raises inside the loop; the view reports "Scan failed". */
  datatype ItemError = ItemError

  /** An item's resolved (not yet disambiguated) name and the columns the upsert writes. */
  datatype Resolved = Resolved(base: string, row: BreachHit)

  /** Reading one item: accepts both the normalised keys and raw HIBP keys. */
  function ResolveItem(item: Fields): (r: Result<Resolved, ItemError>)
    ensures r.Ok? ==> r.value.base != ""
    ensures r.Ok? ==> r.value.row.occurredOn != Some("") && r.value.row.addedOn != Some("")
                      && r.value.row.modifiedOn != Some("")
    ensures r.Ok? <==> FieldText(item, "breach_name", "Name").Some? && FieldText(item, "title", "Title").Some?
                       && FieldText(item, "domain", "Domain").Some?
  {
    var rawName :- FieldText(item, "breach_name", "Name").ToResult(ItemError);
    var title :- FieldText(item, "title", "Title").ToResult(ItemError);
    var domain :- FieldText(item, "domain", "Domain").ToResult(ItemError);
    var breachDt := SafeDate(Or(Lookup(item, "occurred_on"), Lookup(item, "BreachDate")));
    var addedDt := SafeDate(Or(Lookup(item, "added_on"), Lookup(item, "AddedDate")));
    var modDt := SafeDate(Or(Lookup(item, "modified_on"), Lookup(item, "ModifiedDate")));
    var name := ResolveName(rawName, title, domain, breachDt, addedDt);
    ResolveNameTotal(rawName, title, domain, breachDt, addedDt);
    Ok(Resolved(name, BreachHit(
      domain, breachDt, OrStr(title, OrStr(rawName, domain)),
      Or(Or(Lookup(item, "description"), Lookup(item, "Description")), Str("")),
      GetOr(item, "pwn_count", Lookup(item, "PwnCount")),
      Or(Or(Lookup(item, "data_classes"), Lookup(item, "DataClasses")), List([])),
      ItemFlags(item), addedDt, modDt, "")))
  }

  /** The stored title is the item's title, else its name, else its domain. */
  lemma ResolveItemTitle(item: Fields)
    requires ResolveItem(item).Ok?
    ensures ResolveItem(item).value.row.title ==
            OrStr(FieldText(item, "title", "Title").value,
                  OrStr(FieldText(item, "breach_name", "Name").value, FieldText(item, "domain", "Domain").value))
  {
  }

  /** The as-written resolution: the first `_safe_date` call raises, whatever the item. */
  function ResolveItemAsWritten(item: Fields): (r: Result<Resolved, ItemError>)
  {
    var rawName :- FieldText(item, "breach_name", "Name").ToResult(ItemError);
    var title :- FieldText(item, "title", "Title").ToResult(ItemError);
    var domain :- FieldText(item, "domain", "Domain").ToResult(ItemError);
    var breachDt := SafeDateAsWritten(Or(Lookup(item, "occurred_on"), Lookup(item, "BreachDate")));
    if breachDt.Err? then Err(ItemError)
    else ResolveItem(item)
  }

  // ---------------------------------------------------------------------------
  // Disambiguation
  // ---------------------------------------------------------------------------

  /** The n-th candidate for a repeated name: "base (n)". */
  function Candidate(base: string, n: nat): (c: string)
    ensures base <= c && |c| > |base|
  {
    base + " (" + NatToString(n) + ")"
  }

  lemma CandidateInjective(base: string, m: nat, n: nat)
    requires Candidate(base, m) == Candidate(base, n)
    ensures m == n
  {
    var a := NatToString(m);
    var b := NatToString(n);
    var c := Candidate(base, m);
    assert |a| == |b|;
    assert c[|base| + 2..|base| + 2 + |a|] == a;
    assert Candidate(base, n)[|base| + 2..|base| + 2 + |b|] == b;
    NatToStringInjective(m, n);
  }

  /** The names a candidate must avoid: those stored for the identity and those already used in this batch. */
  function Used(identity: nat, hits: map<HitKey, BreachHit>, seen: set<string>): (u: set<string>)
    ensures forall c :: c in u <==> (identity, c) in hits || c in seen
  {
    var stored := set k | k in hits && k.0 == identity :: k.1;
    assert forall c :: (identity, c) in hits ==> c in stored by {
      forall c | (identity, c) in hits
        ensures c in stored
      {
        var k := (identity, c);
        assert k in hits && k.0 == identity;
      }
    }
    stored + seen
  }

  /** The smallest index m >= n whose candidate is not in `used`. */
  function FreeIndex(base: string, used: set<string>, n: nat): (m: nat)
    ensures m >= n && Candidate(base, m) !in used
    ensures forall k :: n <= k < m ==> Candidate(base, k) in used
    decreases |used|
  {
    var c := Candidate(base, n);
    if c !in used then n
    else
      var m := FreeIndex(base, used - {c}, n + 1);
      assert Candidate(base, m) != c by {
        if Candidate(base, m) == c {
          CandidateInjective(base, m, n);
        }
      }
      m
  }

  /** The minimality in FreeIndex's contract pins it down. */
  lemma FreeIndexUnique(base: string, used: set<string>, n: nat, m: nat)
    requires m >= n && Candidate(base, m) !in used
    requires forall k :: n <= k < m ==> Candidate(base, k) in used
    ensures FreeIndex(base, used, n) == m
  {
  }

  /** The name an item is written under: its base when unused in the batch, else the first free candidate. */
  function PlaceName(identity: nat, hits: map<HitKey, BreachHit>, seen: set<string>, base: string): (name: string)
    ensures base !in seen ==> name == base
    ensures base in seen ==> name !in seen && (identity, name) !in hits
  {
    if base !in seen then base
    else Candidate(base, FreeIndex(base, Used(identity, hits, seen), 2))
  }

  // ---------------------------------------------------------------------------
  // The batch as a function
  // ---------------------------------------------------------------------------

  /** The loop's state: the table, the names written so far (as a set and in order), the two counters. */
  datatype Progress = Progress(
    hits: map<HitKey, BreachHit>,
    seen: set<string>,
    names: seq<string>,
    created: nat,
    updated: nat,
    failed: bool)

  function Start(hits: map<HitKey, BreachHit>): Progress
  {
    Progress(hits, {}, [], 0, 0, false)
  }

  /** One iteration of the loop, given how its item resolved. After a failure nothing more happens. */
  function Step(identity: nat, p: Progress, res: Result<Resolved, ItemError>): Progress
  {
    if p.failed then p
    else if res.Err? then p.(failed := true)
    else
      var name := PlaceName(identity, p.hits, p.seen, res.value.base);
      var isNew := (identity, name) !in p.hits;
      Progress(p.hits[(identity, name) := res.value.row], p.seen + {name}, p.names + [name],
               p.created + (if isNew then 1 else 0), p.updated + (if isNew then 0 else 1), false)
  }

  /** An item as the loop sees it: resolved, or the exception reading it raised. */
  type Item = Result<Resolved, ItemError>

  /** The loop over the items, each already resolved. */
  function Run(identity: nat, hits: map<HitKey, BreachHit>, items: seq<Item>): Progress
  {
    if items == [] then Start(hits)
    else Step(identity, Run(identity, hits, items[..|items| - 1]), items[|items| - 1])
  }

  lemma RunSnoc(identity: nat, hits: map<HitKey, BreachHit>, items: seq<Item>, i: nat)
    requires i < |items|
    ensures Run(identity, hits, items[..i + 1]) == Step(identity, Run(identity, hits, items[..i]), items[i])
  {
    assert items[..i + 1][..i] == items[..i];
  }

  /** A successful item gets exactly one upsert: created exactly when its key was not stored. */
  lemma StepUpserts(identity: nat, p: Progress, res: Result<Resolved, ItemError>)
    requires !p.failed && res.Ok?
    ensures var q := Step(identity, p, res);
            var name := PlaceName(identity, p.hits, p.seen, res.value.base);
            && q.names == p.names + [name]
            && q.hits == p.hits[(identity, name) := res.value.row]
            && q.created + q.updated == p.created + p.updated + 1
            && (q.created == p.created + 1 <==> (identity, name) !in p.hits)
  {
  }

  /** The first use of a name in a batch keeps it, even when a stored row has it; that row is updated. */
  lemma StepKeepsFirstName(identity: nat, p: Progress, res: Result<Resolved, ItemError>)
    requires !p.failed && res.Ok? && res.value.base !in p.seen
    ensures var q := Step(identity, p, res);
            && q.names[|q.names| - 1] == res.value.base
            && ((identity, res.value.base) in p.hits ==> q.updated == p.updated + 1 && q.created == p.created)
  {
  }

  /** A repeated name becomes the first "base (n)", n >= 2, neither used in the batch nor stored; it is always created. */
  lemma StepRepeatedName(identity: nat, p: Progress, res: Result<Resolved, ItemError>)
    requires !p.failed && res.Ok? && res.value.base in p.seen
    ensures var q := Step(identity, p, res);
            var name := q.names[|q.names| - 1];
            && (exists n: nat {:trigger Candidate(res.value.base, n)} ::
                  n >= 2 && name == Candidate(res.value.base, n)
                  && (forall k :: 2 <= k < n ==>
                        (Candidate(res.value.base, k) in p.seen || (identity, Candidate(res.value.base, k)) in p.hits)))
            && name !in p.seen && (identity, name) !in p.hits
            && q.created == p.created + 1
  {
    var n := FreeIndex(res.value.base, Used(identity, p.hits, p.seen), 2);
    assert PlaceName(identity, p.hits, p.seen, res.value.base) == Candidate(res.value.base, n);
  }

  /** The bookkeeping a run keeps: names distinct and recorded, counters adding up, one stored row per name. */
  ghost predicate Consistent(identity: nat, p: Progress)
  {
    && |p.names| == p.created + p.updated
    && (forall x :: x in p.seen <==> x in p.names)
    && (forall i, j :: 0 <= i < j < |p.names| ==> p.names[i] != p.names[j])
    && (forall i :: 0 <= i < |p.names| ==> (identity, p.names[i]) in p.hits)
  }

  lemma StepConsistent(identity: nat, p: Progress, res: Result<Resolved, ItemError>)
    requires Consistent(identity, p)
    ensures Consistent(identity, Step(identity, p, res))
  {
    if !p.failed && res.Ok? {
      var name := PlaceName(identity, p.hits, p.seen, res.value.base);
      var q := Step(identity, p, res);
      forall i, j | 0 <= i < j < |q.names|
        ensures q.names[i] != q.names[j]
      {
        if j == |p.names| {
          assert q.names[i] == p.names[i];
          if res.value.base in p.seen {
            assert name !in p.seen;
          } else {
            assert name !in p.seen;
          }
        }
      }
    }
  }

  /** Names written within one batch are pairwise distinct; seen is exactly those names; the counts add up. */
  lemma {:induction false} RunConsistent(identity: nat, hits: map<HitKey, BreachHit>, items: seq<Item>)
    ensures Consistent(identity, Run(identity, hits, items))
    ensures !Run(identity, hits, items).failed ==> Run(identity, hits, items).created + Run(identity, hits, items).updated == |items|
  {
    if items != [] {
      var init := items[..|items| - 1];
      RunConsistent(identity, hits, init);
      StepConsistent(identity, Run(identity, hits, init), items[|items| - 1]);
    }
  }

  /**
   * Nothing outside the batch changes: rows of other identities, and rows of
   * this identity under names the batch did not write, keep their values;
   * every row is either old or one the batch wrote.
   */
  lemma {:induction false} RunFrame(identity: nat, hits: map<HitKey, BreachHit>, items: seq<Item>)
    ensures var p := Run(identity, hits, items);
            && (forall k :: k in hits && (k.0 != identity || k.1 !in p.seen) ==> k in p.hits && p.hits[k] == hits[k])
            && (forall k :: k in p.hits ==> k in hits || (k.0 == identity && k.1 in p.seen))
            && hits.Keys <= p.hits.Keys
  {
    if items != [] {
      RunFrame(identity, hits, items[..|items| - 1]);
    }
  }

  /** Once an item raises, the rest of the loop is skipped: the outcome is that of the prefix. */
  lemma {:induction false} RunAfterFailure(identity: nat, hits: map<HitKey, BreachHit>, items: seq<Item>, i: nat)
    requires i <= |items| && Run(identity, hits, items[..i]).failed
    ensures Run(identity, hits, items) == Run(identity, hits, items[..i])
    decreases |items| - i
  {
    if i < |items| {
      RunSnoc(identity, hits, items, i);
      RunAfterFailure(identity, hits, items, i + 1);
    } else {
      assert items[..i] == items;
    }
  }

  /** Every item resolves. */
  ghost predicate AllResolve(items: seq<Item>)
  {
    forall i :: 0 <= i < |items| ==> items[i].Ok?
  }

  function Bases(items: seq<Item>): seq<string>
    requires AllResolve(items)
  {
    seq(|items|, i requires 0 <= i < |items| => items[i].value.base)
  }

  ghost predicate Distinct(s: seq<string>)
  {
    forall i, j :: 0 <= i < j < |s| ==> s[i] != s[j]
  }

  /** The names of a batch are the names of all but its last item, then the last item's. */
  lemma BasesSnoc(items: seq<Item>)
    requires AllResolve(items) && items != []
    ensures AllResolve(items[..|items| - 1])
    ensures Bases(items) == Bases(items[..|items| - 1]) + [items[|items| - 1].value.base]
    ensures Bases(items[..|items| - 1]) == Bases(items)[..|items| - 1]
    ensures |Bases(items)| == |items| && Bases(items)[|items| - 1] == items[|items| - 1].value.base
  {
    var init := items[..|items| - 1];
    assert AllResolve(init);
    assert Bases(items) == Bases(init) + [items[|items| - 1].value.base] by {
      forall k | 0 <= k < |items|
        ensures Bases(items)[k] == (Bases(init) + [items[|items| - 1].value.base])[k]
      {
        assert Bases(items)[k] == items[k].value.base;
        if k < |init| {
          assert Bases(init)[k] == init[k].value.base;
        }
      }
    }
  }

  /** With pairwise-distinct names, every item is written under its own name and none fails. */
  lemma {:induction false} RunDistinctNames(identity: nat, hits: map<HitKey, BreachHit>, items: seq<Item>)
    requires AllResolve(items) && Distinct(Bases(items))
    ensures !Run(identity, hits, items).failed
    ensures Run(identity, hits, items).names == Bases(items)
  {
    if items != [] {
      var init := items[..|items| - 1];
      BasesSnoc(items);
      RunDistinctNames(identity, hits, init);
      RunConsistent(identity, hits, init);
      var last := items[|items| - 1].value.base;
      assert last !in Run(identity, hits, init).seen by {
        assert last !in Bases(init);
      }
    }
  }

  /** When every name is already stored and the names are distinct, the batch creates nothing. */
  lemma {:induction false} RunAllStored(identity: nat, hits: map<HitKey, BreachHit>, items: seq<Item>)
    requires AllResolve(items) && Distinct(Bases(items))
    requires forall i :: 0 <= i < |items| ==> (identity, Bases(items)[i]) in hits
    ensures Run(identity, hits, items).created == 0
  {
    if items != [] {
      var init := items[..|items| - 1];
      BasesSnoc(items);
      RunAllStored(identity, hits, init);
      RunDistinctNames(identity, hits, init);
      RunConsistent(identity, hits, init);
      RunFrame(identity, hits, init);
      var last := items[|items| - 1].value.base;
      assert last !in Bases(init);
      assert (identity, last) in hits;
    }
  }

  /** The rows a batch of resolved items writes, each under its own base name. */
  function Writes(identity: nat, items: seq<Item>): (w: map<HitKey, BreachHit>)
    requires AllResolve(items)
    ensures forall k :: k in w ==> k.0 == identity
  {
    if items == [] then map[]
    else
      var last := items[|items| - 1].value;
      Writes(identity, items[..|items| - 1])[(identity, last.base) := last.row]
  }

  /** With pairwise-distinct names, the stored rows after the batch are the old ones overridden by the batch's writes. */
  lemma {:induction false} RunDistinctHits(identity: nat, hits: map<HitKey, BreachHit>, items: seq<Item>)
    requires AllResolve(items) && Distinct(Bases(items))
    ensures Run(identity, hits, items).hits == hits + Writes(identity, items)
  {
    if items != [] {
      var init := items[..|items| - 1];
      BasesSnoc(items);
      RunDistinctHits(identity, hits, init);
      RunDistinctNames(identity, hits, init);
      RunConsistent(identity, hits, init);
      var last := items[|items| - 1].value;
      assert last.base !in Run(identity, hits, init).seen by {
        assert last.base !in Bases(init);
      }
      var p := Run(identity, hits, init);
      StepKeepsFirstName(identity, p, items[|items| - 1]);
      StepUpserts(identity, p, items[|items| - 1]);
      assert Run(identity, hits, items).hits == p.hits[(identity, last.base) := last.row];
      OverrideUpdate(hits, Writes(identity, init), (identity, last.base), last.row);
    }
  }

  lemma OverrideUpdate<K, V>(a: map<K, V>, b: map<K, V>, k: K, v: V)
    ensures (a + b)[k := v] == a + b[k := v]
  {
  }

  /** Run again on its own result, a batch with pairwise-distinct names rewrites every row with the value it already holds. */
  lemma RerunKeepsHits(identity: nat, hits: map<HitKey, BreachHit>, first: Progress, items: seq<Item>)
    requires AllResolve(items) && Distinct(Bases(items))
    requires first == Run(identity, hits, items)
    ensures Run(identity, first.hits, items).hits == first.hits
  {
    RunDistinctHits(identity, hits, items);
    RunDistinctHits(identity, first.hits, items);
    var w := Writes(identity, items);
    assert first.hits + w == first.hits;
  }

  /**
   * A batch with pairwise-distinct names is idempotent: run again on its own
   * result, it creates nothing, updates every item, and leaves the stored rows as they are.
   */
  lemma RunIdempotent(identity: nat, hits: map<HitKey, BreachHit>, items: seq<Item>)
    requires AllResolve(items) && Distinct(Bases(items))
    ensures var first := Run(identity, hits, items);
            && Run(identity, first.hits, items).created == 0
            && Run(identity, first.hits, items).updated == |items|
            && Run(identity, first.hits, items).hits == first.hits
  {
    var first := Run(identity, hits, items);
    RunDistinctNames(identity, hits, items);
    RunConsistent(identity, hits, items);
    RunAllStored(identity, first.hits, items);
    RunDistinctNames(identity, first.hits, items);
    RunConsistent(identity, first.hits, items);
    RerunKeepsHits(identity, hits, first, items);
  }

  /** The state after a prefix is contained in the state after the whole batch. */
  lemma {:induction false} RunGrows(identity: nat, hits: map<HitKey, BreachHit>, items: seq<Item>, i: nat)
    requires i <= |items|
    ensures Run(identity, hits, items[..i]).seen <= Run(identity, hits, items).seen
    ensures Run(identity, hits, items[..i]).created <= Run(identity, hits, items).created
    decreases |items| - i
  {
    if i < |items| {
      RunSnoc(identity, hits, items, i);
      RunGrows(identity, hits, items, i + 1);
    } else {
      assert items[..i] == items;
    }
  }

  /**
   * A batch in which a name occurs twice creates at least one row on every
   * run, whatever is stored: the repeat gets a suffix that is not stored yet.
   */
  lemma RunDuplicateCreates(identity: nat, hits: map<HitKey, BreachHit>, items: seq<Item>, i: nat, j: nat)
    requires AllResolve(items) && i < j < |items|
    requires items[i].value.base == items[j].value.base
    ensures Run(identity, hits, items).created >= 1
  {
    var base := items[i].value.base;
    var pj := Run(identity, hits, items[..j]);
    RunNeverFails(identity, hits, items[..j]);
    SeenBefore(identity, hits, items, i, j);
    RunSnoc(identity, hits, items, j);
    StepRepeatedName(identity, pj, items[j]);
    assert items[..j + 1][..j + 1] == items[..j + 1];
    RunGrows(identity, hits, items, j + 1);
  }

  /** The name of an item is among the names seen after any later prefix. */
  lemma SeenBefore(identity: nat, hits: map<HitKey, BreachHit>, items: seq<Item>, i: nat, j: nat)
    requires AllResolve(items) && i < j <= |items|
    ensures items[i].value.base in Run(identity, hits, items[..j]).seen
  {
    RunNeverFails(identity, hits, items[..i]);
    RunSnoc(identity, hits, items, i);
    assert items[i].value.base in Run(identity, hits, items[..i + 1]).seen;
    assert items[..j][..i + 1] == items[..i + 1];
    RunGrows(identity, hits, items[..j], i + 1);
  }

  /** A batch whose items all resolve never fails. */
  lemma {:induction false} RunNeverFails(identity: nat, hits: map<HitKey, BreachHit>, items: seq<Item>)
    requires AllResolve(items)
    ensures !Run(identity, hits, items).failed
  {
    if items != [] {
      var init := items[..|items| - 1];
      assert AllResolve(init);
      RunNeverFails(identity, hits, init);
    }
  }

  lemma RunPair(identity: nat, hits: map<HitKey, BreachHit>, a: Item, b: Item)
    ensures Run(identity, hits, [a, b]) == Step(identity, Step(identity, Start(hits), a), b)
  {
    assert [a, b][..1] == [a];
    assert [a][..0] == [];
    assert Run(identity, hits, [a]) == Step(identity, Start(hits), a);
  }

  /** A repeated "Adobe" whose first n - 2 candidates are stored is created as "Adobe (n)". */
  lemma AdobeRepeat(identity: nat, p: Progress, row: BreachHit, n: nat)
    requires !p.failed && p.seen == {"Adobe"} && n >= 2
    requires forall k :: 2 <= k < n ==> (identity, Candidate("Adobe", k)) in p.hits
    requires (identity, Candidate("Adobe", n)) !in p.hits
    ensures var q := Step(identity, p, Ok(Resolved("Adobe", row)));
            && q.names == p.names + [Candidate("Adobe", n)]
            && q.created == p.created + 1 && q.updated == p.updated
            && q.hits == p.hits[(identity, Candidate("Adobe", n)) := row]
  {
    var used := Used(identity, p.hits, p.seen);
    assert Candidate("Adobe", n) !in p.seen;
    FreeIndexUnique("Adobe", used, 2, n);
  }

  lemma AdobeCandidates()
    ensures Candidate("Adobe", 2) == "Adobe (2)" && Candidate("Adobe", 3) == "Adobe (3)"
  {
    assert NatToString(2) == "2" && NatToString(3) == "3";
  }

  /** On an empty table the repeat is stored as "Adobe (2)". */
  lemma AdobeFirstRun(identity: nat, row1: BreachHit, row2: BreachHit)
    ensures var first := Run(identity, map[], [Ok(Resolved("Adobe", row1)), Ok(Resolved("Adobe", row2))]);
            && first.names == ["Adobe", "Adobe (2)"] && first.created == 2 && first.updated == 0
            && first.hits == map[(identity, "Adobe") := row1, (identity, "Adobe (2)") := row2]
  {
    var a: Item := Ok(Resolved("Adobe", row1));
    var b: Item := Ok(Resolved("Adobe", row2));
    AdobeCandidates();
    var h0: map<HitKey, BreachHit> := map[];
    RunPair(identity, h0, a, b);
    var p1 := Step(identity, Start(h0), a);
    assert p1 == Progress(map[(identity, "Adobe") := row1], {"Adobe"}, ["Adobe"], 1, 0, false);
    AdobeRepeat(identity, p1, row2, 2);
  }

  /** With "Adobe" and "Adobe (2)" stored, the repeat is stored as "Adobe (3)". */
  lemma AdobeSecondRun(identity: nat, h1: map<HitKey, BreachHit>, row1: BreachHit, row2: BreachHit)
    requires (identity, "Adobe") in h1 && (identity, "Adobe (2)") in h1 && (identity, "Adobe (3)") !in h1
    ensures var second := Run(identity, h1, [Ok(Resolved("Adobe", row1)), Ok(Resolved("Adobe", row2))]);
            && second.names == ["Adobe", "Adobe (3)"] && second.created == 1 && second.updated == 1
  {
    var a: Item := Ok(Resolved("Adobe", row1));
    var b: Item := Ok(Resolved("Adobe", row2));
    AdobeCandidates();
    RunPair(identity, h1, a, b);
    var q1 := Step(identity, Start(h1), a);
    assert q1 == Progress(h1[(identity, "Adobe") := row1], {"Adobe"}, ["Adobe"], 0, 1, false);
    AdobeRepeat(identity, q1, row2, 3);
  }

  /** The scenario of a batch holding "Adobe" twice, run twice on an empty table. */
  lemma AdobeTwice(identity: nat, row1: BreachHit, row2: BreachHit)
    ensures var items := [Ok(Resolved("Adobe", row1)), Ok(Resolved("Adobe", row2))];
            var first := Run(identity, map[], items);
            var second := Run(identity, first.hits, items);
            && first.names == ["Adobe", "Adobe (2)"] && first.created == 2 && first.updated == 0
            && second.names == ["Adobe", "Adobe (3)"] && second.created == 1 && second.updated == 1
  {
    AdobeFirstRun(identity, row1, row2);
    var h1 := map[(identity, "Adobe") := row1, (identity, "Adobe (2)") := row2];
    assert (identity, "Adobe (3)") !in h1;
    AdobeSecondRun(identity, h1, row1, row2);
  }

  /**
   * The effect of the decorated `_safe_date`: the first item of any non-empty
   * batch raises, so the scan is reported failed and no row is written.
   */
  lemma AsWrittenScanWritesNothing(identity: nat, hits: map<HitKey, BreachHit>, items: seq<Fields>)
    requires items != []
    ensures var p := Run(identity, hits, seq(|items|, k requires 0 <= k < |items| => ResolveItemAsWritten(items[k])));
            p.failed && p.hits == hits && p.created == 0 && p.updated == 0
  {
    var rs := seq(|items|, k requires 0 <= k < |items| => ResolveItemAsWritten(items[k]));
    assert ResolveItemAsWritten(items[0]).Err?;
    RunSnoc(identity, hits, rs, 0);
    assert rs[..0] == [];
    RunAfterFailure(identity, hits, rs, 1);
  }

  // ---------------------------------------------------------------------------
  // scan_identity on the database
  // ---------------------------------------------------------------------------

  /** The HIBP records as the loop sees them. */
  function ResolveAll(results: seq<NormalizedBreach>): seq<Item>
  {
    seq(|results|, k requires 0 <= k < |results| => ResolveItem(AsFields(results[k])))
  }

  /** An item resolves when its three name fields are strings and the raw keys are absent. */
  lemma ResolvesWhenStrings(d: Fields)
    requires Get(d, "breach_name").Some? && Get(d, "breach_name").value.Str?
    requires Get(d, "title").Some? && Get(d, "title").value.Str?
    requires Get(d, "domain").Some? && Get(d, "domain").value.Str?
    requires !HasKey(d, "Name") && !HasKey(d, "Title") && !HasKey(d, "Domain")
    ensures ResolveItem(d).Ok?
  {
    assert FieldText(d, "breach_name", "Name").Some?;
    assert FieldText(d, "title", "Title").Some?;
    assert FieldText(d, "domain", "Domain").Some?;
  }

  /** Every record the HIBP client returns resolves (its name, title and domain are strings). */
  lemma NormalizedResolves(nb: NormalizedBreach)
    ensures ResolveItem(AsFields(nb)).Ok?
  {
    AsFieldsNames(nb);
    AsFieldsNoCapitalKey(nb, "Name");
    AsFieldsNoCapitalKey(nb, "Title");
    AsFieldsNoCapitalKey(nb, "Domain");
    ResolvesWhenStrings(AsFields(nb));
  }

  /** Every item built from client results resolves. */
  lemma ResolveAllResolves(results: seq<NormalizedBreach>)
    ensures AllResolve(ResolveAll(results))
  {
    var items := ResolveAll(results);
    forall k | 0 <= k < |items|
      ensures items[k].Ok?
    {
      NormalizedResolves(results[k]);
    }
  }

  /** The `while` loop of `scan_identity` that looks for the first free " (n)" candidate. */
  method NextFreeName(db: Database, identity: nat, base: string, seen: set<string>) returns (name: string)
    ensures name == Candidate(base, FreeIndex(base, Used(identity, db.hits, seen), 2))
  {
    ghost var used := Used(identity, db.hits, seen);
    ghost var remaining := used;
    var n: nat := 2;
    var candidate := Candidate(base, n);
    while (identity, candidate) in db.hits || candidate in seen
      invariant n >= 2 && candidate == Candidate(base, n)
      invariant remaining <= used
      invariant forall m :: m >= n ==> (Candidate(base, m) in remaining <==> Candidate(base, m) in used)
      invariant forall k :: 2 <= k < n ==> Candidate(base, k) in used
      decreases |remaining|
    {
      assert candidate in remaining;
      forall m | m >= n + 1
        ensures Candidate(base, m) != candidate
      {
        if Candidate(base, m) == candidate {
          CandidateInjective(base, m, n);
        }
      }
      remaining := remaining - {candidate};
      n := n + 1;
      candidate := Candidate(base, n);
    }
    FreeIndexUnique(base, used, 2, n);
    return candidate;
  }

  /** What the view reports. */
  datatype ScanReport =
    | IdentityNotFound
    | ScanComplete(status: Option<int>, returned: Option<int>, created: nat, updated: nat)
    | AuthFailed
    | RateLimited(message: string)
    | ScanFailed

  /** The report for an error raised by the HIBP client. */
  function ErrorReport(e: HibpError): ScanReport
  {
    match e
    case AuthError => AuthFailed
    case RateLimitError => RateLimited(ErrorText(RateLimitError))
    case _ => ScanFailed
  }

  /** The status the client records for a response: None without a key or a response. */
  function ReportedStatus(key: string, response: HttpResponse): Option<int>
  {
    if key == "" || response.TransportFailure? then None else Some(response.status)
  }

  lemma StepWrites(identity: nat, p: Progress, res: Item, name: string)
    requires !p.failed && res.Ok? && name == PlaceName(identity, p.hits, p.seen, res.value.base)
    ensures var isNew := (identity, name) !in p.hits;
            Step(identity, p, res)
            == Progress(p.hits[(identity, name) := res.value.row], p.seen + {name}, p.names + [name],
                        if isNew then p.created + 1 else p.created, if isNew then p.updated else p.updated + 1, false)
  {
  }

  /** The `for` loop of `scan_identity`: every item written as `Run` prescribes. */
  method WriteBatch(db: Database, pk: nat, items: seq<Item>) returns (created: nat, updated: nat)
    requires db.Valid() && pk in db.identities && AllResolve(items)
    modifies db`hits
    ensures db.Valid()
    ensures var p := Run(pk, old(db.hits), items);
            && !p.failed && db.hits == p.hits && created == p.created && updated == p.updated
  {
    ghost var hits0 := db.hits;
    var seen: set<string> := {};
    ghost var names: seq<string> := [];
    created, updated := 0, 0;
    var i := 0;
    while i < |items|
      invariant 0 <= i <= |items|
      invariant db.Valid() && pk in db.identities
      invariant Run(pk, hits0, items[..i]) == Progress(db.hits, seen, names, created, updated, false)
    {
      RunSnoc(pk, hits0, items, i);
      var base := items[i].value.base;
      var name := base;
      if name in seen {
        name := NextFreeName(db, pk, base, seen);
      }
      StepWrites(pk, Progress(db.hits, seen, names, created, updated, false), items[i], name);
      seen := seen + {name};
      names := names + [name];
      var isNew := db.UpdateOrCreateHit(pk, name, items[i].value.row);
      if isNew {
        created := created + 1;
      } else {
        updated := updated + 1;
      }
      i := i + 1;
    }
    assert items[..i] == items;
  }

  /**
   * `scan_identity(pk)`: look the identity up, fetch its breaches, and write
   * them as the batch `Run` prescribes. HIBP errors write nothing.
   */
  method ScanIdentity(db: Database, pk: nat, keyEnv: Option<string>, userAgentEnv: Option<string>,
                      response: HttpResponse)
    returns (report: ScanReport)
    requires db.Valid()
    modifies db`hits
    ensures db.Valid()
    ensures pk !in db.identities ==> report == IdentityNotFound && db.hits == old(db.hits)
    ensures pk in db.identities ==>
              var key := Strip(keyEnv.GetOr(""));
              var out := HibpClient.Outcome(key, response);
              && (out.Err? ==> db.hits == old(db.hits) && report == ErrorReport(out.error))
              && (out.Ok? ==>
                    var p := Run(pk, old(db.hits), ResolveAll(out.value));
                    && !p.failed
                    && db.hits == p.hits
                    && report == ScanComplete(ReportedStatus(key, response), Some(|out.value|), p.created, p.updated))
  {
    if pk !in db.identities {
      return IdentityNotFound;
    }
    var client := new HibpClient(keyEnv, userAgentEnv);
    var results, _ := client.BreachesForAccount(db.identities[pk], response);
    if results.Err? {
      return ErrorReport(results.error);
    }
    ghost var key := Strip(keyEnv.GetOr(""));
    assert client.key == key;
    assert results == HibpClient.Outcome(key, response);
    var items := ResolveAll(results.value);
    ResolveAllResolves(results.value);
    var status, returned := client.lastStatus, client.lastItems;
    assert status == ReportedStatus(key, response);
    assert returned == Some(|results.value|);
    var created, updated := WriteBatch(db, pk, items);
    return ScanComplete(status, returned, created, updated);
  }

  // ---------------------------------------------------------------------------
  // scan_target
  // ---------------------------------------------------------------------------

  /** Python iteration over a value: list items, a string's characters, a dict's keys; None for the TypeError of the rest. */
  function Iterate(v: Value): (r: Option<seq<Value>>)
    ensures r.Some? <==> v.List? || v.Str? || v.Obj?
    ensures v.List? ==> r == Some(v.items)
  {
    match v
    case List(items) => Some(items)
    case Str(s) => Some(seq(|s|, k requires 0 <= k < |s| => Str([s[k]])))
    case Obj(fields) => Some(seq(|fields|, k requires 0 <= k < |fields| => Str(fields[k].0)))
    case _ => None
  }

  /** `[int(p) for p in vs]`, or None when some `int(p)` raises. */
  function AllInts(vs: seq<Value>): (r: Option<seq<int>>)
    ensures r.Some? <==> forall k :: 0 <= k < |vs| ==> ToInt(vs[k]).Some?
    ensures r.Some? ==> |r.value| == |vs| && forall k :: 0 <= k < |vs| ==> r.value[k] == ToInt(vs[k]).value
  {
    if vs == [] then Some([])
    else
      var head := ToInt(vs[0]);
      var rest := AllInts(vs[1..]);
      if head.Some? && rest.Some? then Some([head.value] + rest.value)
      else
        assert head.None? || exists k :: 1 <= k < |vs| && ToInt(vs[k]).None? by {
          if head.Some? {
            var j :| 0 <= j < |vs[1..]| && ToInt(vs[1..][j]).None?;
            assert ToInt(vs[j + 1]).None?;
          }
        }
        None
  }

  predicate StrictlySorted(xs: seq<int>)
  {
    forall i, j :: 0 <= i < j < |xs| ==> xs[i] < xs[j]
  }

  /** Inserting into a strictly sorted list, leaving it unchanged when the value is already there. */
  function Insert(x: int, xs: seq<int>): (r: seq<int>)
    requires StrictlySorted(xs)
    ensures StrictlySorted(r)
    ensures forall y :: y in r <==> y == x || y in xs
  {
    if xs == [] then [x]
    else if x < xs[0] then [x] + xs
    else if x == xs[0] then xs
    else
      var rest := Insert(x, xs[1..]);
      assert forall y :: y in xs <==> y == xs[0] || y in xs[1..] by {
        assert xs == [xs[0]] + xs[1..];
      }
      assert forall k :: 0 <= k < |rest| ==> xs[0] < rest[k] by {
        forall k | 0 <= k < |rest|
          ensures xs[0] < rest[k]
        {
          assert rest[k] in rest;
          if rest[k] != x {
            var j :| 0 <= j < |xs[1..]| && xs[1..][j] == rest[k];
            assert xs[j + 1] == rest[k];
          }
        }
      }
      [xs[0]] + rest
  }

  /** `sorted({...})`: the distinct values in increasing order. */
  function SortedDistinct(xs: seq<int>): (r: seq<int>)
    ensures StrictlySorted(r)
    ensures forall y :: y in r <==> y in xs
  {
    if xs == [] then []
    else
      var r := Insert(xs[|xs| - 1], SortedDistinct(xs[..|xs| - 1]));
      assert forall y :: y in xs <==> y == xs[|xs| - 1] || y in xs[..|xs| - 1] by {
        assert xs == xs[..|xs| - 1] + [xs[|xs| - 1]];
      }
      r
  }

  lemma SortedHeadLeast(xs: seq<int>, k: nat)
    requires StrictlySorted(xs) && k < |xs|
    ensures xs[0] <= xs[k]
  {
    if k > 0 {
      assert xs[0] < xs[k];
    }
  }

  /** Two strictly sorted lists with the same elements start alike. */
  lemma SameHead(a: seq<int>, b: seq<int>)
    requires StrictlySorted(a) && StrictlySorted(b)
    requires forall y :: y in a <==> y in b
    requires a != []
    ensures b != [] && a[0] == b[0]
  {
    assert a[0] in a;
    assert a[0] in b;
    assert b[0] in b;
    assert b[0] in a;
    var i :| 0 <= i < |b| && b[i] == a[0];
    var j :| 0 <= j < |a| && a[j] == b[0];
    SortedHeadLeast(b, i);
    SortedHeadLeast(a, j);
  }

  /** An element after the common head of `a` is after the head of `b` too. */
  lemma TailMember(a: seq<int>, b: seq<int>, y: int)
    requires StrictlySorted(a) && b != [] && a != [] && a[0] == b[0]
    requires forall z :: z in a ==> z in b
    requires y in a[1..]
    ensures y in b[1..]
  {
    var k :| 0 <= k < |a[1..]| && a[1..][k] == y;
    assert a[k + 1] == y;
    assert a[0] < a[k + 1];
    assert y in a;
    var i :| 0 <= i < |b| && b[i] == y;
    assert i != 0;
    assert b[1..][i - 1] == y;
  }

  /** A strictly sorted list is determined by its elements. */
  lemma {:induction false} StrictlySortedUnique(a: seq<int>, b: seq<int>)
    requires StrictlySorted(a) && StrictlySorted(b)
    requires forall y :: y in a <==> y in b
    ensures a == b
    decreases |a|
  {
    if a == [] {
      if b != [] {
        SameHead(b, a);
        assert false;
      }
    } else {
      SameHead(a, b);
      forall y
        ensures y in a[1..] <==> y in b[1..]
      {
        if y in a[1..] {
          TailMember(a, b, y);
        }
        if y in b[1..] {
          TailMember(b, a, y);
        }
      }
      StrictlySortedUnique(a[1..], b[1..]);
      assert a == [a[0]] + a[1..] && b == [b[0]] + b[1..];
    }
  }

  /** Sorting distinct values again changes nothing. */
  lemma SortedDistinctIdempotent(xs: seq<int>)
    ensures SortedDistinct(SortedDistinct(xs)) == SortedDistinct(xs)
  {
    StrictlySortedUnique(SortedDistinct(SortedDistinct(xs)), SortedDistinct(xs));
  }

  function IntValues(xs: seq<int>): seq<Value>
  {
    seq(|xs|, k requires 0 <= k < |xs| => Int(xs[k]))
  }

  /**
   * The stored port list: `sorted({int(p) for p in ports_raw})`, else
   * `list(ports_raw)`; None for the TypeError of a value that cannot be iterated.
   */
  function NormalizePorts(raw: Value): (r: Option<Value>)
  {
    var portsRaw := Or(raw, List([]));
    match Iterate(portsRaw)
    case None => None
    case Some(vs) =>
      match AllInts(vs)
      case Some(ns) => Some(List(IntValues(SortedDistinct(ns))))
      case None => Some(List(vs))
  }

  /**
   * The ports written: sorted distinct integers exactly when every element
   * converts, the elements themselves otherwise; a falsy value reads as [].
   */
  lemma NormalizePortsCases(raw: Value)
    ensures !Truthy(raw) ==> NormalizePorts(raw) == Some(List([]))
    ensures (raw.List? || raw.Str? || raw.Obj? || !Truthy(raw)) <==> NormalizePorts(raw).Some?
    ensures raw.List? && AllInts(raw.items).Some? ==>
              && NormalizePorts(raw) == Some(List(IntValues(SortedDistinct(AllInts(raw.items).value))))
              && StrictlySorted(SortedDistinct(AllInts(raw.items).value))
              && forall n :: n in SortedDistinct(AllInts(raw.items).value) <==>
                              exists k :: 0 <= k < |raw.items| && ToInt(raw.items[k]) == Some(n)
    ensures raw.List? && AllInts(raw.items).None? ==> NormalizePorts(raw) == Some(raw)
  {
    assert IntValues([]) == [];
    if raw.List? && raw.items != [] && AllInts(raw.items).Some? {
      var ns := AllInts(raw.items).value;
      forall n
        ensures n in ns <==> exists k :: 0 <= k < |raw.items| && ToInt(raw.items[k]) == Some(n)
      {
        if n in ns {
          var k :| 0 <= k < |ns| && ns[k] == n;
          assert ToInt(raw.items[k]) == Some(n);
        }
      }
    }
  }

  /** What `scan_target` reports. */
  datatype TargetReport =
    | TargetMissing
    | NoShodanData(target: string)
    | NoIpReturned
    | Saved(ip: string)
    | ShodanFailed(error: Shodan.ShodanError)
    | Unexpected

  /** After the lookup: either a report without a write, or the one upsert keyed by IP. */
  datatype TargetPlan = Report(report: TargetReport) | Write(ip: string, defaults: FindingDefaults)

  /** The straight-line code of `scan_target` after `fetch_host`, with `now` standing for `timezone.now()`. */
  function PlanTarget(target: string, result: Shodan.FetchResult, now: string): (plan: TargetPlan)
    ensures plan.Write? ==> result.Host? && result.data.Obj?
  {
    match result
    case Raised(e) => Report(ShodanFailed(e))
    case Crashed => Report(Unexpected)
    case NoData => Report(NoShodanData(target))
    case Host(data) =>
      if !Truthy(data) then Report(NoShodanData(target))
      else if !data.Obj? then Report(Unexpected)
      else
        var f := data.fields;
        var ip := Or(Lookup(f, "ip_str"), Lookup(f, "ip"));
        if !Truthy(ip) then Report(NoIpReturned)
        else
          match NormalizePorts(Lookup(f, "ports"))
          case None => Report(Unexpected)
          case Some(ports) =>
            Write(PyStr(ip), FindingDefaults(
              Or(Lookup(f, "hostnames"), List([])), ports,
              Or(Lookup(f, "org"), Str("")), Or(Lookup(f, "os"), Str("")),
              data, Or(Lookup(f, "last_update"), Str(now))))
  }

  /**
   * Nothing is written for a missing payload or a payload without ip_str/ip;
   * otherwise the row is keyed by ip_str (else ip), keeps the whole payload,
   * takes hostnames `or []`, org and os `or ""`, and its last_seen is
   * last_update or now.
   */
  lemma PlanTargetWrites(target: string, result: Shodan.FetchResult, now: string)
    ensures var plan := PlanTarget(target, result, now);
            && (result.NoData? || (result.Host? && !Truthy(result.data)) ==> plan == Report(NoShodanData(target)))
            && (result.Host? && result.data.Obj? && result.data.fields != []
                && !Truthy(Or(Lookup(result.data.fields, "ip_str"), Lookup(result.data.fields, "ip"))) ==>
                  plan == Report(NoIpReturned))
            && (plan.Write? ==>
                  var f := result.data.fields;
                  && plan.ip == PyStr(Or(Lookup(f, "ip_str"), Lookup(f, "ip")))
                  && plan.defaults.raw == result.data
                  && plan.defaults.hostnames == Or(Lookup(f, "hostnames"), List([]))
                  && plan.defaults.org == Or(Lookup(f, "org"), Str(""))
                  && plan.defaults.os == Or(Lookup(f, "os"), Str(""))
                  && Some(plan.defaults.ports) == NormalizePorts(Lookup(f, "ports"))
                  && (Truthy(Lookup(f, "last_update")) ==> plan.defaults.lastSeen == Lookup(f, "last_update"))
                  && (!Truthy(Lookup(f, "last_update")) ==> plan.defaults.lastSeen == Str(now)))
  {
  }

  /**
   * `scan_target`: strip the submitted target, look it up on Shodan (two
   * retries), and apply the plan: at most one upsert keyed by IP.
   */
  method ScanTarget(db: Database, targetField: Option<string>, key: Option<string>, isIpLiteral: bool,
                    dns: Option<string>, respond: nat -> Shodan.Attempt, now: string)
    returns (report: TargetReport)
    requires db.Valid()
    modifies db
    ensures db.Valid()
    ensures db.identities == old(db.identities) && db.hits == old(db.hits)
    ensures var target := Strip(targetField.GetOr(""));
            var plan := PlanTarget(target, Shodan.HostLookup(key, target, isIpLiteral, dns, 2, respond).result, now);
            && (target == "" ==> report == TargetMissing && db.findings == old(db.findings))
            && (target != "" && plan.Report? ==> report == plan.report && db.findings == old(db.findings))
            && (target != "" && plan.Write? ==>
                  && (report == Saved(plan.ip) || report == Unexpected)
                  && (OneRowPerIp(old(db.findings)) ==> report == Saved(plan.ip) && OneRowPerIp(db.findings))
                  && (report == Saved(plan.ip) ==>
                        exists pk :: pk in db.findings
                                     && db.findings == old(db.findings)[pk := db.findings[pk]]
                                     && db.findings[pk] == ShodanFinding(
                                          plan.ip, plan.defaults.hostnames, plan.defaults.ports,
                                          plan.defaults.org, plan.defaults.os, plan.defaults.raw,
                                          if pk in old(db.findings) then old(db.findings)[pk].createdOn else now,
                                          plan.defaults.lastSeen)))
    ensures report == Unexpected ==> db.findings == old(db.findings)
  {
    var target := Strip(targetField.GetOr(""));
    if target == "" {
      return TargetMissing;
    }
    var lookup, _ := Shodan.FetchHost(key, target, isIpLiteral, dns, 2, respond);
    var plan := PlanTarget(target, lookup.result, now);
    if plan.Report? {
      return plan.report;
    }
    var upsert := db.UpdateOrCreateFinding(plan.ip, plan.defaults, now);
    if upsert.MultipleObjectsReturned? {
      return Unexpected;
    }
    assert upsert.pk in db.findings && db.findings[upsert.pk].ip == plan.ip;
    assert db.findings == old(db.findings)[upsert.pk := db.findings[upsert.pk]];
    return Saved(plan.ip);
  }
}
