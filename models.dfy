/**
 * The three stored tables of the breaches app (EmailIdentity, BreachHit,
 * ShodanFinding) and the ORM operations the views apply to them.
 *
 * The database is one object whose maps are the tables:
 *   - identities: primary key -> address (the address column is unique);
 *   - hits: (identity primary key, breach_name) -> the rest of the row; keying
 *     the map by the pair is the table's unique_together constraint;
 *   - findings: primary key -> row; the ip column carries NO uniqueness
 *     constraint, so two rows may share an IP unless the writers keep them apart.
 */
module Models {
  import opened Wrappers
  import opened Json

  /** HIBP serves breach logos under this prefix. */
  const LogoBase: string := "https://haveibeenpwned.com/Content/Images/PwnedLogos/"

  /** The eight boolean risk flags; none is nullable and each defaults to false. */
  datatype Flags = Flags(
    isVerified: bool,
    isSensitive: bool,
    isFabricated: bool,
    isSpamList: bool,
    isRetired: bool,
    isMalware: bool,
    isStealerLog: bool,
    isSubscriptionFree: bool)

  const DefaultFlags: Flags := Flags(false, false, false, false, false, false, false, false)

  /**
   * The columns of a BreachHit other than its key. The three dates are nullable
   * (None) or 'YYYY-MM-DD'; description, pwn_count and data_classes hold what
   * the upsert passed.
   */
  datatype BreachHit = BreachHit(
    domain: string,
    occurredOn: Option<string>,
    title: string,
    description: Value,
    pwnCount: Value,
    dataClasses: Value,
    flags: Flags,
    addedOn: Option<string>,
    modifiedOn: Option<string>,
    logoPath: string)

  /** The natural key of a BreachHit: (identity primary key, breach_name). */
  type HitKey = (nat, string)

  /** BreachHit.logo_url: "" without a logo path, else the PwnedLogos URL of that file. */
  function LogoUrl(logoPath: string): (url: string)
    ensures url == "" <==> logoPath == ""
    ensures logoPath != "" ==> LogoBase <= url && url[|LogoBase|..] == logoPath
  {
    if logoPath == "" then "" else LogoBase + logoPath
  }

  /** The file name a logo URL points at, read back from the URL. */
  function LogoPathOf(url: string): string
  {
    if LogoBase <= url then url[|LogoBase|..] else ""
  }

  lemma LogoUrlRoundTrip(logoPath: string)
    ensures LogoPathOf(LogoUrl(logoPath)) == logoPath
  {
  }

  /** One Shodan host snapshot; created_on is set when the row is first written. */
  datatype ShodanFinding = ShodanFinding(
    ip: string,
    hostnames: Value,
    ports: Value,
    org: Value,
    os: Value,
    raw: Value,
    createdOn: string,
    lastSeen: Value)

  /** The columns `update_or_create` writes for a ShodanFinding. */
  datatype FindingDefaults = FindingDefaults(
    hostnames: Value, ports: Value, org: Value, os: Value, raw: Value, lastSeen: Value)

  /** What `update_or_create` reports: a created row, an updated row, or the error it raises. */
  datatype Upsert = Created(pk: nat) | Updated(pk: nat) | MultipleObjectsReturned

  /** At most one ShodanFinding per IP: kept by the upsert, not by the schema. */
  ghost predicate OneRowPerIp(findings: map<nat, ShodanFinding>)
  {
    forall p, q :: p in findings && q in findings && findings[p].ip == findings[q].ip ==> p == q
  }

  class Database {
    var identities: map<nat, string>
    var hits: map<HitKey, BreachHit>
    var findings: map<nat, ShodanFinding>
    var nextIdentityPk: nat
    var nextFindingPk: nat

    /** Addresses are unique, every hit belongs to a stored identity, keys come from the counters. */
    ghost predicate Valid()
      reads this
    {
      && (forall p, q :: p in identities && q in identities && identities[p] == identities[q] ==> p == q)
      && (forall k :: k in hits ==> k.0 in identities)
      && (forall p :: p in identities ==> p < nextIdentityPk)
      && (forall p :: p in findings ==> p < nextFindingPk)
    }

    constructor ()
      ensures Valid()
      ensures identities == map[] && hits == map[] && findings == map[]
    {
      identities, hits, findings := map[], map[], map[];
      nextIdentityPk, nextFindingPk := 1, 1;
    }

    /** `EmailIdentity.objects.get_or_create(address=...)`. */
    method GetOrCreateIdentity(address: string) returns (pk: nat, created: bool)
      requires Valid()
      modifies this
      ensures Valid()
      ensures created <==> address !in old(identities).Values
      ensures pk in identities && identities[pk] == address
      ensures identities == old(identities)[pk := address]
      ensures !created ==> pk in old(identities)
      ensures hits == old(hits) && findings == old(findings)
    {
      var existing := set p | p in identities && identities[p] == address;
      if existing == {} {
        assert forall p :: p in identities ==> (p in existing <==> identities[p] == address);
        pk := nextIdentityPk;
        identities := identities[pk := address];
        nextIdentityPk := nextIdentityPk + 1;
        created := true;
      } else {
        pk :| pk in existing;
        assert address in identities.Values;
        created := false;
      }
    }

    /** Deleting an identity cascades to every BreachHit row of that identity. */
    method DeleteIdentity(pk: nat)
      requires Valid()
      modifies this
      ensures Valid()
      ensures identities == old(identities) - {pk}
      ensures forall k :: k in hits <==> k in old(hits) && k.0 != pk
      ensures forall k :: k in hits ==> hits[k] == old(hits)[k]
      ensures findings == old(findings)
    {
      identities := identities - {pk};
      hits := map k | k in hits && k.0 != pk :: hits[k];
    }

    /** `BreachHit.objects.update_or_create(identity=..., breach_name=..., defaults=...)`. */
    method UpdateOrCreateHit(identity: nat, name: string, row: BreachHit) returns (created: bool)
      requires Valid() && identity in identities
      modifies this`hits
      ensures Valid()
      ensures created <==> (identity, name) !in old(hits)
      ensures hits == old(hits)[(identity, name) := row]
    {
      created := (identity, name) !in hits;
      hits := hits[(identity, name) := row];
    }

    /**
     * `ShodanFinding.objects.update_or_create(ip=..., defaults=...)`: creates a
     * row when no row has that IP, updates the one row that has it, and raises
     * MultipleObjectsReturned when several rows have it.
     */
    method UpdateOrCreateFinding(ip: string, d: FindingDefaults, now: string) returns (r: Upsert)
      requires Valid()
      modifies this
      ensures Valid()
      ensures identities == old(identities) && hits == old(hits)
      ensures r.Created? ==>
                && (forall p :: p in old(findings) ==> old(findings)[p].ip != ip)
                && r.pk !in old(findings)
                && findings == old(findings)[r.pk := ShodanFinding(ip, d.hostnames, d.ports, d.org, d.os,
                                                                   d.raw, now, d.lastSeen)]
      ensures r.Updated? ==>
                && r.pk in old(findings) && old(findings)[r.pk].ip == ip
                && (forall p :: p in old(findings) && old(findings)[p].ip == ip ==> p == r.pk)
                && findings == old(findings)[r.pk := ShodanFinding(ip, d.hostnames, d.ports, d.org, d.os,
                                                                   d.raw, old(findings)[r.pk].createdOn,
                                                                   d.lastSeen)]
      ensures r.MultipleObjectsReturned? ==>
                && findings == old(findings)
                && exists p, q :: p in old(findings) && q in old(findings) && p != q
                                  && old(findings)[p].ip == ip && old(findings)[q].ip == ip
      ensures OneRowPerIp(old(findings)) ==> OneRowPerIp(findings) && !r.MultipleObjectsReturned?
    {
      var matching := set p | p in findings && findings[p].ip == ip;
      if matching == {} {
        assert forall p :: p in findings ==> (p in matching <==> findings[p].ip == ip);
        var pk := nextFindingPk;
        findings := findings[pk := ShodanFinding(ip, d.hostnames, d.ports, d.org, d.os, d.raw, now, d.lastSeen)];
        nextFindingPk := nextFindingPk + 1;
        r := Created(pk);
      } else {
        var pk :| pk in matching;
        if matching == {pk} {
          assert forall p :: p in findings && findings[p].ip == ip ==> p == pk by {
            forall p | p in findings && findings[p].ip == ip ensures p == pk {
              assert p in matching;
            }
          }
          findings := findings[pk := ShodanFinding(ip, d.hostnames, d.ports, d.org, d.os, d.raw,
                                                   findings[pk].createdOn, d.lastSeen)];
          r := Updated(pk);
        } else {
          var q :| q in matching && q != pk;
          r := MultipleObjectsReturned;
        }
      }
    }

    /** Deleting one finding. */
    method DeleteFinding(pk: nat)
      requires Valid()
      modifies this`findings
      ensures Valid()
      ensures findings == old(findings) - {pk}
      ensures OneRowPerIp(old(findings)) ==> OneRowPerIp(findings)
    {
      findings := findings - {pk};
    }
  }
}
