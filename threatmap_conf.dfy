/**
 * ThreatMap settings (`conf_get`): a fixed set of known names with defaults,
 * overridden entry by entry by the optional `THREATMAP` settings block.
 */
module ThreatmapConf {
  import opened Wrappers
  import opened Json

  /** The known names and their defaults, in declaration order. */
  const Defaults: Fields := [
    ("PROVIDER", Str("cloudflare")),
    ("CACHE_SECONDS", Int(600)),
    ("POINT_LIMIT", Int(15)),
    ("AUTO_REFRESH_MS", Int(0))]

  /** What `conf_get` raises. */
  datatype ConfError =
    | UnknownSetting(message: string)  // the KeyError for a name outside the defaults
    | BlockNotADict                    // `.get` on a truthy THREATMAP that is not a dict

  /**
   * `conf_get(name)` where `threatmap` is the THREATMAP attribute of the
   * settings (None when the attribute is absent).
   */
  function ConfGet(name: string, threatmap: Option<Value>): (r: Result<Value, ConfError>)
    ensures !HasKey(Defaults, name) ==> r == Err(UnknownSetting("Unknown THREATMAP setting: " + Repr(Str(name))))
  {
    if !HasKey(Defaults, name) then Err(UnknownSetting("Unknown THREATMAP setting: " + Repr(Str(name))))
    else
      var block := Or(threatmap.GetOr(Obj([])), Obj([]));
      if !block.Obj? then Err(BlockNotADict)
      else Ok(GetOr(block.fields, name, Lookup(Defaults, name)))
  }

  /** The names `conf_get` accepts. */
  lemma KnownNames(name: string)
    ensures HasKey(Defaults, name) <==>
            name == "PROVIDER" || name == "CACHE_SECONDS" || name == "POINT_LIMIT" || name == "AUTO_REFRESH_MS"
  {
    if name == "PROVIDER" {
      assert Defaults[0].0 == name;
    } else if name == "CACHE_SECONDS" {
      assert Defaults[1].0 == name;
    } else if name == "POINT_LIMIT" {
      assert Defaults[2].0 == name;
    } else if name == "AUTO_REFRESH_MS" {
      assert Defaults[3].0 == name;
    }
  }

  /**
   * For a known name: a value set in the block wins, even a falsy one; a name
   * the block does not set, or a missing or empty block, gives the default.
   */
  lemma ConfGetKnown(name: string, threatmap: Option<Value>)
    requires HasKey(Defaults, name)
    ensures threatmap.Some? && threatmap.value.Obj? && HasKey(threatmap.value.fields, name) ==>
              ConfGet(name, threatmap) == Ok(Get(threatmap.value.fields, name).value)
    ensures threatmap.Some? && threatmap.value.Obj? && !HasKey(threatmap.value.fields, name) ==>
              ConfGet(name, threatmap) == Ok(Get(Defaults, name).value)
    ensures threatmap.None? || !Truthy(threatmap.value) ==> ConfGet(name, threatmap) == Ok(Get(Defaults, name).value)
    ensures threatmap.Some? && Truthy(threatmap.value) && !threatmap.value.Obj? ==> ConfGet(name, threatmap) == Err(BlockNotADict)
  {
  }

  /** The four defaults. */
  lemma DefaultValues()
    ensures ConfGet("PROVIDER", None) == Ok(Str("cloudflare"))
    ensures ConfGet("CACHE_SECONDS", None) == Ok(Int(600))
    ensures ConfGet("POINT_LIMIT", None) == Ok(Int(15))
    ensures ConfGet("AUTO_REFRESH_MS", None) == Ok(Int(0))
  {
    KnownNames("PROVIDER");
    KnownNames("CACHE_SECONDS");
    KnownNames("POINT_LIMIT");
    KnownNames("AUTO_REFRESH_MS");
  }
}
