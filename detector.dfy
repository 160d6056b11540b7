/** Platform selection of cc_launcher/detector/platform.py: alias resolution, the
    availability rule, and the fallback chain used when no platform is named. */
module Detector {
  import opened Wrappers
  import opened Text
  import opened Assoc
  import opened Config

  /** `_resolve_platform_alias`: nothing for an absent or empty request; otherwise the
      lower-cased token is looked up in the aliases (standing for itself when it is not
      an alias) and kept only if it names a configured platform. */
  function ResolvePlatformAlias(requested: Option<string>, cfg: PlatformsConfig): (r: Option<string>)
    ensures r.Some? ==> r.value in Keys(cfg.platforms)
    ensures (requested.None? || requested.value == "") ==> r.None?
    ensures requested.Some? && requested.value != "" ==>
      var c := Config.ResolvePlatformAlias(cfg, Lower(requested.value));
      r == if c in Keys(cfg.platforms) then Some(c) else None
  {
    if requested.None? || requested.value == "" then None
    else
      var token := Lower(requested.value);
      var resolved := if token in cfg.aliases then cfg.aliases[token] else token;
      if resolved in Keys(cfg.platforms) then Some(resolved) else None
  }

  /** `_is_platform_available`: enabled, some credential (any of the three, not exactly
      one), and non-empty name, api_base_url and model. */
  predicate IsPlatformAvailable(p: Profile) {
    IsEnabled(p) && HasAuth(p) && Truthy(p.name) && Truthy(p.apiBaseUrl) && Truthy(p.model)
  }

  /** A profile carrying all three credentials is still available. */
  lemma SeveralCredentialsAreAccepted()
    ensures IsPlatformAvailable(Profile(Some("P"), Some("https://p"), Some("m"), None,
                                        Some("key"), Some("token"), Some("login"), Some(true), None))
  {
  }

  /** Availability is stricter than the registry's own checks. */
  lemma AvailableImpliesRegistryChecks(p: Profile)
    requires IsPlatformAvailable(p)
    ensures EnabledWithAuth(p) && RequiredKeysPresent(p)
  {
  }

  /** The first available platform in stored order. */
  function FirstAvailable(ps: seq<(string, Profile)>): (r: Option<(string, Profile)>)
    ensures r.None? <==> forall i :: 0 <= i < |ps| ==> !IsPlatformAvailable(ps[i].1)
    ensures r.Some? ==> exists i :: 0 <= i < |ps| && ps[i] == r.value && IsPlatformAvailable(ps[i].1)
                           && forall j :: 0 <= j < i ==> !IsPlatformAvailable(ps[j].1)
  {
    if ps == [] then None
    else if IsPlatformAvailable(ps[0].1) then
      assert ps[0] == ps[0];
      Some(ps[0])
    else
      var r := FirstAvailable(ps[1..]);
      if r.Some? then
        var i :| 0 <= i < |ps[1..]| && ps[1..][i] == r.value && IsPlatformAvailable(ps[1..][i].1)
                 && forall j :: 0 <= j < i ==> !IsPlatformAvailable(ps[1..][j].1);
        assert ps[i + 1] == r.value;
        assert forall j :: 0 <= j < i + 1 ==> !IsPlatformAvailable(ps[j].1) by {
          forall j | 0 <= j < i + 1 ensures !IsPlatformAvailable(ps[j].1) {
            if j > 0 { assert ps[j] == ps[1..][j - 1]; }
          }
        }
        r
      else
        assert forall i :: 0 <= i < |ps| ==> !IsPlatformAvailable(ps[i].1) by {
          forall i | 0 <= i < |ps| ensures !IsPlatformAvailable(ps[i].1) {
            if i > 0 { assert ps[i] == ps[1..][i - 1]; }
          }
        }
        r
  }

  /** The configured default platform is named, exists and is available. */
  predicate DefaultUsable(cfg: PlatformsConfig) {
    Truthy(cfg.defaultPlatform)
    && GetPlatformConfig(cfg, cfg.defaultPlatform.value).Some?
    && IsPlatformAvailable(GetPlatformConfig(cfg, cfg.defaultPlatform.value).value)
  }

  /** What `_select_default_platform` chooses: the default platform when usable,
      otherwise the first available platform in stored order, otherwise nothing. */
  function DefaultChoice(cfg: PlatformsConfig): (r: Option<(string, Profile)>)
    ensures r.Some? ==> r.value in cfg.platforms && IsPlatformAvailable(r.value.1)
    ensures r.None? <==> forall i :: 0 <= i < |cfg.platforms| ==> !IsPlatformAvailable(cfg.platforms[i].1)
    ensures DefaultUsable(cfg) ==> r.Some? && r.value.0 == cfg.defaultPlatform.value
    ensures !DefaultUsable(cfg) ==> r == FirstAvailable(cfg.platforms)
  {
    if DefaultUsable(cfg) then
      var d := cfg.defaultPlatform.value;
      var p := GetPlatformConfig(cfg, d).value;
      assert exists i :: 0 <= i < |cfg.platforms| && cfg.platforms[i] == (d, p);
      Some((d, p))
    else FirstAvailable(cfg.platforms)
  }

  /** `_select_default_platform`, with its first-match loop. */
  method SelectDefaultPlatform(cfg: PlatformsConfig) returns (r: Option<(string, Profile)>)
    ensures r == DefaultChoice(cfg)
  {
    if Truthy(cfg.defaultPlatform) {
      var platformConfig := GetPlatformConfig(cfg, cfg.defaultPlatform.value);
      if platformConfig.Some? && IsPlatformAvailable(platformConfig.value) {
        return Some((cfg.defaultPlatform.value, platformConfig.value));
      }
    }
    var ps := cfg.platforms;
    var i := 0;
    while i < |ps|
      invariant 0 <= i <= |ps|
      invariant forall j :: 0 <= j < i ==> !IsPlatformAvailable(ps[j].1)
    {
      if IsPlatformAvailable(ps[i].1) {
        FirstAvailableIsFirst(ps, i);
        return Some(ps[i]);
      }
      i := i + 1;
    }
    return None;
  }

  lemma FirstAvailableIsFirst(ps: seq<(string, Profile)>, i: nat)
    requires i < |ps| && IsPlatformAvailable(ps[i].1)
    requires forall j :: 0 <= j < i ==> !IsPlatformAvailable(ps[j].1)
    ensures FirstAvailable(ps) == Some(ps[i])
  {
    var r := FirstAvailable(ps);
    var k :| 0 <= k < |ps| && ps[k] == r.value && IsPlatformAvailable(ps[k].1)
             && forall j :: 0 <= j < k ==> !IsPlatformAvailable(ps[j].1);
    if k < i {
    } else if i < k {
    }
  }

  /** What `detect_platform` returns. A request that resolves to a configured platform
      with a non-empty key gets that platform when it is available and nothing otherwise;
      a request that is empty, or names no configured platform, falls through to the
      default choice. */
  function Detection(requested: Option<string>, cfg: PlatformsConfig): (r: Option<(string, Profile)>)
    ensures r.Some? ==> r.value in cfg.platforms && IsPlatformAvailable(r.value.1)
    ensures !Truthy(ResolvePlatformAlias(requested, cfg)) ==> r == DefaultChoice(cfg)
    ensures Truthy(ResolvePlatformAlias(requested, cfg)) ==>
      var k := ResolvePlatformAlias(requested, cfg).value;
      var p := GetPlatformConfig(cfg, k).value;
      r == if IsPlatformAvailable(p) then Some((k, p)) else None
  {
    var resolved := ResolvePlatformAlias(requested, cfg);
    if Truthy(resolved) then
      var p := GetPlatformConfig(cfg, resolved.value).value;
      if IsPlatformAvailable(p) then Some((resolved.value, p)) else None
    else DefaultChoice(cfg)
  }

  /** `detect_platform`. */
  method DetectPlatform(requested: Option<string>, cfg: PlatformsConfig) returns (r: Option<(string, Profile)>)
    ensures r == Detection(requested, cfg)
  {
    var resolved := ResolvePlatformAlias(requested, cfg);
    if Truthy(resolved) {
      var platformConfig := GetPlatformConfig(cfg, resolved.value);
      if platformConfig.Some? && IsPlatformAvailable(platformConfig.value) {
        return Some((resolved.value, platformConfig.value));
      } else {
        return None;
      }
    }
    r := SelectDefaultPlatform(cfg);
  }

  /** An explicit request for an existing but unavailable platform yields nothing, even
      when some other platform (the default, say) is available. */
  lemma {:induction false} UnavailableRequestHasNoFallback(requested: Option<string>, cfg: PlatformsConfig)
    requires Truthy(ResolvePlatformAlias(requested, cfg))
    requires !IsPlatformAvailable(GetPlatformConfig(cfg, ResolvePlatformAlias(requested, cfg).value).value)
    ensures Detection(requested, cfg).None?
  {
  }

  /** A request naming no platform behaves exactly like no request at all. */
  lemma {:induction false} UnknownRequestFallsThrough(requested: string, cfg: PlatformsConfig)
    requires Config.ResolvePlatformAlias(cfg, Lower(requested)) !in Keys(cfg.platforms)
    ensures Detection(Some(requested), cfg) == Detection(None, cfg)
  {
  }

  /** `list_available_platforms`: the available platforms in stored order. */
  method ListAvailablePlatforms(cfg: PlatformsConfig) returns (available: seq<(string, Profile)>)
    ensures available == Keep(cfg.platforms, IsPlatformAvailable)
  {
    var ps := cfg.platforms;
    available := [];
    var i := 0;
    while i < |ps|
      invariant 0 <= i <= |ps|
      invariant available == Keep(ps[..i], IsPlatformAvailable)
    {
      assert ps[..i + 1][..i] == ps[..i];
      if IsPlatformAvailable(ps[i].1) {
        available := available + [ps[i]];
      }
      i := i + 1;
    }
    assert ps[..|ps|] == ps;
  }

  /** `PlatformDetector.validate_platform_config`: the platform exists under exactly this
      key (no alias, no lower-casing) and is available. */
  function ValidatePlatformConfig(platformName: string, cfg: PlatformsConfig): (ok: bool)
    ensures ok <==> exists i :: 0 <= i < |cfg.platforms| && cfg.platforms[i].0 == platformName
                       && GetPlatformConfig(cfg, platformName) == Some(cfg.platforms[i].1)
                       && IsPlatformAvailable(cfg.platforms[i].1)
  {
    match GetPlatformConfig(cfg, platformName)
    case None => false
    case Some(p) =>
      assert exists i :: 0 <= i < |cfg.platforms| && cfg.platforms[i] == (platformName, p);
      IsPlatformAvailable(p)
  }

  /** A platform validates exactly when it is among the listed available platforms. */
  lemma ValidateIffListed(platformName: string, cfg: PlatformsConfig)
    requires DistinctKeys(cfg.platforms)
    ensures ValidatePlatformConfig(platformName, cfg) <==> platformName in Keys(Keep(cfg.platforms, IsPlatformAvailable))
  {
    KeepSubMap(cfg.platforms, IsPlatformAvailable, platformName);
  }

  datatype PlatformStatus = PlatformStatus(
    name: string, enabled: bool, configured: bool, hasAuth: bool, available: bool)

  /** `get_platform_status`: a diagnostic projection of one profile. */
  function GetPlatformStatus(platformName: string, cfg: PlatformsConfig): (s: PlatformStatus)
    ensures GetPlatformConfig(cfg, platformName).None? ==>
      s == PlatformStatus(platformName, false, false, false, false)
    ensures s.available ==> s.enabled && s.hasAuth && s.configured
    ensures s.available <==> ValidatePlatformConfig(platformName, cfg)
    ensures GetPlatformConfig(cfg, platformName).Some? ==>
      var p := GetPlatformConfig(cfg, platformName).value;
      s.name == p.name.GetOr(platformName)
      && (s.available <==> s.enabled && s.hasAuth && s.configured && Truthy(p.name))
      && s.enabled == p.enabled.GetOr(false) && s.hasAuth == HasAuth(p)
      && s.configured == (Truthy(p.apiBaseUrl) && Truthy(p.model))
  {
    match GetPlatformConfig(cfg, platformName)
    case None => PlatformStatus(platformName, false, false, false, false)
    case Some(p) =>
      PlatformStatus(p.name.GetOr(platformName), p.enabled.GetOr(false),
                     Truthy(p.apiBaseUrl) && Truthy(p.model), HasAuth(p), IsPlatformAvailable(p))
  }
}
