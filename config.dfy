/** The platform registry of cc_launcher/core/config.py: the platforms document, its
    built-in default, and the lookups and checks ConfigManager offers over it. */
module Config {
  import opened Wrappers
  import opened Assoc

  /** One platform profile as stored in platforms.json. Every key is optional, so each
      field says whether the key is present; keys the core never reads are not kept.
      `maxOutputTokens` is `claude_code_config.max_output_tokens`. */
  datatype Profile = Profile(
    name: Option<string>,
    apiBaseUrl: Option<string>,
    model: Option<string>,
    smallModel: Option<string>,
    apiKey: Option<string>,
    authToken: Option<string>,
    loginToken: Option<string>,
    enabled: Option<bool>,
    maxOutputTokens: Option<int>)

  /** The platforms document: `platforms` in file order, `default_platform`, `aliases`.
      A missing `platforms` or `aliases` key reads as an empty dictionary. */
  datatype PlatformsConfig = PlatformsConfig(
    platforms: seq<(string, Profile)>,
    defaultPlatform: Option<string>,
    aliases: map<string, string>)

  /** Python truthiness of an optional string: present and non-empty. */
  predicate Truthy(s: Option<string>) {
    s.Some? && s.value != ""
  }

  /** `platform_config.get("enabled", False)` is truthy. */
  predicate IsEnabled(p: Profile) {
    p.enabled == Some(true)
  }

  /** `any([api_key, auth_token, login_token])`: at least one credential is non-empty. */
  predicate HasAuth(p: Profile) {
    Truthy(p.apiKey) || Truthy(p.authToken) || Truthy(p.loginToken)
  }

  predicate EnabledWithAuth(p: Profile) {
    IsEnabled(p) && HasAuth(p)
  }

  /** The document written when platforms.json does not exist yet. */
  const DefaultPlatformsConfig: PlatformsConfig :=
    PlatformsConfig(
      [ ("gaccode", Profile(Some("GAC Code"), Some("https://relay05.gaccode.com/claudecode"),
                            Some("claude-3-5-sonnet-20241022"), None,
                            None, None, Some(""), Some(true), None)),
        ("deepseek", Profile(Some("DeepSeek"), Some("https://api.deepseek.com/anthropic"),
                             Some("deepseek-chat"), None,
                             Some(""), None, None, Some(true), None)) ],
      Some("gaccode"),
      map["gc" := "gaccode", "dp" := "deepseek", "ds" := "deepseek"])

  /** `get_platforms_config`: the stored document, or the default one when the file is
      missing or cannot be parsed (`stored` is None). */
  function GetPlatformsConfig(stored: Option<PlatformsConfig>): (cfg: PlatformsConfig)
    ensures stored.Some? ==> cfg == stored.value
    ensures stored.None? ==> cfg == DefaultPlatformsConfig
  {
    stored.GetOr(DefaultPlatformsConfig)
  }

  /** `get_platform_config`: the profile stored under exactly this key, or None. */
  function GetPlatformConfig(cfg: PlatformsConfig, platformName: string): (r: Option<Profile>)
    ensures r.Some? <==> platformName in Keys(cfg.platforms)
    ensures r.Some? ==> (platformName, r.value) in cfg.platforms
  {
    Get(cfg.platforms, platformName)
  }

  /** `get_enabled_platforms`: in file order, every platform that is enabled and has
      some credential. URL, model and name are not looked at. */
  method GetEnabledPlatforms(cfg: PlatformsConfig) returns (enabled: seq<(string, Profile)>)
    ensures enabled == Keep(cfg.platforms, EnabledWithAuth)
  {
    var ps := cfg.platforms;
    enabled := [];
    var i := 0;
    while i < |ps|
      invariant 0 <= i <= |ps|
      invariant enabled == Keep(ps[..i], EnabledWithAuth)
    {
      var (platformId, platformConfig) := ps[i];
      assert ps[..i + 1][..i] == ps[..i];
      if IsEnabled(platformConfig) {
        var hasAuth := HasAuth(platformConfig);
        if hasAuth {
          enabled := enabled + [(platformId, platformConfig)];
        }
      }
      i := i + 1;
    }
    assert ps[..|ps|] == ps;
  }

  /** `resolve_platform_alias`: an exact, case-sensitive alias lookup that returns the
      input itself when it is not an alias; whether the result exists is not checked. */
  function ResolvePlatformAlias(cfg: PlatformsConfig, platform: string): (r: string)
    ensures platform in cfg.aliases ==> r == cfg.aliases[platform]
    ensures platform !in cfg.aliases ==> r == platform
  {
    if platform in cfg.aliases then cfg.aliases[platform] else platform
  }

  /** The four keys `validate_platform_config` requires to be present (not truthy). */
  predicate RequiredKeysPresent(p: Profile) {
    p.name.Some? && p.apiBaseUrl.Some? && p.model.Some? && p.enabled.Some?
  }

  /** `ConfigManager.validate_platform_config`: the platform exists, the keys name,
      api_base_url, model and enabled are present, and some credential is non-empty. */
  function ValidatePlatformConfig(cfg: PlatformsConfig, platformName: string): (ok: bool)
    ensures ok <==> (exists p :: (platformName, p) in cfg.platforms && RequiredKeysPresent(p) && HasAuth(p)
                      && GetPlatformConfig(cfg, platformName) == Some(p))
    ensures ok ==> platformName in Keys(cfg.platforms)
  {
    match GetPlatformConfig(cfg, platformName)
    case None => false
    case Some(p) => RequiredKeysPresent(p) && HasAuth(p)
  }

  /** Key presence is all that is asked: a disabled platform with a credential passes. */
  lemma DisabledPlatformCanValidate()
    ensures var p := Profile(Some("X"), Some("https://x"), Some("m"), None, Some("k"), None, None, Some(false), None);
      ValidatePlatformConfig(PlatformsConfig([("x", p)], None, map[]), "x") && !IsEnabled(p)
  {
    var p := Profile(Some("X"), Some("https://x"), Some("m"), None, Some("k"), None, None, Some(false), None);
    assert Get([("x", p)], "x") == Some(p);
  }

  /** The built-in document has no usable platform: both credentials are empty, so
      `get_enabled_platforms` returns an empty dictionary and nothing validates. */
  lemma DefaultsHaveNoEnabledPlatforms()
    ensures Keep(DefaultPlatformsConfig.platforms, EnabledWithAuth) == []
    ensures !ValidatePlatformConfig(DefaultPlatformsConfig, "gaccode")
    ensures !ValidatePlatformConfig(DefaultPlatformsConfig, "deepseek")
    ensures DefaultPlatformsConfig.defaultPlatform == Some("gaccode")
    ensures Keys(DefaultPlatformsConfig.platforms) == {"gaccode", "deepseek"}
  {
    var ps := DefaultPlatformsConfig.platforms;
    assert ps[..1] == [ps[0]];
    assert [ps[0]][..0] == [];
    assert Keep(ps, EnabledWithAuth) == Keep(ps[..1], EnabledWithAuth);
    assert Get(ps, "deepseek") == Some(ps[1].1);
  }
}
