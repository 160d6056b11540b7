/** The environment manager of cc_launcher/core/environment.py: which variables are
    scrubbed from the process environment, which are derived from a platform profile,
    and the environment handed to the Claude Code child process. */
module Environment {
  import opened Wrappers
  import opened Text
  import opened Config
  import Detector

  const ApiKeyVar := "ANTHROPIC_API_KEY"
  const AuthTokenVar := "ANTHROPIC_AUTH_TOKEN"
  const BaseUrlVar := "ANTHROPIC_BASE_URL"
  const ModelVar := "ANTHROPIC_MODEL"
  const HaikuModelVar := "ANTHROPIC_DEFAULT_HAIKU_MODEL"
  const SonnetModelVar := "ANTHROPIC_DEFAULT_SONNET_MODEL"
  const OpusModelVar := "ANTHROPIC_DEFAULT_OPUS_MODEL"
  const SmallFastModelVar := "ANTHROPIC_SMALL_FAST_MODEL"
  const MaxOutputTokensVar := "CLAUDE_CODE_MAX_OUTPUT_TOKENS"
  const GitBashPathVar := "CLAUDE_CODE_GIT_BASH_PATH"

  /** The variables removed from the process environment before a launch, in order. */
  const VarsToClear: seq<string> := [
    "ANTHROPIC_API_KEY", "ANTHROPIC_AUTH_TOKEN", "ANTHROPIC_BASE_URL", "ANTHROPIC_API_URL",
    "ANTHROPIC_API_VERSION", "ANTHROPIC_CUSTOM_HEADERS", "ANTHROPIC_DEFAULT_HEADERS",
    "ANTHROPIC_MODEL", "ANTHROPIC_SMALL_FAST_MODEL", "ANTHROPIC_SMALL_FAST_MODEL_AWS_REGION",
    "ANTHROPIC_TIMEOUT_MS", "ANTHROPIC_REQUEST_TIMEOUT", "ANTHROPIC_MAX_RETRIES",
    "ANTHROPIC_DEFAULT_HAIKU_MODEL", "ANTHROPIC_DEFAULT_OPUS_MODEL", "ANTHROPIC_DEFAULT_SONNET_MODEL",
    "CLAUDE_CODE_MAX_OUTPUT_TOKENS",
    "MOONSHOT_API_KEY", "DEEPSEEK_API_KEY", "SILICONFLOW_API_KEY",
    "CLAUDE_API_KEY", "CLAUDE_AUTH_TOKEN", "CLAUDE_BASE_URL", "CLAUDE_MODEL"]

  function SetOf(names: seq<string>): set<string> {
    set x | x in names
  }

  function ClearedNames(): set<string> {
    SetOf(VarsToClear)
  }

  /** Every name `PlatformEnvVars` may set. */
  const DerivedNames: set<string> := {
    ApiKeyVar, AuthTokenVar, BaseUrlVar, ModelVar, HaikuModelVar, SonnetModelVar,
    OpusModelVar, SmallFastModelVar, MaxOutputTokensVar, GitBashPathVar }

  /** The small model: `small_model` when the key is present (even if empty), else `model`. */
  function SmallModel(p: Profile): Option<string> {
    if p.smallModel.Some? then p.smallModel else p.model
  }

  /** The value `_setup_new_env_vars` gives one variable, or None when it leaves the
      variable out. Only the first non-empty credential of api_key, auth_token and
      login_token is passed on (login_token as an API key), and the other credential
      variable is blanked. */
  function DerivedValue(p: Profile, gitBashPath: Option<string>, name: string): Option<string> {
    if name == ApiKeyVar then
      if Truthy(p.apiKey) then p.apiKey
      else if Truthy(p.authToken) then Some("")
      else if Truthy(p.loginToken) then p.loginToken
      else None
    else if name == AuthTokenVar then
      if Truthy(p.apiKey) then Some("")
      else if Truthy(p.authToken) then p.authToken
      else if Truthy(p.loginToken) then Some("")
      else None
    else if name == BaseUrlVar then
      if Truthy(p.apiBaseUrl) then p.apiBaseUrl else None
    else if name in {ModelVar, HaikuModelVar, SonnetModelVar, OpusModelVar} then
      if Truthy(p.model) then p.model else None
    else if name == SmallFastModelVar then
      if Truthy(SmallModel(p)) then SmallModel(p) else None
    else if name == MaxOutputTokensVar then
      if p.maxOutputTokens.Some? && p.maxOutputTokens.value != 0
      then Some(IntToDecimal(p.maxOutputTokens.value)) else None
    else if name == GitBashPathVar then gitBashPath
    else None
  }

  /** `_setup_new_env_vars`. `gitBashPath` is what Git Bash detection found when the
      host is Windows, and None on other hosts or when nothing was found. */
  function PlatformEnvVars(p: Profile, gitBashPath: Option<string>): (env: map<string, string>)
    // exactly one credential is passed on, never two, chosen api_key > auth_token > login_token
    ensures (ApiKeyVar in env) == HasAuth(p) && (AuthTokenVar in env) == HasAuth(p)
    ensures HasAuth(p) ==> (env[ApiKeyVar] != "") != (env[AuthTokenVar] != "")
    ensures Truthy(p.apiKey) ==> env[ApiKeyVar] == p.apiKey.value && env[AuthTokenVar] == ""
    ensures !Truthy(p.apiKey) && Truthy(p.authToken) ==>
      env[AuthTokenVar] == p.authToken.value && env[ApiKeyVar] == ""
    ensures !Truthy(p.apiKey) && !Truthy(p.authToken) && Truthy(p.loginToken) ==>
      env[ApiKeyVar] == p.loginToken.value && env[AuthTokenVar] == ""
    // the endpoint, and the model mirrored into every model slot
    ensures (BaseUrlVar in env) == Truthy(p.apiBaseUrl)
    ensures BaseUrlVar in env ==> env[BaseUrlVar] == p.apiBaseUrl.value
    ensures forall v :: v in {ModelVar, HaikuModelVar, SonnetModelVar, OpusModelVar} ==>
      (v in env) == Truthy(p.model) && (v in env ==> env[v] == p.model.value)
    // the small model falls back to the model only when the `small_model` key is absent
    ensures (SmallFastModelVar in env) == Truthy(SmallModel(p))
    ensures SmallFastModelVar in env ==> env[SmallFastModelVar] == SmallModel(p).value
    // a zero or absent token limit is not passed on
    ensures (MaxOutputTokensVar in env) == (p.maxOutputTokens.Some? && p.maxOutputTokens.value != 0)
    ensures MaxOutputTokensVar in env ==> env[MaxOutputTokensVar] == IntToDecimal(p.maxOutputTokens.value)
    ensures (GitBashPathVar in env) == gitBashPath.Some?
    ensures GitBashPathVar in env ==> env[GitBashPathVar] == gitBashPath.value
    ensures env.Keys <= DerivedNames
  {
    map name | name in DerivedNames && DerivedValue(p, gitBashPath, name).Some? ::
      DerivedValue(p, gitBashPath, name).value
  }

  /** The token limit reaches the child as a decimal string that reads back as the limit. */
  lemma MaxOutputTokensRoundTrip(p: Profile, gitBashPath: Option<string>)
    requires p.maxOutputTokens.Some? && p.maxOutputTokens.value != 0
    ensures var env := PlatformEnvVars(p, gitBashPath);
      MaxOutputTokensVar in env && ParseInt(env[MaxOutputTokensVar]) == p.maxOutputTokens.value
  {
    IntToDecimalRoundTrip(p.maxOutputTokens.value);
  }

  /** `validate_environment`: some credential, an endpoint and a model. */
  predicate ValidateEnvironment(p: Profile) {
    HasAuth(p) && Truthy(p.apiBaseUrl) && Truthy(p.model)
  }

  /** A profile validates exactly when the variables derived from it carry a non-empty
      credential, an endpoint and a model. */
  lemma ValidateIffDerivedComplete(p: Profile, gitBashPath: Option<string>)
    ensures var env := PlatformEnvVars(p, gitBashPath);
      ValidateEnvironment(p) <==>
        (ApiKeyVar in env && AuthTokenVar in env && (env[ApiKeyVar] != "" || env[AuthTokenVar] != "")
         && BaseUrlVar in env && ModelVar in env)
  {
  }

  /** The detector's availability rule is this validation plus `enabled` and a name. */
  lemma AvailableIffValidAndEnabled(p: Profile)
    ensures Detector.IsPlatformAvailable(p) <==> IsEnabled(p) && Truthy(p.name) && ValidateEnvironment(p)
  {
  }

  /** The process environment (`os.environ`), which launching mutates in place. */
  class ProcessEnvironment {
    var vars: map<string, string>

    constructor (initial: map<string, string>)
      ensures vars == initial
    {
      vars := initial;
    }
  }

  /** Deletes each of `names` that is set, in order, and reports which were deleted. */
  method DeleteEach(environ: ProcessEnvironment, names: seq<string>) returns (cleared: seq<string>)
    modifies environ
    ensures environ.vars == old(environ.vars) - SetOf(names)
    ensures forall x :: x in cleared <==> x in SetOf(names) && x in old(environ.vars)
  {
    cleared := [];
    var i := 0;
    while i < |names|
      invariant 0 <= i <= |names|
      invariant environ.vars == old(environ.vars) - SetOf(names[..i])
      invariant forall x :: x in cleared <==> x in SetOf(names[..i]) && x in old(environ.vars)
    {
      var varName := names[i];
      assert SetOf(names[..i + 1]) == SetOf(names[..i]) + {varName} by {
        assert names[..i + 1] == names[..i] + [varName];
      }
      if varName in environ.vars {
        environ.vars := environ.vars - {varName};
        cleared := cleared + [varName];
      }
      i := i + 1;
    }
    assert names[..i] == names;
  }

  /** `_clear_existing_env_vars`: deletes each listed variable that is set, and reports
      which ones were deleted. */
  method ClearExistingEnvVars(environ: ProcessEnvironment) returns (cleared: seq<string>)
    modifies environ
    ensures environ.vars == old(environ.vars) - ClearedNames()
    ensures forall x :: x in cleared <==> x in ClearedNames() && x in old(environ.vars)
  {
    cleared := DeleteEach(environ, VarsToClear);
  }

  /** `setup_environment`: scrubs the process environment and returns the variables
      derived from the profile (it does not write them into the process environment). */
  method SetupEnvironment(environ: ProcessEnvironment, p: Profile, gitBashPath: Option<string>)
    returns (envVars: map<string, string>)
    modifies environ
    ensures environ.vars == old(environ.vars) - ClearedNames()
    ensures envVars == PlatformEnvVars(p, gitBashPath)
  {
    var _ := ClearExistingEnvVars(environ);
    envVars := PlatformEnvVars(p, gitBashPath);
  }

  /** `create_subprocess_env`: a copy of the current environment updated with the derived
      variables, which win over inherited values. */
  function CreateSubprocessEnv(environ: map<string, string>, p: Profile, gitBashPath: Option<string>)
    : (env: map<string, string>)
    ensures env.Keys == environ.Keys + PlatformEnvVars(p, gitBashPath).Keys
    ensures forall k :: k in PlatformEnvVars(p, gitBashPath) ==> env[k] == PlatformEnvVars(p, gitBashPath)[k]
    ensures forall k :: k in environ && k !in PlatformEnvVars(p, gitBashPath) ==> env[k] == environ[k]
  {
    environ + PlatformEnvVars(p, gitBashPath)
  }

  /** After a scrub, no stale credential, endpoint or model survives into the child: each
      scrubbed name reaches it only when, and exactly as, the profile derives it. */
  lemma {:induction false} ScrubbedChildHasNoStaleSettings(environ: map<string, string>, p: Profile, gitBashPath: Option<string>)
    ensures var child := CreateSubprocessEnv(environ - ClearedNames(), p, gitBashPath);
      var derived := PlatformEnvVars(p, gitBashPath);
      forall k :: k in ClearedNames() ==> (k in child <==> k in derived) && (k in child ==> child[k] == derived[k])
  {
  }
}
