/** Environment configuration (config/production_config.py): the settings of
    each environment class, the production checks, and `get_config`. The
    process environment is a map from variable names to values. */
module ProductionConfig {
  import opened Wrappers
  import opened Text
  
  type Env = map<string, string>

  /** `os.environ.get(name) or default`: unset and empty both fall back. */
  function EnvOr(env: Env, name: string, default: string): (v: string)
    ensures name in env && env[name] != "" ==> v == env[name]
    ensures name !in env || env[name] == "" ==> v == default
  {
    if name in env && env[name] != "" then env[name] else default
  }

  /** `os.environ.get(name, default)`: only an unset variable falls back; an
      empty one is kept. */
  function EnvGet(env: Env, name: string, default: string): (v: string)
    ensures name in env ==> v == env[name]
    ensures name !in env ==> v == default
  {
    if name in env then env[name] else default
  }

  /** `os.environ.get(name)`, as a Python truth value would see it. */
  predicate IsSet(env: Env, name: string) {
    name in env && env[name] != ""
  }

  datatype Environment = Development | Testing | Staging | Production

  /** The class attributes that differ between the environments. */
  datatype Settings = Settings(environment: Environment, debug: bool, testing: bool,
                               databaseUrl: Option<string>, logLevel: string,
                               cookieSecure: bool, sameSite: string, csrf: bool)

  /** The attributes each class ends up with when the module is imported. */
  function SettingsOf(e: Environment, env: Env): (s: Settings)
    ensures s.environment == e
    ensures s.debug <==> e == Development
    ensures s.testing <==> e == Testing
    ensures s.cookieSecure <==> s.csrf
    ensures s.cookieSecure <==> e in {Staging, Production}
    ensures s.sameSite == (if e == Production then "Strict" else "Lax")
    ensures e == Production && "LOG_LEVEL" in env ==> s.logLevel == env["LOG_LEVEL"]
    ensures e == Production && "LOG_LEVEL" !in env ==> s.logLevel == "WARNING"
    ensures e != Production ==> s.logLevel == (if e == Development then "DEBUG" else if e == Testing then "WARNING" else "INFO")
    ensures s.databaseUrl.None? <==> (e == Production && "DATABASE_URL" !in env) || (e == Staging && "STAGING_DATABASE_URL" !in env)
    ensures e == Development ==> s.databaseUrl == Some(EnvOr(env, "DEV_DATABASE_URL", "sqlite:///tou_connect_dev.db"))
    ensures e == Testing ==> s.databaseUrl == Some("sqlite:///:memory:")
    ensures e == Production && "DATABASE_URL" in env ==> s.databaseUrl == Some(env["DATABASE_URL"])
    ensures e == Staging && "STAGING_DATABASE_URL" in env ==> s.databaseUrl == Some(env["STAGING_DATABASE_URL"])
  {
    match e
    case Development =>
      Settings(e, true, false, Some(EnvOr(env, "DEV_DATABASE_URL", "sqlite:///tou_connect_dev.db")),
               "DEBUG", false, "Lax", false)
    case Testing =>
      Settings(e, false, true, Some("sqlite:///:memory:"), "WARNING", false, "Lax", false)
    case Production =>
      Settings(e, false, false, if "DATABASE_URL" in env then Some(env["DATABASE_URL"]) else None,
               EnvGet(env, "LOG_LEVEL", "WARNING"), true, "Strict", true)
    case Staging =>
      Settings(e, false, false, if "STAGING_DATABASE_URL" in env then Some(env["STAGING_DATABASE_URL"]) else None,
               "INFO", true, "Lax", true)
  }

  const RequiredVars: seq<string> := ["SECRET_KEY", "DATABASE_URL", "GEMINI_API_KEY", "TWITTER_BEARER_TOKEN"]

  const MissingPrefix := "本番環境で必要な環境変数が設定されていません: "
  const WeakKeyMessage := "本番環境では強力なSECRET_KEYが必要です"
  const RedisMessage := "本番環境ではREDIS_URLが必要です"

  /** The variables of `vars` that are unset or empty, in list order. */
  function Unset(env: Env, vars: seq<string>): (m: seq<string>)
    ensures forall v :: v in m <==> v in vars && !IsSet(env, v)
    decreases |vars|
  {
    if |vars| == 0 then []
    else (if IsSet(env, vars[0]) then [] else [vars[0]]) + Unset(env, vars[1..])
  }

  /** The required variables that are unset or empty. */
  function Missing(env: Env): seq<string> {
    Unset(env, RequiredVars)
  }

  predicate StrongSecret(key: string) {
    key != "dev-secret-key" && |key| >= 32
  }

  /** `_validate_production_settings`. */
  function Validate(env: Env): (r: Result<(), string>)
    ensures r.Ok? <==> Missing(env) == [] && IsSet(env, "SECRET_KEY") && StrongSecret(env["SECRET_KEY"])
    ensures Missing(env) != [] ==> r == Err(MissingPrefix + Join(", ", Missing(env)))
    ensures Missing(env) == [] && r.Err? ==> r == Err(WeakKeyMessage)
  {
    var m := Missing(env);
    if m != [] then Err(MissingPrefix + Join(", ", m))
    else
      assert RequiredVars[0] == "SECRET_KEY";
      if !StrongSecret(env["SECRET_KEY"]) then Err(WeakKeyMessage) else Ok(())
  }

  /** The default development key is refused; it is also too short for the
      length rule on its own. */
  lemma DevKeyRefused(key: string)
    requires key == "dev-secret-key"
    ensures !StrongSecret(key) && |key| < 32
  {
  }

  /** A key that passes the length rule passes the whole check, so the
      comparison with the development key never decides anything. */
  lemma LengthDecidesStrength(key: string)
    ensures StrongSecret(key) <==> |key| >= 32
  {
    if key == "dev-secret-key" {
      assert |key| == 14;
    }
  }

  /** The class-level check that runs when the module is imported. */
  predicate ModuleLoads(env: Env) {
    IsSet(env, "REDIS_URL") || "ENVIRONMENT" !in env || env["ENVIRONMENT"] != "production"
  }

  function EnvironmentOf(name: string): (e: Option<Environment>)
    ensures e.Some? <==> name in {"development", "testing", "staging", "production"}
  {
    if name == "development" then Some(Development)
    else if name == "testing" then Some(Testing)
    else if name == "staging" then Some(Staging)
    else if name == "production" then Some(Production)
    else None
  }

  /** `get_config`, the module having been imported first. */
  function GetConfig(env: Env, environment: Option<string>): (r: Result<Settings, string>)
    ensures !ModuleLoads(env) ==> r == Err(RedisMessage)
    ensures var name := if environment.Some? then environment.value
                        else if "ENVIRONMENT" in env then env["ENVIRONMENT"] else "development";
            ModuleLoads(env) && EnvironmentOf(Lower(name)).None? ==> r == Err("Unknown environment: " + name)
    ensures r.Ok? ==> r.value.environment in {Staging, Production} ==> Validate(env).Ok?
    ensures r.Ok? ==> r.value == SettingsOf(r.value.environment, env)
  {
    if !ModuleLoads(env) then Err(RedisMessage)
    else
      var name := if environment.Some? then environment.value
                  else if "ENVIRONMENT" in env then env["ENVIRONMENT"] else "development";
      match EnvironmentOf(Lower(name))
      case None => Err("Unknown environment: " + name)
      case Some(e) =>
        if e in {Staging, Production} then
          match Validate(env)
          case Err(msg) => Err(msg)
          case Ok(_) => Ok(SettingsOf(e, env))
        else Ok(SettingsOf(e, env))
  }

  /** The environment name is read without regard to case. */
  lemma CaseInsensitive(env: Env, name: string)
    requires ModuleLoads(env)
    ensures GetConfig(env, Some(name)).Ok? <==> GetConfig(env, Some(Lower(name))).Ok?
    ensures GetConfig(env, Some(name)).Ok? ==> GetConfig(env, Some(name)) == GetConfig(env, Some(Lower(name)))
  {
    LowerIdempotent(name);
  }

  /** Development and testing never look at the production variables. */
  lemma LocalNeedsNoSecrets(env: Env, name: string)
    requires ModuleLoads(env)
    requires EnvironmentOf(Lower(name)) in {Some(Development), Some(Testing)}
    ensures GetConfig(env, Some(name)).Ok?
  {
  }

  /** Staging checks `DATABASE_URL` although it connects with
      `STAGING_DATABASE_URL`: the staging URL may be missing while the
      configuration is still accepted. */
  lemma StagingValidatesOtherUrl(env: Env)
    requires ModuleLoads(env) && Validate(env).Ok? && "STAGING_DATABASE_URL" !in env
    ensures GetConfig(env, Some("staging")) == Ok(SettingsOf(Staging, env))
    ensures SettingsOf(Staging, env).databaseUrl.None?
  {
    LowerKeeps("staging");
  }
}
