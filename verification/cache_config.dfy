/** The configuration module cache/cache_config.py: the strategy table with its
    descriptions, the Redis settings that `get_cache_config` merges in place,
    and the key helpers of `CacheKeyGenerator`. */
module CacheConfig {
  import opened Wrappers
  import opened Text
  import opened Json
  import CacheManager

  datatype StrategyConfig = StrategyConfig(name: string, ttl: int, prefix: string, description: string)

  /** `CACHE_STRATEGIES` */
  const CacheStrategies: seq<StrategyConfig> := [
    StrategyConfig("user_data", 1800, "user:", "ユーザープロファイル、興味、スキル情報"),
    StrategyConfig("analysis_results", 7200, "analysis:", "AI分析結果、Twitter分析、マッチング結果"),
    StrategyConfig("matching_results", 3600, "match:", "ユーザーマッチング結果"),
    StrategyConfig("api_responses", 300, "api:", "外部API応答結果"),
    StrategyConfig("session_data", 86400, "session:", "ユーザーセッション情報"),
    StrategyConfig("static_content", 86400, "static:", "静的コンテンツ、設定情報")
  ]

  /** The configured table and the manager's own table agree on every name, TTL
      and prefix, entry by entry. */
  lemma TablesAgree()
    ensures |CacheStrategies| == |CacheManager.Strategies|
    ensures forall i :: 0 <= i < |CacheStrategies| ==>
      CacheStrategies[i].name == CacheManager.Strategies[i].name &&
      CacheStrategies[i].ttl == CacheManager.Strategies[i].ttl &&
      CacheStrategies[i].prefix == CacheManager.Strategies[i].prefix
  {
  }

  // ---------------------------------------------------------------------
  // get_cache_config

  /** An update whose every entry is already present changes nothing. */
  lemma {:induction false} UpdatePresent(cfg: seq<Field>, overlay: seq<Field>)
    requires forall i :: 0 <= i < |overlay| ==> Get(cfg, overlay[i].key) == Some(overlay[i].val)
    ensures Update(cfg, overlay) == cfg
    decreases |overlay|
  {
    if |overlay| > 0 {
      PutSame(cfg, overlay[0].key, overlay[0].val);
      UpdatePresent(cfg, overlay[1..]);
    }
  }

  /** `REDIS_CONFIG` as the module builds it: `url` and `max_connections` come
      from the environment (the integer conversion happens at import time). */
  function InitialRedisConfig(envRedisUrl: Option<string>, maxConnections: int): seq<Field> {
    [Field("url", Str(envRedisUrl.GetOr("redis://localhost:6379/0"))),
     Field("max_connections", Num(maxConnections as real)),
     Field("retry_on_timeout", Bool(true)),
     Field("health_check_interval", Num(30.0)),
     Field("socket_connect_timeout", Num(5.0)),
     Field("socket_timeout", Num(5.0))]
  }

  /** `DEV_CONFIG` */
  const DevConfig: seq<Field> := [
    Field("redis_url", Str("redis://localhost:6379/1")),
    Field("enable_debug_logging", Bool(true)),
    Field("cache_ttl_multiplier", Num(0.1))
  ]

  /** `PROD_CONFIG`; its `redis_url` is read from the environment at import time. */
  function ProdConfig(envRedisUrl: Option<string>): seq<Field> {
    [Field("redis_url", Str(envRedisUrl.GetOr("redis://redis:6379/0"))),
     Field("enable_debug_logging", Bool(false)),
     Field("cache_ttl_multiplier", Num(1.0)),
     Field("enable_persistence", Bool(true)),
     Field("backup_interval", Num(3600.0))]
  }

  /** The overlay `get_cache_config` merges for an environment name. */
  function Overlay(environment: string, envRedisUrl: Option<string>): seq<Field> {
    if environment == "production" then ProdConfig(envRedisUrl) else DevConfig
  }

  lemma OverlayDistinct(environment: string, envRedisUrl: Option<string>)
    ensures DistinctKeys(Overlay(environment, envRedisUrl))
  {
  }

  /** What a key reads after merging `overlay` into `base`. */
  function Merged(base: seq<Field>, overlay: seq<Field>, k: string): Option<Value> {
    if HasKey(overlay, k) then Get(overlay, k) else Get(base, k)
  }

  /** `CACHE_MONITORING`: the statistics and health-check settings, returned
      as they are. Intervals are in seconds, the hit and error rates in
      percent and the response time in milliseconds. */
  const CacheMonitoring: seq<Field> := [
    Field("enable_stats", Bool(true)),
    Field("stats_interval", Num(60.0)),
    Field("enable_health_check", Bool(true)),
    Field("health_check_interval", Num(30.0)),
    Field("alert_thresholds", Obj([
      Field("hit_rate_min", Num(70.0)),
      Field("error_rate_max", Num(5.0)),
      Field("response_time_max", Num(100.0))]))
  ]

  datatype Config = Config(redis: seq<Field>, strategies: seq<StrategyConfig>, monitoring: seq<Field>)

  /** `get_cache_config(environment)`. `redis` is the module-level
      `REDIS_CONFIG`, which the call updates in place; the second component is
      that dict after the call, seen by every later call. */
  function GetCacheConfig(redis: seq<Field>, environment: string, envRedisUrl: Option<string>)
    : (r: (Config, seq<Field>))
    ensures r.0.redis == r.1 && r.0.strategies == CacheStrategies
    ensures r.0.monitoring == CacheMonitoring
    ensures forall k :: Get(r.1, k) == Merged(redis, Overlay(environment, envRedisUrl), k)
  {
    var merged := Update(redis, Overlay(environment, envRedisUrl));
    forall k ensures Get(merged, k) == Merged(redis, Overlay(environment, envRedisUrl), k) {
      OverlayDistinct(environment, envRedisUrl);
      UpdateGet(redis, Overlay(environment, envRedisUrl), k);
    }
    (Config(merged, CacheStrategies, CacheMonitoring), merged)
  }

  /** Neither overlay has the key `url`, so the connection URL the manager reads
      is never changed by `get_cache_config`. */
  lemma UrlNeverOverridden(redis: seq<Field>, environment: string, envRedisUrl: Option<string>)
    ensures Get(GetCacheConfig(redis, environment, envRedisUrl).1, "url") == Get(redis, "url")
  {
    GetAbsent(Overlay(environment, envRedisUrl), "url");
  }

  /** Merged keys persist: a development call made after a production call still
      sees the production-only keys. */
  lemma ProductionKeysPersist(redis: seq<Field>, envRedisUrl: Option<string>, environment: string)
    requires environment != "production"
    ensures var afterProd := GetCacheConfig(redis, "production", envRedisUrl).1;
            var dev := GetCacheConfig(afterProd, environment, envRedisUrl).0;
            Get(dev.redis, "enable_persistence") == Some(Bool(true)) &&
            Get(dev.redis, "backup_interval") == Some(Num(3600.0)) &&
            Get(dev.redis, "redis_url") == Some(Str("redis://localhost:6379/1"))
  {
    var afterProd := GetCacheConfig(redis, "production", envRedisUrl).1;
    ProductionSetsPersistence(redis, envRedisUrl);
    DevelopmentKeeps(afterProd, environment, envRedisUrl, "enable_persistence");
    DevelopmentKeeps(afterProd, environment, envRedisUrl, "backup_interval");
    DevelopmentUrl(afterProd, environment, envRedisUrl);
  }

  lemma ProductionSetsPersistence(redis: seq<Field>, envRedisUrl: Option<string>)
    ensures Get(GetCacheConfig(redis, "production", envRedisUrl).1, "enable_persistence") == Some(Bool(true))
    ensures Get(GetCacheConfig(redis, "production", envRedisUrl).1, "backup_interval") == Some(Num(3600.0))
  {
    var p := ProdConfig(envRedisUrl);
    assert Overlay("production", envRedisUrl) == p;
    OverlayDistinct("production", envRedisUrl);
    GetAt(p, 3);
    GetAt(p, 4);
  }

  /** A development call leaves every key the development overlay lacks. */
  lemma DevelopmentKeeps(redis: seq<Field>, environment: string, envRedisUrl: Option<string>, k: string)
    requires environment != "production"
    requires k != "redis_url" && k != "enable_debug_logging" && k != "cache_ttl_multiplier"
    ensures Get(GetCacheConfig(redis, environment, envRedisUrl).0.redis, k) == Get(redis, k)
  {
    assert Overlay(environment, envRedisUrl) == DevConfig;
    GetAbsent(DevConfig, k);
  }

  lemma DevelopmentUrl(redis: seq<Field>, environment: string, envRedisUrl: Option<string>)
    requires environment != "production"
    ensures Get(GetCacheConfig(redis, environment, envRedisUrl).0.redis, "redis_url") == Some(Str("redis://localhost:6379/1"))
  {
    assert Overlay(environment, envRedisUrl) == DevConfig;
    GetAt(DevConfig, 0);
  }

  /** Repeating a call with the same environment leaves the shared dict as the
      first call left it. */
  lemma GetCacheConfigIdempotent(redis: seq<Field>, environment: string, envRedisUrl: Option<string>)
    ensures var once := GetCacheConfig(redis, environment, envRedisUrl).1;
            GetCacheConfig(once, environment, envRedisUrl).1 == once
  {
    var o := Overlay(environment, envRedisUrl);
    var once := GetCacheConfig(redis, environment, envRedisUrl).1;
    forall i | 0 <= i < |o| ensures Get(once, o[i].key) == Some(o[i].val) {
      OverlayDistinct(environment, envRedisUrl);
      GetAt(o, i);
    }
    UpdatePresent(once, o);
  }

  // ---------------------------------------------------------------------
  // CacheKeyGenerator

  function UserProfile(userId: int): string { "user:" + IntToStr(userId) + ":profile" }
  function UserInterests(userId: int): string { "user:" + IntToStr(userId) + ":interests" }
  function UserSkills(userId: int): string { "user:" + IntToStr(userId) + ":skills" }
  function TwitterAnalysis(username: string): string { "analysis:twitter:" + username }
  function UserAnalysis(userId: int): string { "analysis:user:" + IntToStr(userId) }
  function GeminiAnalysis(contentHash: string): string { "analysis:gemini:" + contentHash }

  /** `matching_result`: the smaller id first. */
  function MatchingResult(id1: int, id2: int): (k: string)
    ensures k == "match:" + IntToStr(Min(id1, id2)) + ":" + IntToStr(Max(id1, id2))
  {
    var lo := if id1 <= id2 then id1 else id2;
    var hi := if id1 <= id2 then id2 else id1;
    "match:" + IntToStr(lo) + ":" + IntToStr(hi)
  }

  function ApiResponse(endpoint: string, paramsHash: string): string { "api:" + endpoint + ":" + paramsHash }
  function SessionData(sessionId: string): string { "session:" + sessionId }

  /** The matching key does not depend on the order of the two ids. */
  lemma MatchingResultSymmetric(id1: int, id2: int)
    ensures MatchingResult(id1, id2) == MatchingResult(id2, id1)
  {
  }

  /** Every generated key starts with the prefix of the strategy it belongs to. */
  lemma GeneratedKeysCarryPrefixes(userId: int, id2: int, name: string)
    ensures IsPrefix("user:", UserProfile(userId)) && IsPrefix("user:", UserInterests(userId))
    ensures IsPrefix("user:", UserSkills(userId))
    ensures IsPrefix("analysis:", TwitterAnalysis(name)) && IsPrefix("analysis:", UserAnalysis(userId))
    ensures IsPrefix("analysis:", GeminiAnalysis(name))
    ensures IsPrefix("match:", MatchingResult(userId, id2)) && IsPrefix("api:", ApiResponse(name, name))
    ensures IsPrefix("session:", SessionData(name))
  {
  }
}
