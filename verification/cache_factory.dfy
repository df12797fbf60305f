/** The process-wide cache factory of cache/cache_factory.py: a singleton built
    on first use, holding the manager (or nothing when its construction
    raised) and the two strategies registered on top of it. */
module CacheFactory {
  import opened Wrappers
  import opened Json
  import CM = CacheManager
  import CacheConfig

  /** How constructing the manager went: it raised, or it came up connected or not. */
  datatype ManagerInit = Raised | Built(connected: bool)

  datatype Factory = Factory(
    environment: string,
    config: CacheConfig.Config,
    manager: Option<CM.Manager>,
    strategies: seq<string>)

  /** The interpreter state the singleton lives in: the class-level `_instance`
      and the module-level `REDIS_CONFIG` that `get_cache_config` updates. */
  datatype Process = Process(instance: Option<Factory>, redisConfig: seq<Field>)

  /** The names `_init_cache_strategies` registers. */
  const RegisteredStrategies: seq<string> := ["user_data", "analysis_results"]

  /** `_init_cache_strategies`: skipped entirely without a manager. */
  function InitStrategies(manager: Option<CM.Manager>): (s: seq<string>)
    ensures manager.None? <==> s == []
  {
    if manager.None? then [] else RegisteredStrategies
  }

  /** `_init_cache_manager`: the manager talks to whatever Redis already holds. */
  function InitManager(init: ManagerInit, store: CM.Store): (m: Option<CM.Manager>)
    ensures m.None? <==> init == Raised
    ensures m.Some? ==> m.value.connected == init.connected && m.value.stats == CM.NoStats
  {
    match init
    case Raised => None
    case Built(c) => Some(CM.Manager(c, store, CM.NoStats))
  }

  /** `CacheFactory()`: the first call builds and initialises the instance; any
      later call returns that same instance without initialising it again. */
  function Construct(p: Process, envEnvironment: Option<string>, envRedisUrl: Option<string>,
                     init: ManagerInit, store: CM.Store): (r: (Process, Factory))
    ensures p.instance.Some? ==> r == (p, p.instance.value)
    ensures r.0.instance == Some(r.1)
    ensures p.instance.None? ==>
      r.1.environment == envEnvironment.GetOr("development") &&
      (r.1.manager.None? <==> init == Raised) &&
      (r.1.manager.None? <==> r.1.strategies == [])
  {
    if p.instance.Some? then (p, p.instance.value)
    else
      var environment := envEnvironment.GetOr("development");
      var (config, redis) := CacheConfig.GetCacheConfig(p.redisConfig, environment, envRedisUrl);
      var manager := InitManager(init, store);
      var f := Factory(environment, config, manager, InitStrategies(manager));
      (Process(Some(f), redis), f)
  }

  /** Constructing twice yields the same object and leaves the process as the
      first construction left it, whatever the second call would have seen. */
  lemma SingletonConstructedOnce(p: Process, e1: Option<string>, u1: Option<string>, i1: ManagerInit, s1: CM.Store,
                                 e2: Option<string>, u2: Option<string>, i2: ManagerInit, s2: CM.Store)
    ensures var (p1, f1) := Construct(p, e1, u1, i1, s1);
            Construct(p1, e2, u2, i2, s2) == (p1, f1)
  {
  }

  /** The manager connects to the URL in `REDIS_CONFIG["url"]`, which the merge
      of the environment overlay never changes. */
  lemma FactoryUrlIsConfiguredUrl(p: Process, e: Option<string>, u: Option<string>, i: ManagerInit, s: CM.Store)
    requires p.instance.None?
    ensures Get(Construct(p, e, u, i, s).1.config.redis, "url") == Get(p.redisConfig, "url")
  {
    CacheConfig.UrlNeverOverridden(p.redisConfig, e.GetOr("development"), u);
  }

  /** `is_available` */
  predicate IsAvailable(f: Factory) {
    f.manager.Some? && f.manager.value.connected
  }

  /** `get_strategy(name)` (and the `user_data_cache` / `analysis_cache` properties). */
  function GetStrategy(f: Factory, name: string): (r: Option<string>)
    ensures r.Some? <==> exists i :: 0 <= i < |f.strategies| && f.strategies[i] == name
    ensures r.Some? ==> r.value == name
  {
    if exists i :: 0 <= i < |f.strategies| && f.strategies[i] == name then Some(name) else None
  }

  /** A strategy is registered exactly when a manager exists. */
  lemma StrategiesIffManager(p: Process, e: Option<string>, u: Option<string>, i: ManagerInit, s: CM.Store)
    requires p.instance.None?
    ensures var f := Construct(p, e, u, i, s).1;
            (GetStrategy(f, "user_data").Some? <==> f.manager.Some?) &&
            (GetStrategy(f, "analysis_results").Some? <==> f.manager.Some?) &&
            GetStrategy(f, "matching_results").None?
  {
    var f := Construct(p, e, u, i, s).1;
    if f.manager.Some? {
      assert f.strategies[0] == "user_data" && f.strategies[1] == "analysis_results";
    }
  }

  datatype SystemStats =
    | Unavailable
    | Available(environment: string, report: CM.Report, health: CM.Health, strategies: seq<string>,
                redisUrl: Option<Value>, strategiesCount: nat)

  /** `get_system_stats` */
  function GetSystemStats(f: Factory, lastTotal: nat, pingSucceeds: bool, now: int): (r: SystemStats)
    ensures r.Unavailable? <==> !IsAvailable(f)
    ensures r.Available? ==> r.strategiesCount == |r.strategies| && r.report.connected
  {
    if !IsAvailable(f) then Unavailable
    else
      var m := f.manager.value;
      Available(f.environment, CM.GetStats(m, lastTotal, now), CM.HealthCheck(m, pingSucceeds),
                f.strategies, Get(f.config.redis, "url"), |f.strategies|)
  }

  /** `clear_all_cache` */
  function ClearAll(f: Factory): (r: (Factory, bool))
    ensures r.1 <==> IsAvailable(f)
    ensures !IsAvailable(f) ==> r.0 == f
    ensures IsAvailable(f) ==> r.0.manager == Some(CM.Clear(f.manager.value, None).m)
  {
    if !IsAvailable(f) then (f, false)
    else
      var o := CM.Clear(f.manager.value, None);
      (f.(manager := Some(o.m)), o.r)
  }

  /** `clear_cache_by_type` */
  function ClearByType(f: Factory, cacheType: string): (r: (Factory, bool))
    ensures r.1 <==> IsAvailable(f)
    ensures !IsAvailable(f) ==> r.0 == f
    ensures IsAvailable(f) ==> r.0.manager == Some(CM.Clear(f.manager.value, Some(cacheType)).m)
  {
    if !IsAvailable(f) then (f, false)
    else
      var o := CM.Clear(f.manager.value, Some(cacheType));
      (f.(manager := Some(o.m)), o.r)
  }

  /** A factory whose manager is missing or disconnected answers every query as
      unavailable and changes nothing. */
  lemma UnavailableShortCircuits(f: Factory, t: string, lastTotal: nat, ping: bool, now: int)
    requires !IsAvailable(f)
    ensures GetSystemStats(f, lastTotal, ping, now) == Unavailable
    ensures ClearAll(f) == (f, false) && ClearByType(f, t) == (f, false)
  {
  }
}
