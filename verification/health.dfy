/** Health checks (infrastructure/health_check_manager.py): the five checks,
    how their statuses combine, and the liveness/readiness answers. What
    each check observes (a query result, a key, a Redis ping, CPU, memory
    and disk figures) is an input; an observation that raised is `None` or
    a dedicated constructor. */
module Health {
  import opened Wrappers
  import Security

  datatype Status = Healthy | Degraded | Unhealthy

  /** The thresholds the manager is created with, in percent. */
  const CpuLimit: real := 90.0
  const MemoryLimit: real := 85.0
  const DiskLimit: real := 90.0

  /** How bad a status is. */
  function Severity(s: Status): nat {
    match s
    case Healthy => 0
    case Degraded => 1
    case Unhealthy => 2
  }

  /** One step of the aggregation loop: an unhealthy check makes the whole
      unhealthy, a degraded one turns healthy into degraded only. */
  function Combine(overall: Status, result: Status): (r: Status)
    ensures Severity(r) == if Severity(overall) >= Severity(result) then Severity(overall) else Severity(result)
  {
    if result == Unhealthy then Unhealthy
    else if result == Degraded && overall == Healthy then Degraded
    else overall
  }

  /** The aggregation loop of `get_comprehensive_health_status`, from `acc`. */
  function Fold(acc: Status, results: seq<Status>): Status
    decreases |results|
  {
    if |results| == 0 then acc else Fold(Combine(acc, results[0]), results[1..])
  }

  /** The worst status among `results`, defined without the loop. */
  function Worst(results: seq<Status>): Status {
    if Unhealthy in results then Unhealthy
    else if Degraded in results then Degraded
    else Healthy
  }

  lemma {:induction false} FoldIsWorst(acc: Status, results: seq<Status>)
    ensures Fold(acc, results) == Worst([acc] + results)
    decreases |results|
  {
    if |results| > 0 {
      FoldIsWorst(Combine(acc, results[0]), results[1..]);
      assert [acc] + results == [acc, results[0]] + results[1..];
      assert forall s :: s in [acc] + results <==> s == acc || s == results[0] || s in results[1..];
      assert forall s :: s in [Combine(acc, results[0])] + results[1..]
                         <==> s == Combine(acc, results[0]) || s in results[1..];
    }
  }

  /** The overall status is the worst of the checks' statuses. */
  lemma OverallIsWorst(results: seq<Status>)
    ensures Fold(Healthy, results) == Worst(results)
  {
    FoldIsWorst(Healthy, results);
    assert forall s :: s in [Healthy] + results <==> s == Healthy || s in results;
  }

  /** The order the checks run in does not matter. */
  lemma OrderIrrelevant(a: seq<Status>, b: seq<Status>)
    requires multiset(a) == multiset(b)
    ensures Fold(Healthy, a) == Fold(Healthy, b)
  {
    OverallIsWorst(a);
    OverallIsWorst(b);
    assert forall s :: s in a <==> s in multiset(a);
    assert forall s :: s in b <==> s in multiset(b);
  }

  // ---------------------------------------------------------------------
  // The checks
  // ---------------------------------------------------------------------

  /** What `SELECT 1 as test` gave back. */
  datatype DbProbe = DbRaised | NoRow | Row(test: Option<int>)

  /** `check_database_connection`. */
  function DatabaseStatus(p: DbProbe): (s: Status)
    ensures s == Healthy <==> p == Row(Some(1))
    ensures s != Degraded
  {
    match p
    case Row(t) => if t == Some(1) then Healthy else Unhealthy
    case _ => Unhealthy
  }

  /** A key counts as configured when it is longer than ten characters. */
  predicate Configured(key: Option<string>) {
    key.Some? && |key.value| > 10
  }

  /** The security manager the health manager was given: its secrets
      client and the environment it falls back to. */
  datatype KeySource = KeySource(client: Security.Client, env: Security.Env)

  /** `check_external_apis`: skipped (and healthy) under the testing
      environment, degraded without a security manager or when either key
      is not configured. */
  function ExternalApisStatus(environment: Option<string>, keys: Option<KeySource>): (s: Status)
    ensures environment == Some("testing") ==> s == Healthy
    ensures environment != Some("testing") && keys.None? ==> s == Degraded
    ensures environment != Some("testing") && keys.Some? ==>
              (s == Healthy <==> Configured(Security.GetApiKey(keys.value.client, keys.value.env, "gemini"))
                                 && Configured(Security.GetApiKey(keys.value.client, keys.value.env, "twitter")))
    ensures s != Unhealthy
  {
    if environment == Some("testing") then Healthy
    else
      match keys
      case None => Degraded
      case Some(k) =>
        var gemini := Security.GetApiKey(k.client, k.env, "gemini");
        var twitter := Security.GetApiKey(k.client, k.env, "twitter");
        if Configured(gemini) && Configured(twitter) then Healthy else Degraded
  }

  /** What connecting to Redis did. */
  datatype RedisProbe = ClientMissing | PingFailed | PingOk

  datatype CacheKind = Memory | Redis

  datatype CacheCheck = CacheCheck(status: Status, kind: CacheKind)

  /** `check_cache_status`: without `REDIS_URL` the cache is the in-memory
      one and reported degraded. */
  function CacheStatus(redisUrl: Option<string>, probe: RedisProbe): (c: CacheCheck)
    ensures redisUrl.None? || redisUrl == Some("") ==> c == CacheCheck(Degraded, Memory)
    ensures c.kind == Memory <==> redisUrl.None? || redisUrl == Some("") || probe == ClientMissing
    ensures c.status == Healthy <==> c.kind == Redis && probe == PingOk
    ensures c.status == Unhealthy <==> c.kind == Redis && probe == PingFailed
  {
    if redisUrl.None? || redisUrl.value == "" then CacheCheck(Degraded, Memory)
    else
      match probe
      case ClientMissing => CacheCheck(Degraded, Memory)
      case PingFailed => CacheCheck(Unhealthy, Redis)
      case PingOk => CacheCheck(Healthy, Redis)
  }

  datatype ResourceCheck = ResourceCheck(status: Status, warnings: nat)

  /** `check_system_resources`; `None` is a failing probe. */
  function ResourcesStatus(probe: Option<(real, real)>): (r: ResourceCheck)
    ensures probe.None? ==> r.status == Unhealthy
    ensures probe.Some? ==> (r.status == Degraded <==> probe.value.0 > CpuLimit || probe.value.1 > MemoryLimit)
    ensures probe.Some? ==> r.status != Unhealthy
    ensures probe.Some? ==> r.warnings == (if probe.value.0 > CpuLimit then 1 else 0) + (if probe.value.1 > MemoryLimit then 1 else 0)
  {
    match probe
    case None => ResourceCheck(Unhealthy, 0)
    case Some((cpu, memory)) =>
      var w1 := if cpu > CpuLimit then 1 else 0;
      var w2 := if memory > MemoryLimit then 1 else 0;
      ResourceCheck(if w1 + w2 > 0 then Degraded else Healthy, w1 + w2)
  }

  /** `check_disk_space` on `(used, total)` bytes. A zero total divides by
      zero, which the check reports as unhealthy. */
  function DiskStatus(probe: Option<(nat, nat)>): (s: Status)
    ensures probe.None? ==> s == Unhealthy
    ensures probe.Some? && probe.value.1 == 0 ==> s == Unhealthy
    ensures probe.Some? && probe.value.1 > 0 ==>
              (s == Degraded <==> (probe.value.0 as real) * 100.0 > DiskLimit * (probe.value.1 as real))
    ensures probe.Some? && probe.value.1 > 0 ==> s != Unhealthy
  {
    match probe
    case None => Unhealthy
    case Some((used, total)) =>
      if total == 0 then Unhealthy
      else
        var percent := (used as real) / (total as real) * 100.0;
        PercentScaled(used as real, total as real);
        if percent > DiskLimit then Degraded else Healthy
  }

  lemma PercentScaled(used: real, total: real)
    requires total > 0.0
    ensures used / total * 100.0 > DiskLimit <==> used * 100.0 > DiskLimit * total
  {
    var p := used / total;
    assert p * total == used;
    assert used * 100.0 == (p * 100.0) * total;
  }

  /** Everything the five checks observe. */
  datatype Probes = Probes(environment: Option<string>, db: DbProbe, keys: Option<KeySource>,
                           redisUrl: Option<string>, redis: RedisProbe,
                           resources: Option<(real, real)>, disk: Option<(nat, nat)>)

  /** The statuses of the checks, in the order they run. */
  function CheckStatuses(p: Probes): (r: seq<Status>)
    ensures |r| == 5
    ensures r[0] == DatabaseStatus(p.db) && r[1] == ExternalApisStatus(p.environment, p.keys)
    ensures r[2] == CacheStatus(p.redisUrl, p.redis).status && r[3] == ResourcesStatus(p.resources).status
    ensures r[4] == DiskStatus(p.disk)
  {
    [DatabaseStatus(p.db), ExternalApisStatus(p.environment, p.keys),
     CacheStatus(p.redisUrl, p.redis).status, ResourcesStatus(p.resources).status, DiskStatus(p.disk)]
  }

  /** The `status` field of `get_comprehensive_health_status`. */
  function OverallStatus(p: Probes): (s: Status)
    ensures s == Unhealthy <==> Unhealthy in CheckStatuses(p)
    ensures s == Healthy <==> forall i :: 0 <= i < 5 ==> CheckStatuses(p)[i] == Healthy
  {
    OverallIsWorst(CheckStatuses(p));
    Fold(Healthy, CheckStatuses(p))
  }

  /** `is_healthy`. */
  function IsHealthy(p: Probes): (ok: bool)
    ensures ok <==> OverallStatus(p) in {Healthy, Degraded}
  {
    OverallStatus(p) != Unhealthy
  }

  /** The system counts as healthy exactly when no check is unhealthy:
      a degraded cache or a missing key never fails it. */
  lemma HealthyUnlessACheckFails(p: Probes)
    ensures IsHealthy(p) <==> DatabaseStatus(p.db) == Healthy
                              && CacheStatus(p.redisUrl, p.redis).status != Unhealthy
                              && p.resources.Some?
                              && p.disk.Some? && p.disk.value.1 > 0
  {
    var r := CheckStatuses(p);
    assert Unhealthy in r <==> r[0] == Unhealthy || r[1] == Unhealthy || r[2] == Unhealthy
                               || r[3] == Unhealthy || r[4] == Unhealthy;
  }

  /** Without Redis configured the whole system is at best degraded. */
  lemma NoRedisNeverHealthy(p: Probes)
    requires p.redisUrl.None?
    ensures OverallStatus(p) != Healthy
  {
    assert CheckStatuses(p)[2] == Degraded;
  }

  /** `get_readiness_status`: ready exactly when the database answers. */
  function Ready(db: DbProbe): (ready: bool)
    ensures ready <==> db == Row(Some(1))
  {
    DatabaseStatus(db) == Healthy
  }

  /** Ready is stricter than healthy only on the database: a ready system
      with every other check healthy is healthy. */
  lemma ReadyAndRestHealthy(p: Probes)
    requires Ready(p.db)
    requires forall i :: 1 <= i < 5 ==> CheckStatuses(p)[i] == Healthy
    ensures OverallStatus(p) == Healthy
  {
  }
}
