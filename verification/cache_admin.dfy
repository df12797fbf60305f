/** The cache administration endpoints of cache/cache_admin_routes.py: the
    fixed-key guard, the Prometheus-style metrics text, health, statistics,
    clearing and the configuration view. Flask is reduced to the request
    fields each handler reads and the status and body it answers with. */
module CacheAdmin {
  import opened Wrappers
  import opened Text
  import opened Json
  import CM = CacheManager
  import CF = CacheFactory

  const AdminKey: string := "admin_secret_key"

  /** A handler's answer: 401 from the guard, or the handler's status and body. */
  datatype Routed<T> = Unauthorized | Answer(status: nat, body: T)

  /** `admin_required`: the `X-Admin-API-Key` header must be present, non-empty
      and equal to the fixed key. */
  predicate Authorized(apiKey: Option<string>) {
    apiKey.Some? && apiKey.value != "" && apiKey.value == AdminKey
  }

  lemma AuthorizedIffAdminKey(apiKey: Option<string>)
    ensures Authorized(apiKey) <==> apiKey == Some("admin_secret_key")
  {
  }

  // ---------------------------------------------------------------------
  // /metrics

  datatype Metric = Metric(name: string, help: string, kind: string)

  /** The five metrics, in output order. */
  const MetricTable: seq<Metric> := [
    Metric("cache_hits_total", "Total number of cache hits", "counter"),
    Metric("cache_misses_total", "Total number of cache misses", "counter"),
    Metric("cache_hit_rate", "Cache hit rate percentage", "gauge"),
    Metric("cache_errors_total", "Total number of cache errors", "counter"),
    Metric("cache_connected", "Cache connection status", "gauge")
  ]

  /** The printed value of each metric. `hit_rate` is the integer `0` with no
      reads and otherwise a float whose text is `showRate` of it. */
  function MetricValues(r: CM.Report, showRate: real -> string): seq<string> {
    [NatToStr(r.stats.hits), NatToStr(r.stats.misses),
     if r.stats.hits + r.stats.misses == 0 then "0" else showRate(r.hitRate),
     NatToStr(r.stats.errors), if r.connected then "1" else "0"]
  }

  /** The HELP, TYPE and value lines of one metric. */
  function Block(name: string, help: string, kind: string, value: string): seq<string> {
    ["# HELP " + name + " " + help, "# TYPE " + name + " " + kind, name + " " + value]
  }

  /** The lines `cache_metrics` appends, block by block as the handler writes them. */
  function MetricsLines(r: CM.Report, showRate: real -> string): (lines: seq<string>)
    ensures |lines| == 3 * |MetricTable|
    ensures forall i :: 0 <= i < |MetricTable| ==>
      lines[3 * i] == "# HELP " + MetricTable[i].name + " " + MetricTable[i].help &&
      lines[3 * i + 1] == "# TYPE " + MetricTable[i].name + " " + MetricTable[i].kind &&
      lines[3 * i + 2] == MetricTable[i].name + " " + MetricValues(r, showRate)[i]
  {
    var rate := if r.stats.hits + r.stats.misses == 0 then "0" else showRate(r.hitRate);
    Block("cache_hits_total", "Total number of cache hits", "counter", NatToStr(r.stats.hits)) +
    Block("cache_misses_total", "Total number of cache misses", "counter", NatToStr(r.stats.misses)) +
    Block("cache_hit_rate", "Cache hit rate percentage", "gauge", rate) +
    Block("cache_errors_total", "Total number of cache errors", "counter", NatToStr(r.stats.errors)) +
    Block("cache_connected", "Cache connection status", "gauge", if r.connected then "1" else "0")
  }

  /** `"\n".join(metrics) + "\n"` */
  function MetricsText(r: CM.Report, showRate: real -> string): (t: string)
    ensures |t| > 0 && t[|t| - 1] == '\n'
  {
    Join("\n", MetricsLines(r, showRate)) + "\n"
  }

  /** The connection gauge reads 1 exactly when the manager is connected. */
  lemma ConnectedGauge(r: CM.Report, showRate: real -> string)
    ensures MetricsLines(r, showRate)[14] == "cache_connected 1" <==> r.connected
  {
    var l := MetricsLines(r, showRate)[14];
    if !r.connected {
      assert l[|l| - 1] == '0';
    }
  }

  /** `cache_metrics`: 503 with a comment line when there is no manager. */
  function MetricsRoute(apiKey: Option<string>, f: CF.Factory, lastTotal: nat, now: int,
                        showRate: real -> string): (a: Routed<string>)
    ensures !Authorized(apiKey) <==> a.Unauthorized?
    ensures Authorized(apiKey) && f.manager.None? ==> a == Answer(503, "# Cache manager not available\n")
    ensures Authorized(apiKey) && f.manager.Some? ==>
      a.Answer? && a.status == 200 && a.body == MetricsText(CM.GetStats(f.manager.value, lastTotal, now), showRate)
  {
    if !Authorized(apiKey) then Unauthorized
    else if f.manager.None? then Answer(503, "# Cache manager not available\n")
    else Answer(200, MetricsText(CM.GetStats(f.manager.value, lastTotal, now), showRate))
  }

  /** The counters printed are the manager's own counters. */
  lemma MetricsReportCounters(m: CM.Manager, lastTotal: nat, now: int, showRate: real -> string)
    ensures var lines := MetricsLines(CM.GetStats(m, lastTotal, now), showRate);
            lines[2] == "cache_hits_total " + NatToStr(m.stats.hits) &&
            lines[5] == "cache_misses_total " + NatToStr(m.stats.misses) &&
            lines[11] == "cache_errors_total " + NatToStr(m.stats.errors)
  {
  }

  // ---------------------------------------------------------------------
  // /health, /status, /stats

  /** The `status` field `cache_health` reports; the endpoint needs no key. */
  function HealthStatus(f: CF.Factory, pingSucceeds: bool): (s: string)
    ensures s == "unavailable" <==> f.manager.None?
    ensures s == "healthy" <==> f.manager.Some? && f.manager.value.connected && pingSucceeds
  {
    if f.manager.None? then "unavailable"
    else if CM.HealthCheck(f.manager.value, pingSucceeds) == CM.Healthy then "healthy"
    else "degraded"
  }

  /** `cache_status` */
  function StatusRoute(apiKey: Option<string>, f: CF.Factory, lastTotal: nat, ping: bool, now: int)
    : (a: Routed<CF.SystemStats>)
    ensures !Authorized(apiKey) <==> a.Unauthorized?
    ensures a.Answer? ==> a.status == 200 && (a.body.Unavailable? <==> !CF.IsAvailable(f))
  {
    if !Authorized(apiKey) then Unauthorized
    else Answer(200, CF.GetSystemStats(f, lastTotal, ping, now))
  }

  datatype ExtendedStats = ExtendedStats(report: CM.Report, cacheAvailable: bool, userData: bool, analysisCache: bool)

  /** `cache_stats`: 503 without a manager. */
  function StatsRoute(apiKey: Option<string>, f: CF.Factory, lastTotal: nat, now: int)
    : (a: Routed<Option<ExtendedStats>>)
    ensures !Authorized(apiKey) <==> a.Unauthorized?
    ensures a.Answer? ==> (a.status == 503 <==> f.manager.None?) && (a.body.Some? <==> f.manager.Some?)
    ensures a.Answer? && a.body.Some? ==> (a.body.value.cacheAvailable <==> CF.IsAvailable(f))
  {
    if !Authorized(apiKey) then Unauthorized
    else if f.manager.None? then Answer(503, None)
    else Answer(200, Some(ExtendedStats(CM.GetStats(f.manager.value, lastTotal, now), CF.IsAvailable(f),
                                        CF.GetStrategy(f, "user_data").Some?,
                                        CF.GetStrategy(f, "analysis_results").Some?)))
  }

  // ---------------------------------------------------------------------
  // /clear

  datatype ClearReply = ClearReply(success: bool, message: string)

  /** `clear_cache`: `cacheType` is the body's `cache_type`; a missing or empty
      one clears everything. */
  function ClearRoute(apiKey: Option<string>, f: CF.Factory, cacheType: Option<string>)
    : (r: (CF.Factory, Routed<ClearReply>))
    ensures !Authorized(apiKey) ==> r == (f, Unauthorized)
    ensures Authorized(apiKey) && cacheType.Some? && cacheType.value != "" ==>
      r.0 == CF.ClearByType(f, cacheType.value).0
    ensures Authorized(apiKey) && (cacheType.None? || cacheType.value == "") ==> r.0 == CF.ClearAll(f).0
    ensures r.1.Answer? ==> r.1.status == 200 && (r.1.body.success <==> CF.IsAvailable(f))
  {
    if !Authorized(apiKey) then (f, Unauthorized)
    else if cacheType.Some? && cacheType.value != "" then
      var (g, ok) := CF.ClearByType(f, cacheType.value);
      (g, Answer(200, ClearReply(ok, if ok then "Cache type '" + cacheType.value + "' cleared" else "Failed to clear cache")))
    else
      var (g, ok) := CF.ClearAll(f);
      (g, Answer(200, ClearReply(ok, if ok then "All cache cleared" else "Failed to clear cache")))
  }

  /** Clearing one known type through the endpoint leaves the entries of every
      other known type in place. */
  lemma ClearRouteKeepsOtherTypes(f: CF.Factory, t1: string, t2: string, key: string)
    requires CF.IsAvailable(f)
    requires CM.Lookup(t1).Some? && CM.Lookup(t2).Some? && t1 != t2
    requires CM.CacheKey(key, t2) in f.manager.value.store
    ensures var g := ClearRoute(Some(AdminKey), f, Some(t1)).0;
            g.manager.Some? && CM.CacheKey(key, t2) in g.manager.value.store
  {
    CM.ClearByTypeIsolated(f.manager.value, t1, t2, key);
  }

  // ---------------------------------------------------------------------
  // /config: masking the Redis URL

  const Masked: string := "***masked***"

  /** Python `s.split(c)[-1]`: everything after the last `c`, or all of `s`. */
  function AfterLast(s: string, c: char): (r: string)
    ensures |r| <= |s| && IsSuffix(r, s)
    ensures forall i :: 0 <= i < |r| ==> r[i] != c
    decreases |s|
  {
    if |s| == 0 then s
    else if s[|s| - 1] == c then ""
    else AfterLast(s[..|s| - 1], c) + [s[|s| - 1]]
  }

  /** Python `s.replace("", rep)`: `rep` before every character and at the end. */
  function ReplaceEmptyPattern(s: string, rep: string): (r: string)
    ensures |r| == |s| + (|s| + 1) * |rep|
    decreases |s|
  {
    if |s| == 0 then rep else rep + [s[0]] + ReplaceEmptyPattern(s[1..], rep)
  }

  /** The masking expression of `cache_config` as written: a URL without `@`
      (or ending in `@`) has the empty string replaced. */
  function MaskUrlAsWritten(url: string): string {
    var host := if Contains(url, "@") then AfterLast(url, '@') else "";
    if host == "" then ReplaceEmptyPattern(url, Masked) else ReplaceAll(url, host, Masked)
  }

  /** Every URL without credentials comes out of the written expression changed:
      the mask text is woven around each of its characters. */
  lemma MaskAsWrittenMangles(url: string)
    requires !Contains(url, "@")
    ensures |MaskUrlAsWritten(url)| == |url| + (|url| + 1) * 12
    ensures MaskUrlAsWritten(url) != url
  {
  }

  /** The default Redis URL is such a URL. */
  lemma MaskAsWrittenDefaultUrl()
    ensures MaskUrlAsWritten("redis://localhost:6379/0") != "redis://localhost:6379/0"
  {
    NoAtInDefault();
    MaskAsWrittenMangles("redis://localhost:6379/0");
  }

  lemma NoAtInDefault()
    ensures !Contains("redis://localhost:6379/0", "@")
  {
    var s := "redis://localhost:6379/0";
    forall i | 0 <= i <= |s| ensures !IsPrefix("@", s[i..]) {
      if i < |s| {
        assert s[i..][0] == s[i];
      }
    }
    NotContainsByPositions(s, "@");
  }

  lemma {:induction false} NotContainsByPositions(s: string, sub: string)
    requires forall i :: 0 <= i <= |s| ==> !IsPrefix(sub, s[i..])
    ensures !Contains(s, sub)
    decreases |s|
  {
    assert s[0..] == s;
    if |s| > 0 {
      forall i | 0 <= i <= |s[1..]| ensures !IsPrefix(sub, s[1..][i..]) {
        assert s[1..][i..] == s[i + 1..];
      }
      NotContainsByPositions(s[1..], sub);
    }
  }

  /** Splitting `a + [c] + b` after its last `c` gives `b` when `b` holds no `c`. */
  lemma {:induction false} AfterLastOf(a: string, c: char, b: string)
    requires forall i :: 0 <= i < |b| ==> b[i] != c
    ensures AfterLast(a + [c] + b, c) == b
    decreases |b|
  {
    var s := a + [c] + b;
    if |b| > 0 {
      assert s[..|s| - 1] == a + [c] + b[..|b| - 1];
      AfterLastOf(a, c, b[..|b| - 1]);
      assert b == b[..|b| - 1] + [b[|b| - 1]];
    }
  }

  /** Replacing the tail `b` of `a + b` touches only that tail when `a` never
      holds the first character of `b`. */
  lemma {:induction false} ReplaceTail(a: string, b: string, m: string)
    requires |b| > 0 && forall i :: 0 <= i < |a| ==> a[i] != b[0]
    ensures ReplaceAll(a + b, b, m) == a + m
    decreases |a|
  {
    var s := a + b;
    if |a| == 0 {
      assert s == b && IsPrefix(b, s) && s[|b|..] == [];
      assert ReplaceAll(s, b, m) == m + ReplaceAll([], b, m);
    } else {
      assert s[0] == a[0] && !IsPrefix(b, s);
      assert s[1..] == a[1..] + b;
      ReplaceTail(a[1..], b, m);
      assert ReplaceAll(s, b, m) == [s[0]] + ReplaceAll(s[1..], b, m);
      assert [a[0]] + a[1..] == a;
    }
  }

  /** As written, a URL with credentials has the text after its last `@` (the
      host) replaced, and its password stays readable. */
  lemma MaskAsWrittenShowsPassword(front: string, host: string)
    requires |host| > 0 && forall i :: 0 <= i < |host| ==> host[i] != '@'
    requires forall i :: 0 <= i < |front| ==> front[i] != host[0]
    ensures MaskUrlAsWritten(front + "@" + host) == front + "@" + Masked
  {
    var url := front + "@" + host;
    assert url == front + ['@'] + host;
    ContainsAt(url, "@", |front|);
    AfterLastOf(front, '@', host);
    assert forall i :: 0 <= i < |front + "@"| ==> (front + "@")[i] != host[0];
    ReplaceTail(front + "@", host, Masked);
  }

  /** The masking the endpoint's comment asks for: the password is hidden and
      the rest of the URL is shown. The credentials end at the last `@`; the
      password is what follows their last `:`, unless a `/` follows that `:`
      (then the `:` is the scheme's and there is no password). */
  function MaskUrl(url: string): (r: string)
    ensures '@' !in url ==> r == url
  {
    if '@' !in url then url
    else
      var host := AfterLast(url, '@');
      AfterLastShorter(url, '@');
      HidePassword(url[..|url| - |host| - 1], host)
  }

  /** A text holding `c` has something before its last `c`. */
  lemma {:induction false} AfterLastShorter(s: string, c: char)
    requires c in s
    ensures |AfterLast(s, c)| < |s|
    decreases |s|
  {
    if s[|s| - 1] != c {
      var i :| 0 <= i < |s| && s[i] == c;
      assert s[..|s| - 1][i] == c;
      AfterLastShorter(s[..|s| - 1], c);
    }
  }

  /** The URL rebuilt from its credentials and host, with the password hidden. */
  function HidePassword(creds: string, host: string): string {
    var password := AfterLast(creds, ':');
    if |password| == |creds| || '/' in password then creds + "@" + host
    else creds[..|creds| - |password|] + Masked + "@" + host
  }

  /** In `front:password@host` the password, and only the password, is
      replaced by the mask. */
  lemma MaskUrlHidesPassword(front: string, password: string, host: string)
    requires forall i :: 0 <= i < |password| ==> password[i] != ':' && password[i] != '/' && password[i] != '@'
    requires forall i :: 0 <= i < |host| ==> host[i] != '@'
    ensures MaskUrl(front + ":" + password + "@" + host) == front + ":" + Masked + "@" + host
  {
    var creds := front + ":" + password;
    var url := front + ":" + password + "@" + host;
    assert url == creds + ['@'] + host && url[|creds|] == '@';
    AfterLastOf(creds, '@', host);
    MaskUrlSplit(url, creds, host);
    assert creds == front + [':'] + password;
    AfterLastOf(front, ':', password);
    HidePasswordOf(creds, host);
    assert creds[..|creds| - |password|] == front + ":";
  }

  /** `MaskUrl` hands a URL with an `@` to `HidePassword`. */
  lemma MaskUrlSplit(url: string, creds: string, host: string)
    requires '@' in url && AfterLast(url, '@') == host && |url| == |creds| + 1 + |host| && url[..|creds|] == creds
    ensures MaskUrl(url) == HidePassword(creds, host)
  {
  }

  /** `HidePassword` when the credentials carry a password. */
  lemma HidePasswordOf(creds: string, host: string)
    requires |AfterLast(creds, ':')| < |creds| && '/' !in AfterLast(creds, ':')
    ensures HidePassword(creds, host) == creds[..|creds| - |AfterLast(creds, ':')|] + Masked + "@" + host
  {
  }

  /** The default Redis URL read with credentials: the written masking hides
      the host and shows the password, the corrected one does the reverse. */
  lemma CredentialUrlMasked()
    ensures MaskUrlAsWritten("redis://user:secret" + "@" + "host:6379/0") == "redis://user:secret" + "@" + Masked
    ensures MaskUrl("redis://user" + ":" + "secret" + "@" + "host:6379/0") == "redis://user" + ":" + Masked + "@" + "host:6379/0"
  {
    MaskAsWrittenShowsPassword("redis://user:secret", "host:6379/0");
    MaskUrlHidesPassword("redis://user", "secret", "host:6379/0");
  }

  datatype ConfigInfo = ConfigInfo(environment: string, url: string, maxConnections: Option<Value>)

  /** `cache_config`, masking the URL as the code does. A URL that is not a
      string makes the handler raise, which it answers with 500. */
  function ConfigRoute(apiKey: Option<string>, f: CF.Factory): (a: Routed<Option<ConfigInfo>>)
    ensures !Authorized(apiKey) <==> a.Unauthorized?
    ensures a.Answer? ==> (a.status == 200 <==> Get(f.config.redis, "url").Some? && Get(f.config.redis, "url").value.Str?)
    ensures a.Answer? && a.status == 200 ==>
              a.body.Some? && a.body.value.environment == f.environment
              && a.body.value.maxConnections == Get(f.config.redis, "max_connections")
    ensures a.Answer? && a.status == 200 && !Contains(Get(f.config.redis, "url").value.s, "@")
            ==> |a.body.value.url| == |Get(f.config.redis, "url").value.s| + (|Get(f.config.redis, "url").value.s| + 1) * 12
  {
    if !Authorized(apiKey) then Unauthorized
    else match Get(f.config.redis, "url")
      case Some(Str(u)) =>
        Answer(200, Some(ConfigInfo(f.environment, MaskUrlAsWritten(u), Get(f.config.redis, "max_connections"))))
      case _ => Answer(500, None)
  }
}
