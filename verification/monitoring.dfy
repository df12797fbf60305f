/** The monitoring manager's bookkeeping (monitoring/monitoring_manager.py):
    the alert store and its counters, threshold alerts, retention caps,
    percentiles, the alert summary and the health verdict. Threads, handlers,
    the database and psutil are left out; the clock is a parameter. */
module Monitoring {
  import opened Wrappers
  import opened Text
  import opened Sorting
  import opened Collections

  datatype Severity = Low | Medium | High | Critical

  function SeverityName(s: Severity): string {
    match s
    case Low => "low"
    case Medium => "medium"
    case High => "high"
    case Critical => "critical"
  }

  datatype Alert = Alert(id: string, severity: Severity, title: string, source: string, timestamp: int,
                         resolved: bool, resolvedAt: Option<int>, note: string)

  datatype Metric = Metric(name: string, value: real, unit: string, timestamp: int)

  datatype Monitor = Monitor(alerts: seq<Alert>, buffer: seq<Metric>, totalMetrics: nat, totalAlerts: nat, activeAlerts: int)

  predicate DistinctIds(alerts: seq<Alert>) {
    forall i, j :: 0 <= i < j < |alerts| ==> alerts[i].id != alerts[j].id
  }

  /** The number of alerts not yet resolved. */
  function Unresolved(alerts: seq<Alert>): (n: nat)
    ensures n <= |alerts|
    decreases |alerts|
  {
    if |alerts| == 0 then 0 else (if alerts[0].resolved then 0 else 1) + Unresolved(alerts[1..])
  }

  /** The counter agrees with the store. */
  predicate Consistent(m: Monitor) {
    DistinctIds(m.alerts) && m.activeAlerts == Unresolved(m.alerts)
  }

  lemma {:induction false} UnresolvedAppend(a: seq<Alert>, x: Alert)
    ensures Unresolved(a + [x]) == Unresolved(a) + (if x.resolved then 0 else 1)
    decreases |a|
  {
    if |a| > 0 {
      assert (a + [x])[1..] == a[1..] + [x];
      UnresolvedAppend(a[1..], x);
    }
  }

  lemma {:induction false} UnresolvedUpdate(a: seq<Alert>, i: nat, x: Alert)
    requires i < |a|
    ensures Unresolved(a[i := x]) + (if a[i].resolved then 0 else 1) == Unresolved(a) + (if x.resolved then 0 else 1)
    decreases |a|
  {
    if i > 0 {
      assert a[i := x][1..] == a[1..][i - 1 := x];
      UnresolvedUpdate(a[1..], i - 1, x);
    }
  }

  function IndexOf(alerts: seq<Alert>, id: string): (r: Option<nat>)
    ensures r.Some? ==> r.value < |alerts| && alerts[r.value].id == id
    ensures r.None? <==> forall i :: 0 <= i < |alerts| ==> alerts[i].id != id
    decreases |alerts|
  {
    if |alerts| == 0 then None
    else if alerts[0].id == id then Some(0)
    else match IndexOf(alerts[1..], id)
      case Some(k) => Some(k + 1)
      case None => None
  }

  lemma {:induction false} IndexOfAppend(alerts: seq<Alert>, a: Alert)
    requires IndexOf(alerts, a.id).None?
    ensures IndexOf(alerts + [a], a.id) == Some(|alerts|)
    decreases |alerts|
  {
    if |alerts| > 0 {
      assert (alerts + [a])[1..] == alerts[1..] + [a];
      IndexOfAppend(alerts[1..], a);
    }
  }

  lemma {:induction false} IndexOfUpdate(alerts: seq<Alert>, i: nat, a: Alert)
    requires IndexOf(alerts, a.id) == Some(i)
    ensures IndexOf(alerts[i := a], a.id) == Some(i)
    decreases |alerts|
  {
    if i > 0 {
      assert alerts[i := a][1..] == alerts[1..][i - 1 := a];
      IndexOfUpdate(alerts[1..], i - 1, a);
    }
  }

  /** The alert filed under an id: the first with that id. */
  function Find(alerts: seq<Alert>, id: string): Option<Alert> {
    match IndexOf(alerts, id)
    case Some(i) => Some(alerts[i])
    case None => None
  }

  // ---------------------------------------------------------------------
  // Alert store
  // ---------------------------------------------------------------------

  /** `self.alerts[alert_id] = alert`: a new id goes last, a known id is
      replaced where it stands. */
  function Store(alerts: seq<Alert>, a: Alert): (r: seq<Alert>)
    ensures IndexOf(alerts, a.id).None? ==> r == alerts + [a]
    ensures IndexOf(alerts, a.id).Some? ==> r == alerts[IndexOf(alerts, a.id).value := a]
    ensures Find(r, a.id) == Some(a)
  {
    match IndexOf(alerts, a.id)
    case None =>
      IndexOfAppend(alerts, a);
      alerts + [a]
    case Some(i) =>
      IndexOfUpdate(alerts, i, a);
      alerts[i := a]
  }

  /** `f"{source}_{int(time.time() * 1000)}"`. */
  function AlertId(source: string, nowMs: int): string {
    source + "_" + IntToStr(nowMs)
  }

  /** `create_alert`: stores an unresolved alert and counts it as created
      and active. */
  function CreateAlert(m: Monitor, severity: Severity, title: string, source: string, nowMs: int, now: int): (r: (Monitor, string))
    ensures r.1 == AlertId(source, nowMs)
    ensures r.0.totalAlerts == m.totalAlerts + 1 && r.0.activeAlerts == m.activeAlerts + 1
    ensures Find(r.0.alerts, r.1) == Some(Alert(r.1, severity, title, source, now, false, None, ""))
    ensures IndexOf(m.alerts, r.1).None? ==> r.0.alerts == m.alerts + [Alert(r.1, severity, title, source, now, false, None, "")]
    ensures r.0.buffer == m.buffer && r.0.totalMetrics == m.totalMetrics
  {
    var id := AlertId(source, nowMs);
    var a := Alert(id, severity, title, source, now, false, None, "");
    var alerts := Store(m.alerts, a);
    (m.(alerts := alerts, totalAlerts := m.totalAlerts + 1, activeAlerts := m.activeAlerts + 1), id)
  }

  /** Two alerts from one source in the same millisecond share an id: the
      second replaces the first in the store, yet both are counted as active. */
  lemma SameMillisecondCollides(m: Monitor, s1: Severity, t1: string, s2: Severity, t2: string,
                                source: string, nowMs: int, now1: int, now2: int)
    requires IndexOf(m.alerts, AlertId(source, nowMs)).None?
    ensures var (m1, id1) := CreateAlert(m, s1, t1, source, nowMs, now1);
            var (m2, id2) := CreateAlert(m1, s2, t2, source, nowMs, now2);
            id1 == id2 && |m2.alerts| == |m.alerts| + 1 &&
            Find(m2.alerts, id2) == Some(Alert(id2, s2, t2, source, now2, false, None, "")) &&
            m2.activeAlerts == m.activeAlerts + 2
  {
    var (m1, id1) := CreateAlert(m, s1, t1, source, nowMs, now1);
    assert IndexOf(m1.alerts, id1).Some?;
  }

  /** Creating an alert under a fresh id keeps the counter in step. */
  lemma CreateKeepsConsistent(m: Monitor, severity: Severity, title: string, source: string, nowMs: int, now: int)
    requires Consistent(m) && IndexOf(m.alerts, AlertId(source, nowMs)).None?
    ensures Consistent(CreateAlert(m, severity, title, source, nowMs, now).0)
  {
    var id := AlertId(source, nowMs);
    var a := Alert(id, severity, title, source, now, false, None, "");
    UnresolvedAppend(m.alerts, a);
    var r := m.alerts + [a];
    forall i, j | 0 <= i < j < |r|
      ensures r[i].id != r[j].id
    {
      if j == |r| - 1 {
        assert r[i] == m.alerts[i];
      }
    }
  }

  function MarkResolved(a: Alert, note: string, now: int): Alert {
    a.(resolved := true, resolvedAt := Some(now), note := note)
  }

  /** `resolve_alert` as written: a known alert is marked resolved and the
      active counter drops by one, whether or not it was already resolved;
      an unknown id changes nothing. */
  function ResolveAlertAsWritten(m: Monitor, id: string, note: string, now: int): (r: Monitor)
    ensures IndexOf(m.alerts, id).None? ==> r == m
    ensures IndexOf(m.alerts, id).Some? ==> r.activeAlerts == m.activeAlerts - 1
  {
    match IndexOf(m.alerts, id)
    case None => m
    case Some(i) => m.(alerts := m.alerts[i := MarkResolved(m.alerts[i], note, now)], activeAlerts := m.activeAlerts - 1)
  }

  /** `resolve_alert` with the counter dropping only when the alert was
      still active. */
  function ResolveAlert(m: Monitor, id: string, note: string, now: int): (r: Monitor)
    ensures IndexOf(m.alerts, id).None? ==> r == m
    ensures IndexOf(m.alerts, id).Some? ==>
              var i := IndexOf(m.alerts, id).value;
              r.alerts == m.alerts[i := MarkResolved(m.alerts[i], note, now)]
              && r.activeAlerts == m.activeAlerts - (if m.alerts[i].resolved then 0 else 1)
    ensures r.totalAlerts == m.totalAlerts && |r.alerts| == |m.alerts|
  {
    match IndexOf(m.alerts, id)
    case None => m
    case Some(i) =>
      var drop := if m.alerts[i].resolved then 0 else 1;
      m.(alerts := m.alerts[i := MarkResolved(m.alerts[i], note, now)], activeAlerts := m.activeAlerts - drop)
  }

  lemma ResolveKeepsConsistent(m: Monitor, id: string, note: string, now: int)
    requires Consistent(m)
    ensures Consistent(ResolveAlert(m, id, note, now))
  {
    match IndexOf(m.alerts, id)
    case None =>
    case Some(i) =>
      UnresolvedUpdate(m.alerts, i, MarkResolved(m.alerts[i], note, now));
  }

  /** Resolving is idempotent once corrected: a second resolve of the same
      alert leaves the counter where the first left it. */
  lemma ResolveTwiceCountsOnce(m: Monitor, id: string, note: string, now: int, later: int)
    requires IndexOf(m.alerts, id).Some?
    ensures ResolveAlert(ResolveAlert(m, id, note, now), id, note, later).activeAlerts
            == ResolveAlert(m, id, note, now).activeAlerts
  {
    var i := IndexOf(m.alerts, id).value;
    IndexOfUpdate(m.alerts, i, MarkResolved(m.alerts[i], note, now));
  }

  /** As written, resolving the only alert twice leaves the counter at -1:
      the summary then reports "warning" with nothing active. */
  lemma DoubleResolveAsWritten(a: Alert, note: string, now: int, later: int)
    requires !a.resolved
    ensures var m := Monitor([a], [], 0, 1, 1);
            var twice := ResolveAlertAsWritten(ResolveAlertAsWritten(m, a.id, note, now), a.id, note, later);
            twice.activeAlerts == -1 && Unresolved(twice.alerts) == 0 && AssessHealth(twice.activeAlerts) == "warning"
  {
    var m := Monitor([a], [], 0, 1, 1);
    assert IndexOf(m.alerts, a.id) == Some(0);
    var once := ResolveAlertAsWritten(m, a.id, note, now);
    assert IndexOf(once.alerts, a.id) == Some(0);
    var twice := ResolveAlertAsWritten(once, a.id, note, later);
    assert twice.alerts[0].resolved;
    assert twice.alerts[1..] == [];
  }

  /** `_cleanup_old_data`: drops resolved alerts older than the cutoff. */
  function Cleanup(alerts: seq<Alert>, cutoff: int): (r: seq<Alert>)
    ensures Unresolved(r) == Unresolved(alerts)
    ensures forall i :: 0 <= i < |r| ==> !(r[i].resolved && r[i].timestamp < cutoff)
    ensures forall i :: 0 <= i < |r| ==> r[i] in alerts
    ensures forall i :: 0 <= i < |alerts| && !alerts[i].resolved ==> alerts[i] in r
    decreases |alerts|
  {
    if |alerts| == 0 then []
    else
      var rest := Cleanup(alerts[1..], cutoff);
      assert forall x :: x in alerts[1..] ==> x in alerts;
      assert forall i :: 1 <= i < |alerts| ==> alerts[i] == alerts[1..][i - 1];
      if alerts[0].resolved && alerts[0].timestamp < cutoff then rest else [alerts[0]] + rest
  }

  // ---------------------------------------------------------------------
  // Thresholds and metrics
  // ---------------------------------------------------------------------

  const Thresholds: seq<(string, real)> := [
    ("response_time_ms", 3000.0), ("error_rate_percent", 5.0), ("cpu_percent", 80.0),
    ("memory_percent", 85.0), ("disk_percent", 90.0), ("database_response_ms", 1000.0)]

  function LookupIn(table: seq<(string, real)>, key: string): (r: Option<real>)
    ensures r.None? <==> forall i :: 0 <= i < |table| ==> table[i].0 != key
    decreases |table|
  {
    if |table| == 0 then None
    else if table[0].0 == key then Some(table[0].1)
    else LookupIn(table[1..], key)
  }

  /** `name.replace('.', '_')`. */
  function Underscored(name: string): (r: string)
    ensures |r| == |name|
    ensures forall i :: 0 <= i < |r| ==> r[i] != '.'
  {
    seq(|name|, i requires 0 <= i < |name| => if name[i] == '.' then '_' else name[i])
  }

  /** `_check_thresholds`: the severity of the alert a metric raises, if
      any: none unless the underscored name has a threshold and the value
      exceeds it; high above 1.2 times the threshold, else medium. */
  function ThresholdAlert(name: string, value: real): (r: Option<Severity>)
    ensures r.Some? <==> LookupIn(Thresholds, Underscored(name)).Some? && value > LookupIn(Thresholds, Underscored(name)).value
    ensures r == Some(High) <==> LookupIn(Thresholds, Underscored(name)).Some? && value > LookupIn(Thresholds, Underscored(name)).value * 1.2
    ensures r.Some? ==> r.value in {High, Medium}
  {
    match LookupIn(Thresholds, Underscored(name))
    case None => None
    case Some(t) => if value > t then (if value > t * 1.2 then Some(High) else Some(Medium)) else None
  }

  /** The system collector records `system.cpu_percent`, whose underscored
      name `system_cpu_percent` has no threshold: CPU readings never raise
      a threshold alert, however high. */
  lemma SystemCpuNeverAlerts(value: real)
    ensures ThresholdAlert("system.cpu_percent", value).None?
  {
    var key := Underscored("system.cpu_percent");
    assert key[0] == 's';
    forall i | 0 <= i < |Thresholds|
      ensures Thresholds[i].0 != key
    {
      assert Thresholds[i].0[0] != 's' || |Thresholds[i].0| != |key|;
    }
  }

  const BufferLimit := 10000

  /** `deque.append` on a bounded deque, and the keep-the-newest trim of the
      performance history: the newest `cap` entries survive. */
  function CapAppend<T>(s: seq<T>, x: T, cap: nat): (r: seq<T>)
    requires cap > 0
    ensures 1 <= |r| == Min(|s| + 1, cap)
    ensures r[|r| - 1] == x
    ensures r == (s + [x])[|s| + 1 - |r|..]
  {
    var t := s + [x];
    if |t| > cap then t[|t| - cap..] else t
  }

  /** `record_metric`: the metric is buffered (at most 10 000 kept), counted,
      and checked against the thresholds. */
  function RecordMetric(m: Monitor, metric: Metric, nowMs: int): (r: Monitor)
    ensures r.totalMetrics == m.totalMetrics + 1
    ensures 1 <= |r.buffer| <= BufferLimit
    ensures r.buffer[|r.buffer| - 1] == metric
    ensures ThresholdAlert(metric.name, metric.value).None? ==> r.alerts == m.alerts && r.activeAlerts == m.activeAlerts
    ensures ThresholdAlert(metric.name, metric.value).Some? ==> r.totalAlerts == m.totalAlerts + 1
  {
    var buffered := m.(buffer := CapAppend(m.buffer, metric, BufferLimit), totalMetrics := m.totalMetrics + 1);
    match ThresholdAlert(metric.name, metric.value)
    case None => buffered
    case Some(sev) =>
      CreateAlert(buffered, sev, "Threshold Exceeded: " + metric.name, "threshold_monitor", nowMs, metric.timestamp).0
  }

  const HistoryLimit := 1000

  /** `_check_error_rate` over the newest 100 outcomes of an operation: an
      alert needs at least 10 of them and more than 5 % failures. */
  function ErrorRateAlert(outcomes: seq<bool>): (alert: bool)
    ensures |outcomes| < 10 ==> !alert
  {
    var recent := if |outcomes| > 100 then outcomes[|outcomes| - 100..] else outcomes;
    |recent| >= 10 && (Failures(recent) as real) / (|recent| as real) * 100.0 > 5.0
  }

  function Failures(outcomes: seq<bool>): (n: nat)
    ensures n <= |outcomes|
    decreases |outcomes|
  {
    if |outcomes| == 0 then 0 else (if outcomes[0] then 0 else 1) + Failures(outcomes[1..])
  }

  /** A run with no failure never alerts. */
  lemma {:induction false} NoFailuresNoAlert(outcomes: seq<bool>)
    requires forall i :: 0 <= i < |outcomes| ==> outcomes[i]
    ensures !ErrorRateAlert(outcomes)
  {
    var recent := if |outcomes| > 100 then outcomes[|outcomes| - 100..] else outcomes;
    assert forall i :: 0 <= i < |recent| ==> recent[i];
    NoFailuresCount(recent);
  }

  lemma {:induction false} NoFailuresCount(outcomes: seq<bool>)
    requires forall i :: 0 <= i < |outcomes| ==> outcomes[i]
    ensures Failures(outcomes) == 0
    decreases |outcomes|
  {
    if |outcomes| > 0 {
      NoFailuresCount(outcomes[1..]);
    }
  }

  // ---------------------------------------------------------------------
  // Queries
  // ---------------------------------------------------------------------

  function Ascending(values: seq<real>): (r: seq<real>)
    ensures |r| == |values| && multiset(r) == multiset(values)
    ensures forall i, j :: 0 <= i < j < |r| ==> r[i] <= r[j]
  {
    var s := SortDesc(values, Negated);
    assert forall i, j :: 0 <= i < j < |s| ==> Negated(s[i]) >= Negated(s[j]);
    s
  }

  function Negated(x: real): real {
    -x
  }

  function PercentileIndex(percentile: nat, n: nat): (k: nat)
    requires n > 0
    ensures k < n
    ensures percentile >= 100 ==> k == n - 1
  {
    var raw := RawRank(percentile, n);
    RawRankPast(percentile, n);
    if raw < n - 1 then raw else n - 1
  }

  /** `int(p / 100 * n)`. */
  function RawRank(percentile: nat, n: nat): (k: int)
    ensures k >= 0
  {
    var f := (percentile as real) / 100.0;
    assert f >= 0.0;
    assert f * (n as real) >= 0.0;
    (f * (n as real)).Floor
  }

  lemma RawRankPast(percentile: nat, n: nat)
    ensures percentile >= 100 ==> RawRank(percentile, n) >= n
  {
    if percentile >= 100 {
      var f := (percentile as real) / 100.0;
      var m := n as real;
      assert f >= 1.0;
      assert f * m - m == (f - 1.0) * m;
      assert (f - 1.0) * m >= 0.0;
    }
  }

  lemma RawRankMonotone(p: nat, q: nat, n: nat)
    requires p <= q
    ensures RawRank(p, n) <= RawRank(q, n)
  {
    var a, b := (p as real) / 100.0, (q as real) / 100.0;
    var m := n as real;
    assert a <= b;
    assert b * m - a * m == (b - a) * m;
    assert (b - a) * m >= 0.0;
  }

  /** `_calculate_percentile`: 0 with no values, else the sorted value at
      `int(p/100·n)`, clamped to the last. */
  function Percentile(values: seq<real>, percentile: nat): (r: real)
    ensures values == [] ==> r == 0.0
    ensures values != [] ==> r in values
    ensures values != [] && percentile >= 100 ==> forall i :: 0 <= i < |values| ==> values[i] <= r
  {
    if values == [] then 0.0
    else
      var s := Ascending(values);
      var k := PercentileIndex(percentile, |values|);
      SortedMember(values, s, k);
      LastIsLargest(values, s);
      assert percentile >= 100 ==> k == |s| - 1;
      s[k]
  }

  lemma SortedMember(values: seq<real>, s: seq<real>, k: nat)
    requires k < |s| && multiset(s) == multiset(values)
    ensures s[k] in values
  {
    assert s[k] in multiset(s);
  }

  lemma LastIsLargest(values: seq<real>, s: seq<real>)
    requires |s| > 0 && multiset(s) == multiset(values)
    requires forall i, j :: 0 <= i < j < |s| ==> s[i] <= s[j]
    ensures forall i :: 0 <= i < |values| ==> values[i] <= s[|s| - 1]
  {
    forall i | 0 <= i < |values| ensures values[i] <= s[|s| - 1] {
      assert values[i] in multiset(s);
      var j :| 0 <= j < |s| && s[j] == values[i];
    }
  }

  /** A higher percentile never reports a smaller value. */
  lemma PercentileMonotone(values: seq<real>, p: nat, q: nat)
    requires p <= q
    ensures Percentile(values, p) <= Percentile(values, q)
  {
    if values != [] {
      RawRankMonotone(p, q, |values|);
      assert PercentileIndex(p, |values|) <= PercentileIndex(q, |values|);
    }
  }

  const SeverityNames: set<string> := {"low", "medium", "high", "critical"}

  /** `_get_alert_summary`: a count per severity name, unknown names
      ignored. */
  function AlertSummary(severities: seq<string>): (r: map<string, nat>)
    ensures r.Keys == SeverityNames
    ensures forall k :: k in r ==> r[k] == Count(severities, (s: string) => s == k)
  {
    map k | k in SeverityNames :: Count(severities, (s: string) => s == k)
  }

  /** `_assess_system_health`. */
  function AssessHealth(active: int): (h: string)
    ensures h == "healthy" <==> active == 0
    ensures h == "critical" <==> active > 2
  {
    if active == 0 then "healthy" else if active <= 2 then "warning" else "critical"
  }

  /** `get_alerts`: those at or after the cutoff, of the severity asked for,
      unresolved when asked; newest first. */
  predicate Selected(a: Alert, cutoff: int, severity: Option<Severity>, activeOnly: bool) {
    a.timestamp >= cutoff && (severity.None? || a.severity == severity.value) && !(activeOnly && a.resolved)
  }

  function TimestampKey(a: Alert): real {
    a.timestamp as real
  }

  function Selection(alerts: seq<Alert>, cutoff: int, severity: Option<Severity>, activeOnly: bool): (r: seq<Alert>)
    ensures multiset(r) <= multiset(alerts)
    ensures forall i :: 0 <= i < |r| ==> Selected(r[i], cutoff, severity, activeOnly)
    ensures forall x :: x in alerts && Selected(x, cutoff, severity, activeOnly) ==> x in r
  {
    Filter(alerts, (a: Alert) => Selected(a, cutoff, severity, activeOnly))
  }

  function GetAlerts(alerts: seq<Alert>, now: int, hours: int, severity: Option<Severity>, activeOnly: bool): (r: seq<Alert>)
    ensures forall i :: 0 <= i < |r| ==> Selected(r[i], now - hours * 3600, severity, activeOnly)
    ensures forall x :: x in alerts && Selected(x, now - hours * 3600, severity, activeOnly) ==> x in r
    ensures forall i, j :: 0 <= i < j < |r| ==> r[i].timestamp >= r[j].timestamp
  {
    var cutoff := now - hours * 3600;
    var kept := Selection(alerts, cutoff, severity, activeOnly);
    var r := SortDesc(kept, TimestampKey);
    SortedSelection(kept, r, cutoff, severity, activeOnly);
    r
  }

  lemma SortedSelection(kept: seq<Alert>, r: seq<Alert>, cutoff: int, severity: Option<Severity>, activeOnly: bool)
    requires multiset(r) == multiset(kept)
    requires forall i :: 0 <= i < |kept| ==> Selected(kept[i], cutoff, severity, activeOnly)
    requires SortedDesc(r, TimestampKey)
    ensures forall i :: 0 <= i < |r| ==> Selected(r[i], cutoff, severity, activeOnly)
    ensures forall x :: x in kept ==> x in r
    ensures forall i, j :: 0 <= i < j < |r| ==> r[i].timestamp >= r[j].timestamp
  {
    forall i | 0 <= i < |r| ensures Selected(r[i], cutoff, severity, activeOnly) {
      assert r[i] in multiset(kept);
    }
    forall x | x in kept ensures x in r {
      assert x in multiset(r);
    }
    forall i, j | 0 <= i < j < |r| ensures r[i].timestamp >= r[j].timestamp {
      assert TimestampKey(r[i]) >= TimestampKey(r[j]);
    }
  }
}
