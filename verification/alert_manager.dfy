/** The alert manager's rule logic (monitoring/alert_manager.py): threshold
    operators, the duration test, the rule registry and its counters,
    suppression windows, group keys and aggregation, the capped history and
    the evaluation of threshold rules. Notification channels (SMTP, Slack,
    webhooks) are left out. */
module AlertManager {
  import opened Wrappers
  import opened Text
  import opened Json
  import Monitoring

  // ---------------------------------------------------------------------
  // Thresholds and durations
  // ---------------------------------------------------------------------

  /** `_evaluate_threshold`: the six comparison operators; any other
      operator never fires. */
  function EvaluateThreshold(value: real, op: string, threshold: real): (b: bool)
    ensures op !in {">", "<", ">=", "<=", "==", "!="} ==> !b
    ensures op == ">" ==> (b <==> value > threshold)
    ensures op == "<" ==> (b <==> value < threshold)
    ensures op == ">=" ==> (b <==> value >= threshold)
    ensures op == "<=" ==> (b <==> value <= threshold)
    ensures op == "==" ==> (b <==> value == threshold)
    ensures op == "!=" ==> (b <==> value != threshold)
  {
    if op == ">" then value > threshold
    else if op == "<" then value < threshold
    else if op == ">=" then value >= threshold
    else if op == "<=" then value <= threshold
    else if op == "==" then value == threshold
    else if op == "!=" then value != threshold
    else false
  }

  /** The operators pair up as complements. */
  lemma OperatorComplements(value: real, threshold: real)
    ensures EvaluateThreshold(value, ">", threshold) <==> !EvaluateThreshold(value, "<=", threshold)
    ensures EvaluateThreshold(value, "<", threshold) <==> !EvaluateThreshold(value, ">=", threshold)
    ensures EvaluateThreshold(value, "==", threshold) <==> !EvaluateThreshold(value, "!=", threshold)
  {
  }

  datatype Rule = Rule(metricName: string, op: string, threshold: real, durationMinutes: int,
                       severity: Monitoring.Severity, enabled: bool)

  datatype Sample = Sample(name: string, value: real, timestamp: int)

  function Violations(samples: seq<Sample>, r: Rule): (n: nat)
    ensures n <= |samples|
    decreases |samples|
  {
    if |samples| == 0 then 0
    else (if EvaluateThreshold(samples[0].value, r.op, r.threshold) then 1 else 0) + Violations(samples[1..], r)
  }

  function Recent(samples: seq<Sample>, cutoff: int): (s: seq<Sample>)
    ensures |s| <= |samples|
    ensures forall i :: 0 <= i < |s| ==> s[i] in samples && s[i].timestamp > cutoff
    ensures forall x :: x in samples && x.timestamp > cutoff ==> x in s
    decreases |samples|
  {
    if |samples| == 0 then []
    else
      var rest := Recent(samples[1..], cutoff);
      assert forall x :: x in samples[1..] ==> x in samples;
      if samples[0].timestamp > cutoff then [samples[0]] + rest else rest
  }

  /** The samples of the rule's duration window ending at `now` (seconds). */
  function Window(samples: seq<Sample>, r: Rule, now: int): seq<Sample> {
    Recent(samples, now - r.durationMinutes * 60)
  }

  /** `_check_duration` at time `now` (seconds): with no duration it holds
      at once; otherwise it needs two or more samples inside the window, of
      which at least 80 % violate. */
  function CheckDuration(r: Rule, samples: seq<Sample>, now: int): (ok: bool)
    ensures r.durationMinutes <= 0 ==> ok
    ensures r.durationMinutes > 0 ==> (ok <==> Sustained(Window(samples, r, now), r))
  {
    if r.durationMinutes <= 0 then true
    else
      var recent := Window(samples, r, now);
      if |recent| < 2 then false
      else
        RatioAtLeast(Violations(recent, r) as real, |recent| as real, 0.8);
        (Violations(recent, r) as real) / (|recent| as real) >= 0.8
  }

  /** At least two samples, of which at least 80 % violate the rule. */
  predicate Sustained(recent: seq<Sample>, r: Rule) {
    |recent| >= 2 && (Violations(recent, r) as real) >= 0.8 * (|recent| as real)
  }

  lemma RatioAtLeast(a: real, b: real, k: real)
    requires b > 0.0
    ensures a / b >= k <==> a >= k * b
  {
    var q := a / b;
    assert q * b == a;
  }

  lemma {:induction false} AllViolating(samples: seq<Sample>, r: Rule)
    requires forall i :: 0 <= i < |samples| ==> EvaluateThreshold(samples[i].value, r.op, r.threshold)
    ensures Violations(samples, r) == |samples|
    decreases |samples|
  {
    if |samples| > 0 {
      AllViolating(samples[1..], r);
    }
  }

  /** Two or more samples in the window, every one violating, pass the
      duration test. */
  lemma SustainedViolationPasses(r: Rule, samples: seq<Sample>, now: int)
    requires r.durationMinutes > 0
    requires |Window(samples, r, now)| >= 2
    requires forall i :: 0 <= i < |samples| ==> EvaluateThreshold(samples[i].value, r.op, r.threshold)
    ensures CheckDuration(r, samples, now)
  {
    WindowSustained(samples, r, now);
  }

  /** A window of two or more samples from an all-violating series is sustained. */
  lemma WindowSustained(samples: seq<Sample>, r: Rule, now: int)
    requires |Window(samples, r, now)| >= 2
    requires forall i :: 0 <= i < |samples| ==> EvaluateThreshold(samples[i].value, r.op, r.threshold)
    ensures Sustained(Window(samples, r, now), r)
  {
    RecentViolating(samples, now - r.durationMinutes * 60, r);
    AllViolatingSustained(Window(samples, r, now), r);
  }

  /** The window keeps only samples of the series, so it violates wherever the series does. */
  lemma RecentViolating(samples: seq<Sample>, cutoff: int, r: Rule)
    requires forall i :: 0 <= i < |samples| ==> EvaluateThreshold(samples[i].value, r.op, r.threshold)
    ensures forall i :: 0 <= i < |Recent(samples, cutoff)| ==>
              EvaluateThreshold(Recent(samples, cutoff)[i].value, r.op, r.threshold)
  {
    var recent := Recent(samples, cutoff);
    forall i | 0 <= i < |recent| ensures EvaluateThreshold(recent[i].value, r.op, r.threshold) {
      var j :| 0 <= j < |samples| && samples[j] == recent[i];
    }
  }

  /** Two or more samples that all violate are a sustained violation. */
  lemma AllViolatingSustained(recent: seq<Sample>, r: Rule)
    requires |recent| >= 2
    requires forall i :: 0 <= i < |recent| ==> EvaluateThreshold(recent[i].value, r.op, r.threshold)
    ensures Sustained(recent, r)
  {
    AllViolating(recent, r);
  }

  // ---------------------------------------------------------------------
  // Rule registry
  // ---------------------------------------------------------------------

  datatype Registry = Registry(rules: seq<(string, Rule)>, totalRules: int, activeRules: int)

  /** `f"threshold_{metric_name}_{operator}_{threshold_value}"`; `show`
      stands for Python's rendering of the float. */
  function RuleId(r: Rule, show: real -> string): string {
    "threshold_" + r.metricName + "_" + r.op + "_" + show(r.threshold)
  }

  function Position(rules: seq<(string, Rule)>, id: string): (r: Option<nat>)
    ensures r.Some? ==> r.value < |rules| && rules[r.value].0 == id
    ensures r.None? <==> forall i :: 0 <= i < |rules| ==> rules[i].0 != id
    decreases |rules|
  {
    if |rules| == 0 then None
    else if rules[0].0 == id then Some(0)
    else match Position(rules[1..], id)
      case Some(k) => Some(k + 1)
      case None => None
  }

  function Enabled(rules: seq<(string, Rule)>): (n: nat)
    ensures n <= |rules|
    decreases |rules|
  {
    if |rules| == 0 then 0 else (if rules[0].1.enabled then 1 else 0) + Enabled(rules[1..])
  }

  /** The counters agree with the registry. */
  predicate Counted(g: Registry) {
    (forall i, j :: 0 <= i < j < |g.rules| ==> g.rules[i].0 != g.rules[j].0)
    && g.totalRules == |g.rules| && g.activeRules == Enabled(g.rules)
  }

  /** `add_threshold_rule`: the rule is filed under its id (replacing one
      already there) and counted, as active when enabled. */
  function AddRule(g: Registry, r: Rule, show: real -> string): (res: (Registry, string))
    ensures res.1 == RuleId(r, show)
    ensures res.0.totalRules == g.totalRules + 1
    ensures res.0.activeRules == g.activeRules + (if r.enabled then 1 else 0)
    ensures Position(g.rules, res.1).None? ==> res.0.rules == g.rules + [(res.1, r)]
    ensures Position(g.rules, res.1).Some? ==> |res.0.rules| == |g.rules|
  {
    var id := RuleId(r, show);
    var rules := match Position(g.rules, id)
      case None => g.rules + [(id, r)]
      case Some(i) => g.rules[i := (id, r)];
    (Registry(rules, g.totalRules + 1, g.activeRules + (if r.enabled then 1 else 0)), id)
  }

  lemma {:induction false} EnabledAppend(rules: seq<(string, Rule)>, x: (string, Rule))
    ensures Enabled(rules + [x]) == Enabled(rules) + (if x.1.enabled then 1 else 0)
    decreases |rules|
  {
    if |rules| > 0 {
      assert (rules + [x])[1..] == rules[1..] + [x];
      EnabledAppend(rules[1..], x);
    }
  }

  lemma {:induction false} EnabledRemove(rules: seq<(string, Rule)>, i: nat)
    requires i < |rules|
    ensures Enabled(rules[..i] + rules[i + 1..]) + (if rules[i].1.enabled then 1 else 0) == Enabled(rules)
    decreases |rules|
  {
    if i > 0 {
      assert (rules[..i] + rules[i + 1..])[1..] == rules[1..][..i - 1] + rules[1..][i..];
      EnabledRemove(rules[1..], i - 1);
    } else {
      assert rules[..0] + rules[1..] == rules[1..];
    }
  }

  /** A rule with a new id keeps the counters true. */
  lemma AddKeepsCounted(g: Registry, r: Rule, show: real -> string)
    requires Counted(g) && Position(g.rules, RuleId(r, show)).None?
    ensures Counted(AddRule(g, r, show).0)
  {
    var id := RuleId(r, show);
    EnabledAppend(g.rules, (id, r));
    var rules := g.rules + [(id, r)];
    forall i, j | 0 <= i < j < |rules| ensures rules[i].0 != rules[j].0 {
      if j == |rules| - 1 {
        assert rules[i] == g.rules[i];
      }
    }
  }

  /** Filing the same rule twice counts it twice while the registry holds
      it once. */
  lemma ReAddOvercounts(g: Registry, r: Rule, show: real -> string)
    requires Counted(g) && Position(g.rules, RuleId(r, show)).None?
    ensures var twice := AddRule(AddRule(g, r, show).0, r, show).0;
            twice.totalRules == |twice.rules| + 1
  {
    var once := AddRule(g, r, show).0;
    var id := RuleId(r, show);
    assert once.rules[|g.rules|].0 == id;
  }

  /** `remove_threshold_rule`: a known rule is removed and uncounted; an
      unknown id answers false and changes nothing. */
  function RemoveRule(g: Registry, id: string): (res: (Registry, bool))
    ensures res.1 <==> Position(g.rules, id).Some?
    ensures !res.1 ==> res.0 == g
    ensures res.1 ==> |res.0.rules| == |g.rules| - 1 && res.0.totalRules == g.totalRules - 1
    ensures res.1 ==> forall i :: 0 <= i < |res.0.rules| ==> res.0.rules[i].0 != id || exists j :: 0 <= j < |g.rules| && j != Position(g.rules, id).value && g.rules[j].0 == id
  {
    match Position(g.rules, id)
    case None => (g, false)
    case Some(i) =>
      var rules := g.rules[..i] + g.rules[i + 1..];
      assert forall k :: 0 <= k < |rules| ==> rules[k] == g.rules[if k < i then k else k + 1];
      (Registry(rules, g.totalRules - 1, g.activeRules - (if g.rules[i].1.enabled then 1 else 0)), true)
  }

  lemma RemoveKeepsCounted(g: Registry, id: string)
    requires Counted(g)
    ensures Counted(RemoveRule(g, id).0)
  {
    match Position(g.rules, id)
    case None =>
    case Some(i) =>
      EnabledRemove(g.rules, i);
      var rules := g.rules[..i] + g.rules[i + 1..];
      assert forall k :: 0 <= k < |rules| ==> rules[k] == g.rules[if k < i then k else k + 1];
  }

  /** Rules whose metric names differ at some position get different ids,
      however the thresholds are shown. */
  lemma NamesDifferIdsDiffer(a: Rule, b: Rule, i: nat, show: real -> string)
    requires i < |a.metricName| && i < |b.metricName| && a.metricName[i] != b.metricName[i]
    ensures RuleId(a, show) != RuleId(b, show)
  {
    assert RuleId(a, show)[10 + i] == a.metricName[i];
    assert RuleId(b, show)[10 + i] == b.metricName[i];
  }

  /** `add_threshold_rule` applied to each rule in turn. */
  function AddAll(g: Registry, rules: seq<Rule>, show: real -> string): (r: Registry)
    ensures r.totalRules == g.totalRules + |rules|
    ensures (forall i :: 0 <= i < |rules| ==> rules[i].enabled) ==> r.activeRules == g.activeRules + |rules|
    decreases |rules|
  {
    if |rules| == 0 then g else AddAll(AddRule(g, rules[0], show).0, rules[1..], show)
  }

  predicate FreshIds(g: Registry, rules: seq<Rule>, show: real -> string) {
    (forall i :: 0 <= i < |rules| ==> Position(g.rules, RuleId(rules[i], show)).None?)
    && (forall i, j :: 0 <= i < j < |rules| ==> RuleId(rules[i], show) != RuleId(rules[j], show))
  }

  lemma {:induction false} AddAllCounted(g: Registry, rules: seq<Rule>, show: real -> string)
    requires Counted(g) && FreshIds(g, rules, show)
    ensures Counted(AddAll(g, rules, show))
    decreases |rules|
  {
    if |rules| > 0 {
      AddKeepsCounted(g, rules[0], show);
      var next := AddRule(g, rules[0], show).0;
      assert next.rules == g.rules + [(RuleId(rules[0], show), rules[0])];
      forall i | 0 <= i < |rules[1..]| ensures Position(next.rules, RuleId(rules[1..][i], show)).None? {
        var id := RuleId(rules[i + 1], show);
        assert id != RuleId(rules[0], show);
        forall k | 0 <= k < |next.rules| ensures next.rules[k].0 != id {
          if k < |g.rules| {
            assert next.rules[k] == g.rules[k];
          }
        }
      }
      AddAllCounted(next, rules[1..], show);
    }
  }

  /** The five rules `_setup_default_rules` installs. */
  const DefaultRules: seq<Rule> := [
    Rule("system.cpu.usage_percent", ">=", 80.0, 5, Monitoring.High, true),
    Rule("system.memory.usage_percent", ">=", 85.0, 5, Monitoring.High, true),
    Rule("system.disk.usage_percent", ">=", 90.0, 10, Monitoring.Critical, true),
    Rule("http.request.duration", ">=", 3000.0, 3, Monitoring.Medium, true),
    Rule("database.health_check.response_time", ">=", 1000.0, 2, Monitoring.High, true)
  ]

  /** After setup the registry holds five distinct rules and both counters
      read five. */
  lemma DefaultsCounted(show: real -> string)
    ensures var g := AddAll(Registry([], 0, 0), DefaultRules, show);
            Counted(g) && g.totalRules == 5 && g.activeRules == 5 && |g.rules| == 5
  {
    var d := DefaultRules;
    assert d[0].metricName[7] == 'c' && d[1].metricName[7] == 'm' && d[2].metricName[7] == 'd';
    assert d[3].metricName[7] == 'q' && d[4].metricName[7] == 'e';
    DistinctNamesCounted(d, show);
  }

  /** Enabled rules whose metric names differ at one position register as
      that many distinct rules, all active. */
  lemma DistinctNamesCounted(d: seq<Rule>, show: real -> string)
    requires forall i :: 0 <= i < |d| ==> |d[i].metricName| > 7 && d[i].enabled
    requires forall i, j :: 0 <= i < j < |d| ==> d[i].metricName[7] != d[j].metricName[7]
    ensures var g := AddAll(Registry([], 0, 0), d, show);
            Counted(g) && g.totalRules == |d| && g.activeRules == |d| && |g.rules| == |d|
  {
    forall i, j | 0 <= i < j < |d| ensures RuleId(d[i], show) != RuleId(d[j], show) {
      NamesDifferIdsDiffer(d[i], d[j], 7, show);
    }
    AddAllCounted(Registry([], 0, 0), d, show);
  }

  // ---------------------------------------------------------------------
  // Suppression
  // ---------------------------------------------------------------------

  const SuppressionSeconds := 900

  /** `_is_alert_suppressed`: a key is suppressed until its end time, and
      an expired entry is dropped when consulted. */
  function IsSuppressed(suppressed: map<string, int>, key: string, now: int): (r: (bool, map<string, int>))
    ensures r.0 <==> key in suppressed && now <= suppressed[key]
    ensures key in suppressed && now > suppressed[key] ==> r.1 == suppressed - {key}
    ensures !(key in suppressed && now > suppressed[key]) ==> r.1 == suppressed
  {
    if key !in suppressed then (false, suppressed)
    else if now > suppressed[key] then (false, suppressed - {key})
    else (true, suppressed)
  }

  datatype Manager = Manager(monitor: Monitoring.Monitor, suppressed: map<string, int>, suppressedCount: nat)

  /** `_trigger_threshold_alert`: unless suppressed, an alert of the rule's
      severity is created and the key suppressed for 15 minutes. */
  function TriggerAlert(m: Manager, r: Rule, show: real -> string, now: int, nowMs: int): (res: Manager)
    ensures IsSuppressed(m.suppressed, RuleId(r, show), now).0 ==> res == m
    ensures !IsSuppressed(m.suppressed, RuleId(r, show), now).0 ==>
              res.monitor.totalAlerts == m.monitor.totalAlerts + 1
              && res.suppressed == m.suppressed[RuleId(r, show) := now + SuppressionSeconds]
              && res.suppressedCount == m.suppressedCount + 1
  {
    var key := RuleId(r, show);
    var (isSuppressed, table) := IsSuppressed(m.suppressed, key, now);
    if isSuppressed then m
    else
      var (monitor, _) := Monitoring.CreateAlert(m.monitor, r.severity, "Threshold Alert: " + r.metricName,
                                                 "threshold_monitor", nowMs, now);
      Manager(monitor, table[key := now + SuppressionSeconds], m.suppressedCount + 1)
  }

  /** The same rule firing again within 15 minutes raises nothing more. */
  lemma RefireSuppressed(m: Manager, r: Rule, show: real -> string, now: int, nowMs: int, later: int, laterMs: int)
    requires now <= later <= now + SuppressionSeconds
    requires !IsSuppressed(m.suppressed, RuleId(r, show), now).0
    ensures var once := TriggerAlert(m, r, show, now, nowMs);
            TriggerAlert(once, r, show, later, laterMs) == once
  {
  }

  // ---------------------------------------------------------------------
  // Aggregation and history
  // ---------------------------------------------------------------------

  /** An alert as the history keeps it. */
  datatype Entry = Entry(id: string, severity: string, source: string, timestamp: int, metadata: seq<Field>)

  /** `_get_alert_group_key`: the grouped fields joined with `|`; a
      metadata field is shown with `show`, and a missing one as
      `unknown`. */
  function GroupKey(groupBy: seq<string>, e: Entry, show: Value -> string): (k: string)
    ensures groupBy == ["source", "severity"] ==> k == e.source + "|" + e.severity
  {
    var vs := GroupValues(groupBy, e, show);
    if groupBy == ["source", "severity"] then
      assert vs == [e.source, e.severity];
      assert vs[1..] == [e.severity];
      assert Join("|", vs[1..]) == e.severity;
      Join("|", vs)
    else Join("|", vs)
  }

  function GroupValues(groupBy: seq<string>, e: Entry, show: Value -> string): (vs: seq<string>)
    ensures |vs| == |groupBy|
    ensures forall i :: 0 <= i < |groupBy| && groupBy[i] != "source" && groupBy[i] != "severity" ==>
                          (Get(e.metadata, groupBy[i]).None? ==> vs[i] == "unknown")
  {
    seq(|groupBy|, i requires 0 <= i < |groupBy| =>
      if groupBy[i] == "source" then e.source
      else if groupBy[i] == "severity" then e.severity
      else match Get(e.metadata, groupBy[i])
        case Some(v) => show(v)
        case None => "unknown")
  }

  const GroupBy: seq<string> := ["source", "severity"]
  const WindowSeconds := 900
  const MaxPerGroup := 5
  const HistoryLimit := 1000

  function InGroup(history: seq<Entry>, key: string, cutoff: int, show: Value -> string): (n: nat)
    ensures n <= |history|
    decreases |history|
  {
    if |history| == 0 then 0
    else (if history[0].timestamp > cutoff && GroupKey(GroupBy, history[0], show) == key then 1 else 0)
         + InGroup(history[1..], key, cutoff, show)
  }

  /** `_handle_alert`: the alert joins the history (newest 1000 kept), and
      it is notified unless aggregation is on and its group already reached
      five alerts in the last 15 minutes, the alert itself included. */
  function HandleAlert(history: seq<Entry>, e: Entry, now: int, show: Value -> string, aggregate: bool): (r: (seq<Entry>, bool))
    ensures r.0 == Monitoring.CapAppend(history, e, HistoryLimit)
    ensures !aggregate ==> r.1
    ensures aggregate ==> (r.1 <==> InGroup(r.0, GroupKey(GroupBy, e, show), now - WindowSeconds, show) < MaxPerGroup)
  {
    var h := Monitoring.CapAppend(history, e, HistoryLimit);
    (h, !aggregate || InGroup(h, GroupKey(GroupBy, e, show), now - WindowSeconds, show) < MaxPerGroup)
  }

  /** Within one window, the fifth alert of a group is held back: a
      history below the cap holding four recent alerts of the group. */
  lemma FifthAlertAggregated(history: seq<Entry>, e: Entry, now: int, show: Value -> string)
    requires |history| < HistoryLimit && e.timestamp > now - WindowSeconds
    requires InGroup(history, GroupKey(GroupBy, e, show), now - WindowSeconds, show) == MaxPerGroup - 1
    ensures !HandleAlert(history, e, now, show, true).1
  {
    InGroupAppend(history, e, GroupKey(GroupBy, e, show), now - WindowSeconds, show);
  }

  lemma {:induction false} InGroupAppend(history: seq<Entry>, e: Entry, key: string, cutoff: int, show: Value -> string)
    ensures InGroup(history + [e], key, cutoff, show)
            == InGroup(history, key, cutoff, show) + (if e.timestamp > cutoff && GroupKey(GroupBy, e, show) == key then 1 else 0)
    decreases |history|
  {
    if |history| > 0 {
      assert (history + [e])[1..] == history[1..] + [e];
      InGroupAppend(history[1..], e, key, cutoff, show);
    }
  }

  /** An alert whose group has fewer than four recent alerts in a history
      below the cap is notified. */
  lemma QuietGroupNotified(history: seq<Entry>, e: Entry, now: int, show: Value -> string)
    requires |history| < HistoryLimit
    requires InGroup(history, GroupKey(GroupBy, e, show), now - WindowSeconds, show) < MaxPerGroup - 1
    ensures HandleAlert(history, e, now, show, true).1
  {
    InGroupAppend(history, e, GroupKey(GroupBy, e, show), now - WindowSeconds, show);
  }

  // ---------------------------------------------------------------------
  // Rule evaluation
  // ---------------------------------------------------------------------

  function Named(samples: seq<Sample>, name: string): (s: seq<Sample>)
    ensures forall i :: 0 <= i < |s| ==> s[i].name == name && s[i] in samples
    decreases |samples|
  {
    if |samples| == 0 then []
    else
      var rest := Named(samples[1..], name);
      assert forall x :: x in samples[1..] ==> x in samples;
      if samples[0].name == name then [samples[0]] + rest else rest
  }

  /** The newest sample; the first of equal timestamps, as a stable
      descending sort puts it. */
  function Latest(samples: seq<Sample>): (s: Sample)
    requires |samples| > 0
    ensures s in samples
    ensures forall i :: 0 <= i < |samples| ==> samples[i].timestamp <= s.timestamp
    decreases |samples|
  {
    if |samples| == 1 then samples[0]
    else
      var rest := Latest(samples[1..]);
      assert forall i :: 1 <= i < |samples| ==> samples[i] == samples[1..][i - 1];
      if samples[0].timestamp >= rest.timestamp then samples[0] else rest
  }

  /** Whether a rule fires on a batch of samples: it is enabled, its metric
      is present, the newest value violates, and the duration test holds. */
  predicate Fires(r: Rule, samples: seq<Sample>, now: int) {
    var mine := Named(samples, r.metricName);
    r.enabled && |mine| > 0 && EvaluateThreshold(Latest(mine).value, r.op, r.threshold) && CheckDuration(r, mine, now)
  }

  /** `evaluate_threshold_rules`: each firing rule, in registry order, is
      triggered. */
  function EvaluateRules(m: Manager, rules: seq<(string, Rule)>, samples: seq<Sample>, show: real -> string,
                         now: int, nowMs: int): (res: Manager)
    ensures (forall i :: 0 <= i < |rules| ==> !Fires(rules[i].1, samples, now)) ==> res == m
    ensures res.monitor.totalAlerts <= m.monitor.totalAlerts + |rules|
    ensures res.monitor.totalAlerts >= m.monitor.totalAlerts
    decreases |rules|
  {
    if |rules| == 0 then m
    else
      var r := rules[0].1;
      var next := if Fires(r, samples, now) then TriggerAlert(m, r, show, now, nowMs) else m;
      assert forall i :: 1 <= i < |rules| ==> rules[i] == rules[1..][i - 1];
      EvaluateRules(next, rules[1..], samples, show, now, nowMs)
  }
}
