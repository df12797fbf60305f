/** The dashboard's derived figures (revenue/revenue_dashboard.py): period
    growth, performance alerts, the Pareto distribution of revenue, the naive
    forecast with its intervals, the growth trend and the best hours. */
module RevenueDashboard {
  import opened Wrappers
  import opened Text
  import opened Stats
  import opened Sorting

  /** A report summary; a metric that is absent reads as 0. */
  type Summary = map<string, real>

  function Metric(s: Summary, name: string): real {
    if name in s then s[name] else 0.0
  }

  // ---------------------------------------------------------------------
  // Growth rates and alerts
  // ---------------------------------------------------------------------

  /** The percentage change from `prev` to `cur`; with nothing before, 100
      for any positive figure and 0 otherwise. */
  function GrowthRate(cur: real, prev: real): (g: real)
    ensures g > 0.0 <==> (if prev > 0.0 then cur > prev else cur > 0.0)
    ensures g < 0.0 <==> prev > 0.0 && cur < prev
    ensures prev <= 0.0 ==> g == 0.0 || g == 100.0
  {
    if prev > 0.0 then (cur - prev) / prev * 100.0
    else if cur > 0.0 then 100.0 else 0.0
  }

  /** Growth is a true inverse when there was something before: applying
      the rate to the previous figure gives back the current one. */
  lemma GrowthRateInverse(cur: real, prev: real)
    requires prev > 0.0
    ensures prev * (1.0 + GrowthRate(cur, prev) / 100.0) == cur
  {
  }

  const GrowthMetrics: seq<string> := ["total_revenue", "total_conversions", "conversion_rate", "average_order_value"]

  /** `_calculate_growth_rates`: exactly the four metrics, each with its
      growth rate. */
  function GrowthRates(cur: Summary, prev: Summary): (r: map<string, real>)
    ensures r.Keys == set m | m in GrowthMetrics
    ensures forall m :: m in r ==> r[m] == GrowthRate(Metric(cur, m), Metric(prev, m))
  {
    map m | m in GrowthMetrics :: GrowthRate(Metric(cur, m), Metric(prev, m))
  }

  datatype Alert = Alert(kind: string, severity: string, current: real, previous: real, dropPercent: real)

  predicate RevenueDeclined(cur: Summary, prev: Summary) {
    Metric(prev, "total_revenue") > 0.0 && Metric(cur, "total_revenue") < Metric(prev, "total_revenue") * 0.8
  }

  predicate ConversionDeclined(cur: Summary, prev: Summary) {
    Metric(prev, "conversion_rate") > 0.0 && Metric(cur, "conversion_rate") < Metric(prev, "conversion_rate") * 0.7
  }

  function DropAlert(kind: string, severity: string, cur: real, prev: real): Alert
    requires prev > 0.0
  {
    Alert(kind, severity, cur, prev, (prev - cur) / prev * 100.0)
  }

  /** `_generate_performance_alerts`: a high-severity revenue alert for a
      drop of more than 20 %, then a medium conversion-rate alert for a drop
      of more than 30 %. */
  function PerformanceAlerts(cur: Summary, prev: Summary): (r: seq<Alert>)
    ensures |r| == (if RevenueDeclined(cur, prev) then 1 else 0) + (if ConversionDeclined(cur, prev) then 1 else 0)
    ensures RevenueDeclined(cur, prev) ==> r[0].kind == "revenue_decline"
    ensures ConversionDeclined(cur, prev) ==> r[|r| - 1].kind == "conversion_rate_decline"
    ensures forall i :: 0 <= i < |r| ==> r[i].kind in {"revenue_decline", "conversion_rate_decline"}
    ensures forall i :: 0 <= i < |r| ==> r[i].dropPercent > 0.0
    ensures forall i :: 0 <= i < |r| ==> (r[i].severity == "high" <==> r[i].kind == "revenue_decline")
  {
    var revenue := if RevenueDeclined(cur, prev)
      then [DropAlert("revenue_decline", "high", Metric(cur, "total_revenue"), Metric(prev, "total_revenue"))]
      else [];
    var conversion := if ConversionDeclined(cur, prev)
      then [DropAlert("conversion_rate_decline", "medium", Metric(cur, "conversion_rate"), Metric(prev, "conversion_rate"))]
      else [];
    revenue + conversion
  }

  /** A revenue alert reports the same fall as the growth rates, and only a
      fall of more than 20 %. */
  lemma RevenueAlertAgreesWithGrowth(cur: Summary, prev: Summary)
    requires RevenueDeclined(cur, prev)
    ensures GrowthRates(cur, prev)["total_revenue"] < -20.0
    ensures PerformanceAlerts(cur, prev)[0].dropPercent == -GrowthRates(cur, prev)["total_revenue"]
  {
    assert "total_revenue" in GrowthMetrics;
    DropIsNegativeGrowth(Metric(cur, "total_revenue"), Metric(prev, "total_revenue"));
  }

  lemma DropIsNegativeGrowth(c: real, p: real)
    requires p > 0.0 && c < p * 0.8
    ensures (c - p) / p * 100.0 < -20.0
    ensures (p - c) / p * 100.0 == -((c - p) / p * 100.0)
  {
    var q := (c - p) / p;
    assert q * p == c - p;
    assert (p - c) / p * p == p - c;
    assert ((p - c) / p + q) * p == 0.0;
    assert q * p < -0.2 * p;
  }

  // ---------------------------------------------------------------------
  // Revenue distribution
  // ---------------------------------------------------------------------

  /** The cumulative scan of the Pareto loop from position `i`, `acc` being
      the sum so far: the first prefix length whose sum reaches `target`, or
      0 when none does. */
  function ParetoFrom(s: seq<real>, i: nat, acc: real, target: real): (k: nat)
    requires i <= |s| && acc == Sum(s[..i])
    ensures k == 0 || (i < k <= |s| && Sum(s[..k]) >= target)
    ensures forall j :: i < j <= |s| && (k == 0 || j < k) ==> Sum(s[..j]) < target
    decreases |s| - i
  {
    if i == |s| then 0
    else
      SumPrefixStep(s, i);
      if acc + s[i] >= target then i + 1
      else ParetoFrom(s, i + 1, acc + s[i], target)
  }

  /** The shortest non-empty prefix reaching `target`, 0 when none does. */
  function ParetoPoint(s: seq<real>, target: real): (k: nat)
    ensures k <= |s|
    ensures k > 0 ==> Sum(s[..k]) >= target
    ensures forall j :: 0 < j < k ==> Sum(s[..j]) < target
    ensures k == 0 ==> forall j :: 0 < j <= |s| ==> Sum(s[..j]) < target
  {
    ParetoFrom(s, 0, 0.0, target)
  }

  datatype Distribution = Distribution(totalAffiliates: nat, top20PercentCount: nat, paretoPoint: nat,
                                       paretoPercentage: real, revenueConcentration: real)

  /** `_calculate_revenue_distribution`. No revenues, or revenues summing to
      0 (where the concentration divides by zero and the error handler
      answers `{}`), give `None`. */
  function RevenueDistribution(revenues: seq<real>): (r: Option<Distribution>)
    ensures r.None? <==> revenues == [] || Sum(revenues) == 0.0
    ensures r.Some? ==> r.value.totalAffiliates == |revenues|
    ensures r.Some? ==> 1 <= r.value.top20PercentCount <= |revenues|
    ensures r.Some? ==> r.value.paretoPoint <= |revenues| && 0.0 <= r.value.paretoPercentage <= 100.0
  {
    if revenues == [] || Sum(revenues) == 0.0 then None
    else
      var sorted := Descending(revenues);
      var total := Sum(revenues);
      var point := ParetoPoint(sorted, total * 0.8);
      var n := |revenues|;
      Some(Distribution(n, Max(1, n / 5), point, Percentage(point, n), Concentration(Sum(sorted[..point]), total)))
  }

  /** With something earned in total the 80 % point is reached: the Pareto
      prefix is non-empty and holds at least 80 % of the revenue. */
  lemma ParetoReached(revenues: seq<real>)
    requires Sum(revenues) > 0.0
    ensures RevenueDistribution(revenues).Some?
    ensures RevenueDistribution(revenues).value.paretoPoint >= 1
    ensures RevenueDistribution(revenues).value.revenueConcentration >= 80.0
  {
    var sorted := Descending(revenues);
    var total := Sum(revenues);
    var point := ParetoPoint(sorted, total * 0.8);
    SumPermutation(sorted, revenues);
    ParetoOfSorted(sorted, total);
    ConcentrationAtLeast(Sum(sorted[..point]), total);
    DistributionFields(revenues, point, Concentration(Sum(sorted[..point]), total));
  }

  /** The Pareto point and concentration of a distribution of revenues
      with a non-zero total. */
  lemma DistributionFields(revenues: seq<real>, point: nat, share: real)
    requires Sum(revenues) != 0.0
    requires point == ParetoPoint(Descending(revenues), Sum(revenues) * 0.8)
    requires share == Concentration(Sum(Descending(revenues)[..point]), Sum(revenues))
    ensures RevenueDistribution(revenues).Some?
    ensures RevenueDistribution(revenues).value.paretoPoint == point
    ensures RevenueDistribution(revenues).value.revenueConcentration == share
  {
  }

  lemma ParetoOfSorted(sorted: seq<real>, total: real)
    requires Sum(sorted) == total > 0.0
    ensures ParetoPoint(sorted, total * 0.8) >= 1
    ensures Sum(sorted[..ParetoPoint(sorted, total * 0.8)]) >= total * 0.8
  {
    assert sorted[..|sorted|] == sorted;
    assert Sum(sorted[..|sorted|]) >= total * 0.8;
  }

  function Identity(x: real): real {
    x
  }

  /** `sorted(revenues, reverse=True)`: the same figures, largest first. */
  function Descending(revenues: seq<real>): (r: seq<real>)
    ensures multiset(r) == multiset(revenues)
  {
    SortDesc(revenues, Identity)
  }

  /** The share of `total` that `part` is, in percent. */
  function Concentration(part: real, total: real): real
    requires total != 0.0
  {
    part / total * 100.0
  }

  lemma ConcentrationAtLeast(part: real, total: real)
    requires total > 0.0 && part >= total * 0.8
    ensures Concentration(part, total) >= 80.0
  {
    var q := part / total;
    assert q * total == part;
    assert q >= 0.8;
  }

  // ---------------------------------------------------------------------
  // Forecast
  // ---------------------------------------------------------------------

  /** The simulated weekday effect of day `i` ahead. */
  function ForecastFactor(i: int): (f: real)
    ensures 0.9 <= f <= 1.02
  {
    0.9 + (i % 7) as real * 0.02
  }

  /** The last 14 daily figures (all of them when there are fewer). */
  function Recent(daily: seq<real>): (r: seq<real>)
    ensures |r| == Min(14, |daily|)
    ensures r == daily[|daily| - |r|..]
  {
    if |daily| <= 14 then daily else daily[|daily| - 14..]
  }

  /** `days` entries, entry `i` the mean scaled by day `i + 1`'s factor. */
  function Scaled(avg: real, days: nat): (r: seq<real>)
    ensures |r| == days
    ensures forall i :: 0 <= i < days ==> r[i] == avg * ForecastFactor(i + 1)
  {
    seq(days, i => avg * ForecastFactor(i + 1))
  }

  /** `_calculate_linear_forecast` on the daily figures in date order: one
      entry per day ahead (the date keys, drawn from the clock, are left
      out), each the recent mean scaled by the weekday factor. */
  function LinearForecast(daily: seq<real>, daysAhead: int): (r: seq<real>)
    ensures daily == [] ==> r == []
    ensures daily != [] ==> r == Scaled(Mean(Recent(daily)), Max(0, daysAhead))
  {
    if daily == [] then [] else Scaled(Mean(Recent(daily)), Max(0, daysAhead))
  }

  lemma ScaledBounded(avg: real, days: nat, i: nat)
    requires avg >= 0.0 && i < days
    ensures avg * 0.9 <= Scaled(avg, days)[i] <= avg * 1.02
  {
    var f := ForecastFactor(i + 1);
    assert Scaled(avg, days)[i] == avg * f;
    ScaleBounds(avg, f);
  }

  lemma ScaledWeekly(avg: real, days: nat, i: nat)
    requires i + 7 < days
    ensures Scaled(avg, days)[i + 7] == Scaled(avg, days)[i]
  {
    WeekPeriod(i + 1);
  }

  /** On non-negative history every forecast value lies within 90 %-102 %
      of the recent mean. */
  lemma ForecastBounded(daily: seq<real>, daysAhead: int, i: nat)
    requires daily != [] && i < Max(0, daysAhead)
    requires forall k :: 0 <= k < |daily| ==> daily[k] >= 0.0
    ensures Mean(Recent(daily)) * 0.9 <= LinearForecast(daily, daysAhead)[i] <= Mean(Recent(daily)) * 1.02
  {
    RecentMeanNonNegative(daily);
    ScaledBounded(Mean(Recent(daily)), Max(0, daysAhead), i);
  }

  /** The forecast repeats every seven days. */
  lemma ForecastWeekly(daily: seq<real>, daysAhead: int, i: nat)
    requires daily != [] && i + 7 < Max(0, daysAhead)
    ensures LinearForecast(daily, daysAhead)[i + 7] == LinearForecast(daily, daysAhead)[i]
  {
    ScaledWeekly(Mean(Recent(daily)), Max(0, daysAhead), i);
  }

  /** The recent mean of non-negative figures is non-negative. */
  lemma RecentMeanNonNegative(daily: seq<real>)
    requires daily != []
    requires forall k :: 0 <= k < |daily| ==> daily[k] >= 0.0
    ensures Mean(Recent(daily)) >= 0.0
  {
    var recent := Recent(daily);
    assert forall k :: 0 <= k < |recent| ==> recent[k] == daily[|daily| - |recent| + k];
    SumNonNegative(recent);
    DivNonNegative(Sum(recent), |recent| as real);
  }

  lemma DivNonNegative(a: real, b: real)
    requires a >= 0.0 && b > 0.0
    ensures a / b >= 0.0
  {
  }

  lemma WeekPeriod(n: int)
    ensures ForecastFactor(n + 7) == ForecastFactor(n)
  {
    assert (n + 7) % 7 == n % 7;
  }

  lemma ScaleBounds(a: real, f: real)
    requires a >= 0.0 && 0.9 <= f <= 1.02
    ensures a * 0.9 <= a * f <= a * 1.02
  {
    assert a * f - a * 0.9 == a * (f - 0.9);
    assert a * 1.02 - a * f == a * (1.02 - f);
  }

  datatype Interval = Interval(lower: real, upper: real)

  /** The sample variance `statistics.stdev` takes the root of. */
  function SampleVariance(values: seq<real>): real
    requires |values| > 1
  {
    var m := Mean(values);
    Sum(seq(|values|, i requires 0 <= i < |values| => (values[i] - m) * (values[i] - m))) / (|values| - 1) as real
  }

  /** `_calculate_confidence_intervals`: a 95 % band of 1.96 standard
      deviations around each forecast value, the lower end clipped at 0.
      `sqrt` stands for the square root. */
  function ConfidenceIntervals(history: seq<real>, forecast: seq<real>, sqrt: real -> real): (r: seq<Interval>)
    ensures history == [] ==> r == []
    ensures history != [] ==> |r| == |forecast|
    ensures forall i :: 0 <= i < |r| ==> r[i].lower >= 0.0
    ensures forall i :: 0 <= i < |r| ==> r[i].lower >= forecast[i] - (r[i].upper - forecast[i])
    ensures forall i :: 0 <= i < |r| ==> r[i].lower == 0.0 || r[i].lower + r[i].upper == 2.0 * forecast[i]
  {
    if history == [] then []
    else
      var sd := if |history| > 1 then sqrt(SampleVariance(history)) else 0.0;
      seq(|forecast|, i requires 0 <= i < |forecast| =>
        Interval(if forecast[i] - 1.96 * sd > 0.0 then forecast[i] - 1.96 * sd else 0.0, forecast[i] + 1.96 * sd))
  }

  /** With a single day of history there is no spread: every band collapses
      onto its (non-negative) forecast. */
  lemma SingleDayCollapses(day: real, forecast: seq<real>, sqrt: real -> real, i: nat)
    requires i < |forecast| && forecast[i] >= 0.0
    ensures ConfidenceIntervals([day], forecast, sqrt)[i] == Interval(forecast[i], forecast[i])
  {
  }

  // ---------------------------------------------------------------------
  // Trend and best hours
  // ---------------------------------------------------------------------

  /** `_calculate_growth_trend` on the daily figures in date order: the mean
      of the second half against the first, with a ±10 % band. */
  function GrowthTrend(daily: seq<real>): (t: string)
    ensures t in {"insufficient_data", "growing", "declining", "stable"}
    ensures t == "insufficient_data" <==> |daily| < 7
  {
    if |daily| < 7 then "insufficient_data"
    else
      var mid := |daily| / 2;
      var first := Mean(daily[..mid]);
      var second := Mean(daily[mid..]);
      if second > first * 1.1 then "growing"
      else if second < first * 0.9 then "declining"
      else "stable"
  }

  /** A week or more of the same non-negative figure is stable. */
  lemma FlatRevenueIsStable(daily: seq<real>, c: real)
    requires |daily| >= 7 && c >= 0.0
    requires forall i :: 0 <= i < |daily| ==> daily[i] == c
    ensures GrowthTrend(daily) == "stable"
  {
    var mid := |daily| / 2;
    MeanConstant(daily[..mid], c);
    MeanConstant(daily[mid..], c);
  }

  /** `_get_best_conversion_hours`: the hour labels of the (at most) three
      busiest hours, busiest first, ties in the order the hours were seen. */
  function BusiestHours(patterns: seq<(string, int)>): (r: seq<(string, int)>)
    ensures |r| == Min(3, |patterns|)
    ensures SortedDesc(r, (p: (string, int)) => p.1 as real)
    ensures forall i :: 0 <= i < |r| ==> r[i] in patterns
  {
    Ranked(patterns, (p: (string, int)) => p.1 as real, 3)
  }

  function Hours(patterns: seq<(string, int)>): set<string> {
    set p | p in patterns :: p.0
  }

  function BestConversionHours(patterns: seq<(string, int)>): (r: seq<string>)
    ensures |r| == Min(3, |patterns|)
    ensures forall i :: 0 <= i < |r| ==> r[i] in Hours(patterns)
  {
    var top := BusiestHours(patterns);
    var r := seq(|top|, i requires 0 <= i < |top| => top[i].0);
    assert forall i :: 0 <= i < |r| ==> top[i] in patterns;
    r
  }

  /** Every hour left out counted no more than each hour reported. */
  lemma BestHoursAreBusiest(patterns: seq<(string, int)>, i: nat, h: (string, int))
    requires i < |BusiestHours(patterns)|
    requires h in patterns && h !in BusiestHours(patterns) && |patterns| > 3
    ensures h.1 <= BusiestHours(patterns)[i].1
  {
    var key := (p: (string, int)) => p.1 as real;
    var sorted := SortDesc(patterns, key);
    TakeOfSorted(patterns, sorted, key, 3);
    assert BusiestHours(patterns) == sorted[..3];
    assert h in multiset(sorted);
    var j :| 0 <= j < |sorted| && sorted[j] == h;
    assert j >= 3;
  }
}
