/** The helper rules of the enhanced affiliate reports
    (revenue/enhanced_affiliate_reports.py): trend direction by least squares,
    period growth, the performance ladder, quality buckets and the two
    optimisation recommendations. */
module AffiliateReports {
  import opened Wrappers
  import opened Json
  import opened Stats
  import RevenueDashboard

  // ---------------------------------------------------------------------
  // Least-squares trend
  // ---------------------------------------------------------------------

  /** `sum(range(n))` and `sum(i ** 2 for i in range(n))`. */
  function SumX(n: nat): real {
    if n == 0 then 0.0 else SumX(n - 1) + (n - 1) as real
  }

  function SumX2(n: nat): real {
    if n == 0 then 0.0 else SumX2(n - 1) + (n - 1) as real * (n - 1) as real
  }

  /** `sum(x[i] * data[i] for i in range(n))`. */
  function SumXY(data: seq<real>): real
    decreases |data|
  {
    if |data| == 0 then 0.0 else SumXY(data[..|data| - 1]) + (|data| - 1) as real * data[|data| - 1]
  }

  lemma {:induction false} SumXClosed(n: nat)
    ensures SumX(n) * 2.0 == n as real * (n as real - 1.0)
  {
    if n > 0 {
      SumXClosed(n - 1);
    }
  }

  lemma {:induction false} SumX2Closed(n: nat)
    ensures SumX2(n) * 6.0 == (n as real - 1.0) * n as real * (2.0 * n as real - 1.0)
  {
    if n > 0 {
      SumX2Closed(n - 1);
      var m := (n - 1) as real;
      assert SumX2(n) * 6.0 == (m - 1.0) * m * (2.0 * m - 1.0) + 6.0 * m * m;
    }
  }

  /** The least-squares denominator `n·Σx² − (Σx)²`. */
  function Spread(n: nat): real {
    Denominator(n as real, SumX(n), SumX2(n))
  }

  function Denominator(n: real, sx: real, sx2: real): real {
    n * sx2 - sx * sx
  }

  /** The denominator is n²(n²−1)/12, so it is positive from two points on
      and the slope is always defined there. */
  lemma SpreadPositive(n: nat)
    requires n >= 2
    ensures Spread(n) > 0.0
  {
    SumXClosed(n);
    SumX2Closed(n);
    var r := n as real;
    assert Spread(n) * 12.0 == r * r * (r - 1.0) * (r + 1.0);
    assert r * r * (r - 1.0) * (r + 1.0) > 0.0;
  }

  function Slope(data: seq<real>): real
    requires |data| >= 2
  {
    SpreadPositive(|data|);
    LeastSquares(|data| as real, SumXY(data), SumX(|data|), Sum(data), Spread(|data|))
  }

  /** `(n·Σxy − Σx·Σy) / (n·Σx² − (Σx)²)` on the sums. */
  function LeastSquares(n: real, sxy: real, sx: real, total: real, spread: real): real
    requires spread != 0.0
  {
    (n * sxy - sx * total) / spread
  }

  /** `_calculate_trend_direction`: under two points there is no trend;
      otherwise the slope decides, with a dead band of ±0.1. */
  function TrendDirection(data: seq<real>): (t: string)
    ensures t in {"insufficient_data", "increasing", "decreasing", "stable"}
    ensures t == "insufficient_data" <==> |data| < 2
    ensures |data| >= 2 ==> (t == "increasing" <==> Slope(data) > 0.1)
    ensures |data| >= 2 ==> (t == "decreasing" <==> Slope(data) < -0.1)
  {
    if |data| < 2 then "insufficient_data"
    else if Slope(data) > 0.1 then "increasing"
    else if Slope(data) < -0.1 then "decreasing"
    else "stable"
  }

  /** The straight line `a + b·i` sampled at `0 .. n−1`. */
  function Line(a: real, b: real, n: nat): (s: seq<real>)
    ensures |s| == n
  {
    seq(n, i => a + b * i as real)
  }

  lemma {:induction false} LineSum(a: real, b: real, n: nat)
    ensures Sum(Line(a, b, n)) == n as real * a + b * SumX(n)
  {
    if n == 0 {
      assert Line(a, b, 0) == [];
      assert b * SumX(0) == 0.0;
    } else {
      LineSum(a, b, n - 1);
      LineSumNext(a, b, n);
    }
  }

  /** One more point of the line adds `a + b·(n−1)` to its sum. */
  lemma LineSumNext(a: real, b: real, n: nat)
    requires n > 0
    requires Sum(Line(a, b, n - 1)) == (n - 1) as real * a + b * SumX(n - 1)
    ensures Sum(Line(a, b, n)) == n as real * a + b * SumX(n)
  {
    var s := Line(a, b, n);
    var m := (n - 1) as real;
    assert s[..n - 1] == Line(a, b, n - 1);
    assert s == s[..n - 1] + [s[n - 1]];
    SumAppend(s[..n - 1], [s[n - 1]]);
    assert Sum([s[n - 1]]) == a + b * m;
    LineSumStep(a, b, m, n as real, SumX(n - 1), SumX(n), Sum(s[..n - 1]));
  }

  lemma LineSumStep(a: real, b: real, m: real, r: real, sx: real, sxn: real, prev: real)
    requires r == m + 1.0 && sxn == sx + m && prev == m * a + b * sx
    ensures prev + (a + b * m) == r * a + b * sxn
  {
  }

  lemma {:induction false} LineXY(a: real, b: real, n: nat)
    ensures SumXY(Line(a, b, n)) == a * SumX(n) + b * SumX2(n)
  {
    if n == 0 {
      assert Line(a, b, 0) == [];
      assert a * SumX(0) == 0.0 && b * SumX2(0) == 0.0;
    } else {
      LineXY(a, b, n - 1);
      LineXYNext(a, b, n);
    }
  }

  /** One more point of the line adds `(n−1)·(a + b·(n−1))` to Σxy. */
  lemma LineXYNext(a: real, b: real, n: nat)
    requires n > 0
    requires SumXY(Line(a, b, n - 1)) == a * SumX(n - 1) + b * SumX2(n - 1)
    ensures SumXY(Line(a, b, n)) == a * SumX(n) + b * SumX2(n)
  {
    var s := Line(a, b, n);
    var m := (n - 1) as real;
    assert s[..n - 1] == Line(a, b, n - 1);
    assert s[n - 1] == a + b * m;
    LineXYStep(a, b, m, SumX(n - 1), SumX(n), SumX2(n - 1), SumX2(n), SumXY(s[..n - 1]));
  }

  lemma LineXYStep(a: real, b: real, m: real, sx: real, sxn: real, sx2: real, sx2n: real, prev: real)
    requires sxn == sx + m && sx2n == sx2 + m * m && prev == a * sx + b * sx2
    ensures prev + m * (a + b * m) == a * sxn + b * sx2n
  {
  }

  /** The slope recovers the gradient of a straight line exactly, so a line
      rising by more than 0.1 a day is increasing and a level line is
      stable. */
  lemma LineSlope(a: real, b: real, n: nat)
    requires n >= 2
    ensures Slope(Line(a, b, n)) == b
    ensures TrendDirection(Line(a, b, n)) == (if b > 0.1 then "increasing" else if b < -0.1 then "decreasing" else "stable")
  {
    SumOfLine(a, b, n);
    MomentOfLine(a, b, n);
    SpreadPositive(n);
    SlopeOfSums(n as real, a, b, SumX(n), SumX2(n));
  }

  /** `n·a + b·Σx` and `a·Σx + b·Σx²`: the two sums of the line `a + b·i`. */
  function LineTotal(n: real, a: real, b: real, sx: real): real {
    n * a + b * sx
  }

  function LineMoment(a: real, b: real, sx: real, sx2: real): real {
    a * sx + b * sx2
  }

  lemma SumOfLine(a: real, b: real, n: nat)
    ensures Sum(Line(a, b, n)) == LineTotal(n as real, a, b, SumX(n))
  {
    LineSum(a, b, n);
  }

  lemma MomentOfLine(a: real, b: real, n: nat)
    ensures SumXY(Line(a, b, n)) == LineMoment(a, b, SumX(n), SumX2(n))
  {
    LineXY(a, b, n);
  }

  /** On the sums of a line the least-squares formula gives its gradient. */
  lemma SlopeOfSums(n: real, a: real, b: real, sx: real, sx2: real)
    requires Denominator(n, sx, sx2) > 0.0
    ensures LeastSquares(n, LineMoment(a, b, sx, sx2), sx, LineTotal(n, a, b, sx), Denominator(n, sx, sx2)) == b
  {
    assert n * (a * sx + b * sx2) - sx * (n * a + b * sx) == b * (n * sx2 - sx * sx);
  }

  // ---------------------------------------------------------------------
  // Growth and status
  // ---------------------------------------------------------------------

  /** `_calculate_growth_rate`: first to last in percent, 0 under two points
      or when the first value is not positive. */
  function GrowthRate(data: seq<real>): (g: real)
    ensures |data| < 2 || data[0] <= 0.0 ==> g == 0.0
    ensures |data| >= 2 && data[0] > 0.0 ==> (g > 0.0 <==> data[|data| - 1] > data[0])
  {
    if |data| < 2 then 0.0
    else if data[0] > 0.0 then (data[|data| - 1] - data[0]) / data[0] * 100.0
    else 0.0
  }

  /** Over a positive start it is the dashboard's period growth from the
      first value to the last. */
  lemma GrowthRateAgreesWithDashboard(data: seq<real>)
    requires |data| >= 2 && data[0] > 0.0
    ensures GrowthRate(data) == RevenueDashboard.GrowthRate(data[|data| - 1], data[0])
  {
  }

  function StatusRank(s: string): nat {
    if s == "excellent" then 3 else if s == "good" then 2 else if s == "average" then 1 else 0
  }

  /** `_determine_performance_status`: both the rate and the revenue must
      clear a rung's bar. */
  function PerformanceStatus(conversionRate: real, revenue: real): (s: string)
    ensures s in {"excellent", "good", "average", "needs_improvement"}
    ensures s == "excellent" <==> conversionRate > 3.0 && revenue > 1000.0
    ensures s == "needs_improvement" <==> !(conversionRate > 1.0 && revenue > 100.0)
  {
    if conversionRate > 3.0 && revenue > 1000.0 then "excellent"
    else if conversionRate > 2.0 && revenue > 500.0 then "good"
    else if conversionRate > 1.0 && revenue > 100.0 then "average"
    else "needs_improvement"
  }

  /** Doing better on both counts never lowers the status. */
  lemma StatusMonotone(rate: real, revenue: real, rate2: real, revenue2: real)
    requires rate <= rate2 && revenue <= revenue2
    ensures StatusRank(PerformanceStatus(rate, revenue)) <= StatusRank(PerformanceStatus(rate2, revenue2))
  {
  }

  // ---------------------------------------------------------------------
  // Quality buckets
  // ---------------------------------------------------------------------

  datatype Buckets = Buckets(high: nat, medium: nat, low: nat)

  function Bucket(score: real): string {
    if score > 0.7 then "high" else if score > 0.4 then "medium" else "low"
  }

  function Tally(scores: seq<real>): (b: Buckets)
    ensures b.high + b.medium + b.low == |scores|
    decreases |scores|
  {
    if |scores| == 0 then Buckets(0, 0, 0)
    else
      var rest := Tally(scores[1..]);
      var k := Bucket(scores[0]);
      if k == "high" then rest.(high := rest.high + 1)
      else if k == "medium" then rest.(medium := rest.medium + 1)
      else rest.(low := rest.low + 1)
  }

  /** `_calculate_quality_distribution`: nothing for no scores, otherwise
      the three counts, which account for every score. */
  function QualityDistribution(scores: seq<real>): (r: Option<Buckets>)
    ensures r.None? <==> scores == []
    ensures r.Some? ==> r.value.high + r.value.medium + r.value.low == |scores|
  {
    if scores == [] then None else Some(Tally(scores))
  }

  /** Every score above 0.7 lands in the high bucket. */
  lemma {:induction false} AllHigh(scores: seq<real>)
    requires forall i :: 0 <= i < |scores| ==> scores[i] > 0.7
    ensures Tally(scores) == Buckets(|scores|, 0, 0)
    decreases |scores|
  {
    if |scores| > 0 {
      AllHigh(scores[1..]);
    }
  }

  // ---------------------------------------------------------------------
  // Recommendations
  // ---------------------------------------------------------------------

  datatype Recommendation = Recommendation(category: string, priority: string, effort: string)

  /** A click's quality score from its decoded metadata: 0.5 when absent,
      `None` when `.get` or `statistics.mean` would raise. */
  function ClickQuality(metadata: Value): Option<real> {
    match metadata
    case Obj(fields) =>
      (match Get(fields, "click_quality_score")
       case None => Some(0.5)
       case Some(Num(n)) => Some(n)
       case Some(Bool(b)) => Some(if b then 1.0 else 0.0)
       case Some(_) => None)
    case _ => None
  }

  function Qualities(clicks: seq<Value>): (r: Option<seq<real>>)
    ensures r.Some? ==> |r.value| == |clicks|
    ensures r.None? <==> exists i :: 0 <= i < |clicks| && ClickQuality(clicks[i]).None?
    decreases |clicks|
  {
    if |clicks| == 0 then Some([])
    else
      match (ClickQuality(clicks[0]), Qualities(clicks[1..]))
      case (Some(q), Some(rest)) => Some([q] + rest)
      case (None, _) => None
      case (_, None) =>
        var i :| 0 <= i < |clicks[1..]| && ClickQuality(clicks[1..][i]).None?;
        assert ClickQuality(clicks[i + 1]).None?;
        None
  }

  function ConversionRate(clicks: nat, conversions: nat): real {
    if clicks > 0 then (conversions as real) / (clicks as real) * 100.0 else 0.0
  }

  function AverageQuality(qs: seq<real>): real {
    if |qs| > 0 then Mean(qs) else 0.0
  }

  /** `_generate_optimization_recommendations`: a high-priority
      conversion-rate item when the rate is under 2 %, then a medium
      click-quality item when the mean quality is under 0.6; an unreadable
      click makes the whole answer empty. */
  function Recommendations(clicks: seq<Value>, conversions: nat): (r: seq<Recommendation>)
    ensures Qualities(clicks).None? ==> r == []
    ensures Qualities(clicks).Some? ==>
              |r| == (if ConversionRate(|clicks|, conversions) < 2.0 then 1 else 0)
                     + (if AverageQuality(Qualities(clicks).value) < 0.6 then 1 else 0)
    ensures forall i :: 0 <= i < |r| ==> (r[i].priority == "high" <==> r[i].category == "conversion_rate")
    ensures Qualities(clicks).Some? && ConversionRate(|clicks|, conversions) < 2.0 ==> r[0].category == "conversion_rate"
    ensures Qualities(clicks).Some? && AverageQuality(Qualities(clicks).value) < 0.6 ==> r[|r| - 1].category == "click_quality"
  {
    match Qualities(clicks)
    case None => []
    case Some(qs) =>
      var rate := if ConversionRate(|clicks|, conversions) < 2.0
        then [Recommendation("conversion_rate", "high", "medium")] else [];
      var quality := if AverageQuality(qs) < 0.6
        then [Recommendation("click_quality", "medium", "low")] else [];
      rate + quality
  }

  /** With no clicks both recommendations are made: the rate and the mean
      quality both read as 0. */
  lemma NoClicksRecommendsBoth(conversions: nat)
    ensures |Recommendations([], conversions)| == 2
  {
  }
}
