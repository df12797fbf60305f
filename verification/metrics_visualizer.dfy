/** The metrics visualiser's numeric core (monitoring/metrics_visualizer.py):
    histogram binning, percentiles, correlation, anomaly detection, bucketed
    aggregation, aligned time series and the CSV export. */
module MetricsVisualizer {
  import opened Wrappers
  import opened Text
  import opened Stats
  import Collections
  import Monitoring
  import RevenueDashboard

  // ---------------------------------------------------------------------
  // Extremes and the mean
  // ---------------------------------------------------------------------

  function MinOf(s: seq<real>): (m: real)
    requires |s| > 0
    ensures m in s && forall i :: 0 <= i < |s| ==> m <= s[i]
    decreases |s|
  {
    if |s| == 1 then s[0]
    else
      var rest := MinOf(s[1..]);
      assert forall i :: 1 <= i < |s| ==> s[i] == s[1..][i - 1];
      if s[0] <= rest then s[0] else rest
  }

  function MaxOf(s: seq<real>): (m: real)
    requires |s| > 0
    ensures m in s && forall i :: 0 <= i < |s| ==> s[i] <= m
    decreases |s|
  {
    if |s| == 1 then s[0]
    else
      var rest := MaxOf(s[1..]);
      assert forall i :: 1 <= i < |s| ==> s[i] == s[1..][i - 1];
      if s[0] >= rest then s[0] else rest
  }

  lemma {:induction false} SumBetween(s: seq<real>, lo: real, hi: real)
    requires forall i :: 0 <= i < |s| ==> lo <= s[i] <= hi
    ensures |s| as real * lo <= Sum(s) <= |s| as real * hi
    decreases |s|
  {
    if |s| > 0 {
      SumBetween(s[1..], lo, hi);
    }
  }

  /** The mean of values within bounds stays within them. */
  lemma {:induction false} MeanBetween(s: seq<real>, lo: real, hi: real)
    requires |s| > 0
    requires forall i :: 0 <= i < |s| ==> lo <= s[i] <= hi
    ensures lo <= Mean(s) <= hi
  {
    SumBetween(s, lo, hi);
    DivBetween(Sum(s), |s| as real, lo, hi);
  }

  lemma DivBetween(total: real, n: real, lo: real, hi: real)
    requires n > 0.0 && n * lo <= total <= n * hi
    ensures lo <= total / n <= hi
  {
    assert (n * lo) / n == lo && (n * hi) / n == hi;
  }

  // ---------------------------------------------------------------------
  // Histogram
  // ---------------------------------------------------------------------

  datatype Histogram = Histogram(edges: seq<real>, counts: seq<nat>)

  function NatSum(s: seq<nat>): nat
    decreases |s|
  {
    if |s| == 0 then 0 else s[0] + NatSum(s[1..])
  }

  lemma {:induction false} NatSumUpdate(s: seq<nat>, k: nat)
    requires k < |s|
    ensures NatSum(s[k := s[k] + 1]) == NatSum(s) + 1
    decreases |s|
  {
    if k > 0 {
      assert s[k := s[k] + 1][1..] == s[1..][k - 1 := s[1..][k - 1] + 1];
      NatSumUpdate(s[1..], k - 1);
    }
  }

  lemma {:induction false} NatSumZeros(n: nat)
    ensures NatSum(seq(n, _ => 0)) == 0
    decreases n
  {
    if n > 0 {
      assert seq(n, _ => 0)[1..] == seq(n - 1, _ => 0);
      NatSumZeros(n - 1);
    }
  }

  /** The floor of a non-negative quotient, scaled back, brackets the
      dividend. */
  lemma FloorScale(d: real, width: real)
    requires width > 0.0
    ensures (d / width).Floor as real * width <= d
    ensures d < ((d / width).Floor + 1) as real * width
  {
    var q := d / width;
    var f := q.Floor as real;
    assert f <= q;
    assert q < f + 1.0;
    assert q * width == d;
    MulMono(f, q, width);
    MulStrict(q, f + 1.0, width);
    assert q * width < (f + 1.0) * width;
    assert d < (f + 1.0) * width;
    assert ((d / width).Floor + 1) as real == f + 1.0;
  }

  lemma MulMono(a: real, b: real, c: real)
    requires a <= b && c > 0.0
    ensures a * c <= b * c
  {
    assert b * c - a * c == (b - a) * c;
  }

  lemma MulStrict(a: real, b: real, c: real)
    requires a < b && c > 0.0
    ensures a * c < b * c
  {
    assert b * c - a * c == (b - a) * c;
  }

  /** `min(int((value - min_val) / bin_width), bins - 1)`: a value in range
      lands in a bin whose left edge it does not precede, and below the next
      edge unless it is the last bin. */
  function BinIndex(v: real, lo: real, width: real, bins: int): (k: int)
    requires width > 0.0 && bins > 0 && v >= lo
    ensures 0 <= k < bins
    ensures lo + k as real * width <= v
    ensures k < bins - 1 ==> v < lo + (k + 1) as real * width
  {
    FloorScale(v - lo, width);
    var f := ((v - lo) / width).Floor;
    assert f >= 0;
    if f <= bins - 1 then f
    else
      assert (bins - 1) as real * width <= f as real * width;
      bins - 1
  }

  /** How many of `values` fall into bin `k`. */
  function CountAt(values: seq<real>, lo: real, width: real, bins: int, k: int): (n: nat)
    requires width > 0.0 && bins > 0
    requires forall i :: 0 <= i < |values| ==> values[i] >= lo
    ensures n <= |values|
    decreases |values|
  {
    if |values| == 0 then 0
    else
      var init := values[..|values| - 1];
      assert forall i :: 0 <= i < |init| ==> init[i] == values[i];
      CountAt(init, lo, width, bins, k) + (if BinIndex(values[|values| - 1], lo, width, bins) == k then 1 else 0)
  }

  /** The loop filling `bin_counts`. */
  function Tally(values: seq<real>, lo: real, width: real, bins: int): (c: seq<nat>)
    requires width > 0.0 && bins > 0
    requires forall i :: 0 <= i < |values| ==> values[i] >= lo
    ensures |c| == bins
    ensures forall k :: 0 <= k < bins ==> c[k] == CountAt(values, lo, width, bins, k)
    decreases |values|
  {
    if |values| == 0 then seq(bins, _ => 0)
    else
      var init := values[..|values| - 1];
      assert forall i :: 0 <= i < |init| ==> init[i] == values[i];
      var c := Tally(init, lo, width, bins);
      var k := BinIndex(values[|values| - 1], lo, width, bins);
      c[k := c[k] + 1]
  }

  /** Every value is counted exactly once. */
  lemma {:induction false} TallyTotal(values: seq<real>, lo: real, width: real, bins: int)
    requires width > 0.0 && bins > 0
    requires forall i :: 0 <= i < |values| ==> values[i] >= lo
    ensures NatSum(Tally(values, lo, width, bins)) == |values|
    decreases |values|
  {
    if |values| == 0 {
      NatSumZeros(bins);
    } else {
      var init := values[..|values| - 1];
      assert forall i :: 0 <= i < |init| ==> init[i] == values[i];
      TallyTotal(init, lo, width, bins);
      NatSumUpdate(Tally(init, lo, width, bins), BinIndex(values[|values| - 1], lo, width, bins));
    }
  }

  /** `get_metric_histogram` on the sampled values: nothing for no samples,
      one bin holding everything when all values are equal, otherwise
      `bins` equal-width bins; a non-positive bin count fails. */
  function MakeHistogram(values: seq<real>, bins: int): (r: Option<Histogram>)
    ensures values == [] ==> r == Some(Histogram([], []))
    ensures r.None? <==> values != [] && MinOf(values) != MaxOf(values) && bins <= 0
    ensures values != [] && MinOf(values) == MaxOf(values) ==> r == Some(Histogram([MinOf(values)], [|values|]))
    ensures r.Some? ==> |r.value.edges| == |r.value.counts| && NatSum(r.value.counts) == |values|
    ensures r.Some? && values != [] ==> forall i :: 0 <= i < |r.value.edges| ==> r.value.edges[i] >= MinOf(values)
  {
    if values == [] then Some(Histogram([], []))
    else
      var lo := MinOf(values);
      var hi := MaxOf(values);
      if lo == hi then
        assert NatSum([|values|]) == |values|;
        Some(Histogram([lo], [|values|]))
      else if bins <= 0 then None
      else
        MinAtMostMax(values);
        var width := (hi - lo) / bins as real;
        WidthPositive(hi - lo, bins as real);
        TallyTotal(values, lo, width, bins);
        EdgesFrom(lo, width, bins);
        Some(Histogram(Edges(lo, width, bins), Tally(values, lo, width, bins)))
  }

  /** The left edges of `bins` bins of `width` starting at `lo`. */
  function Edges(lo: real, width: real, bins: nat): (e: seq<real>)
    ensures |e| == bins
  {
    seq(bins, i requires 0 <= i < bins => lo + i as real * width)
  }

  lemma EdgesFrom(lo: real, width: real, bins: nat)
    requires width > 0.0
    ensures forall i :: 0 <= i < bins ==> Edges(lo, width, bins)[i] >= lo
  {
    forall i | 0 <= i < bins
      ensures Edges(lo, width, bins)[i] >= lo
    {
      NonNegProduct(i as real, width);
    }
  }

  lemma MinAtMostMax(values: seq<real>)
    requires |values| > 0
    ensures MinOf(values) <= MaxOf(values)
  {
    var i :| 0 <= i < |values| && values[i] == MaxOf(values);
  }

  lemma WidthPositive(span: real, bins: real)
    requires span > 0.0 && bins > 0.0
    ensures span / bins > 0.0
  {
  }

  // ---------------------------------------------------------------------
  // Percentile
  // ---------------------------------------------------------------------

  /** The rank `p / 100 * (n - 1)` and its integer part. */
  function Rank(p: nat, n: nat): real {
    Scale(p as real / 100.0, (n - 1) as real)
  }

  function Scale(f: real, m: real): real {
    f * m
  }

  lemma RankBounds(p: nat, n: nat)
    requires n > 0
    ensures Rank(p, n) >= 0.0 && Rank(p, n).Floor >= 0
    ensures p <= 100 ==> Rank(p, n) <= (n - 1) as real
    ensures p > 100 && n > 1 ==> Rank(p, n) > (n - 1) as real
    ensures p == 0 ==> Rank(p, n) == 0.0
    ensures p == 100 ==> Rank(p, n) == (n - 1) as real
  {
    ScaleBounds(p as real / 100.0, (n - 1) as real);
  }

  /** How scaling a non-negative `m` by a non-negative factor `f` compares
      with `m`. */
  lemma ScaleBounds(f: real, m: real)
    requires f >= 0.0 && m >= 0.0
    ensures Scale(f, m) >= 0.0
    ensures f <= 1.0 ==> Scale(f, m) <= m
    ensures f > 1.0 && m > 0.0 ==> Scale(f, m) > m
    ensures f == 0.0 ==> Scale(f, m) == 0.0
    ensures f == 1.0 ==> Scale(f, m) == m
  {
    if f <= 1.0 {
      MulMono(f, 1.0, m + 1.0);
      if m > 0.0 { MulMono(f, 1.0, m); }
    } else if m > 0.0 {
      MulStrict(1.0, f, m);
    }
  }

  /** The value at a rank of an ascending sequence: exact at an integer
      rank, interpolated between neighbours otherwise, and `None` past the
      end. */
  function AtRank(s: seq<real>, index: real): (r: Option<real>)
    requires index >= 0.0
    ensures r.Some? ==> index.Floor < |s|
    ensures index <= (|s| - 1) as real ==> r.Some?
    ensures index > (|s| - 1) as real ==> r.None?
  {
    var lower := index.Floor;
    if index == lower as real then
      if lower < |s| then Some(s[lower]) else None
    else if lower + 1 < |s| then
      var w := index - lower as real;
      Some(s[lower] * (1.0 - w) + s[lower + 1] * w)
    else None
  }

  lemma {:induction false} AtRankBetween(values: seq<real>, s: seq<real>, index: real, lo: real, hi: real)
    requires |s| > 0 && multiset(s) == multiset(values) && index >= 0.0
    requires forall i :: 0 <= i < |values| ==> lo <= values[i] <= hi
    requires AtRank(s, index).Some?
    ensures lo <= AtRank(s, index).value <= hi
  {
    var lower := index.Floor;
    Monitoring.SortedMember(values, s, lower);
    assert lo <= s[lower] <= hi;
    if index != lower as real {
      Monitoring.SortedMember(values, s, lower + 1);
      assert lo <= s[lower + 1] <= hi;
      var w := index - lower as real;
      assert 0.0 < w < 1.0;
      Convex(s[lower], s[lower + 1], w, lo, hi);
    }
  }

  lemma Convex(a: real, b: real, w: real, lo: real, hi: real)
    requires lo <= a <= hi && lo <= b <= hi && 0.0 <= w <= 1.0
    ensures lo <= a * (1.0 - w) + b * w <= hi
  {
    var x := a * (1.0 - w) + b * w;
    assert x - lo == (a - lo) * (1.0 - w) + (b - lo) * w;
    assert hi - x == (hi - a) * (1.0 - w) + (hi - b) * w;
    NonNegProduct(a - lo, 1.0 - w);
    NonNegProduct(b - lo, w);
    NonNegProduct(hi - a, 1.0 - w);
    NonNegProduct(hi - b, w);
  }

  lemma NonNegProduct(x: real, y: real)
    requires x >= 0.0 && y >= 0.0
    ensures x * y >= 0.0
  {
  }

  /** `_percentile`: 0.0 for no values; otherwise linear interpolation at
      rank `p / 100 * (n - 1)` of the ascending values, which fails once the
      rank passes the last index. */
  function Percentile(values: seq<real>, p: nat): (r: Option<real>)
    ensures values == [] ==> r == Some(0.0)
    ensures r.None? <==> |values| > 1 && p > 100
    ensures values != [] && r.Some? ==> MinOf(values) <= r.value <= MaxOf(values)
  {
    if values == [] then Some(0.0)
    else
      var s := Monitoring.Ascending(values);
      RankBounds(p, |s|);
      var r := AtRank(s, Rank(p, |s|));
      if r.Some? then AtRankBetween(values, s, Rank(p, |s|), MinOf(values), MaxOf(values)); r else r
  }

  lemma AscendingEnds(values: seq<real>)
    requires values != []
    ensures Monitoring.Ascending(values)[0] == MinOf(values)
    ensures Monitoring.Ascending(values)[|values| - 1] == MaxOf(values)
  {
    var s := Monitoring.Ascending(values);
    SortedFirst(values, s);
    SortedLast(values, s);
  }

  /** The first of an ascending permutation is the smallest value. */
  lemma SortedFirst(values: seq<real>, s: seq<real>)
    requires |values| > 0 && |s| == |values| && multiset(s) == multiset(values)
    requires forall i, j :: 0 <= i < j < |s| ==> s[i] <= s[j]
    ensures s[0] == MinOf(values)
  {
    var lo := MinOf(values);
    Monitoring.SortedMember(values, s, 0);
    var i :| 0 <= i < |values| && values[i] == s[0];
    assert lo <= s[0];
    assert lo in multiset(s);
    var a :| 0 <= a < |s| && s[a] == lo;
    assert s[0] <= s[a];
  }

  /** The last of an ascending permutation is the largest value. */
  lemma SortedLast(values: seq<real>, s: seq<real>)
    requires |values| > 0 && |s| == |values| && multiset(s) == multiset(values)
    requires forall i, j :: 0 <= i < j < |s| ==> s[i] <= s[j]
    ensures s[|s| - 1] == MaxOf(values)
  {
    var hi := MaxOf(values);
    Monitoring.SortedMember(values, s, |s| - 1);
    var i :| 0 <= i < |values| && values[i] == s[|s| - 1];
    assert s[|s| - 1] <= hi;
    assert hi in multiset(s);
    var b :| 0 <= b < |s| && s[b] == hi;
    assert s[b] <= s[|s| - 1];
  }

  /** The 0th percentile is the smallest value and the 100th the largest. */
  lemma {:induction false} PercentileEnds(values: seq<real>)
    requires values != []
    ensures Percentile(values, 0) == Some(MinOf(values))
    ensures Percentile(values, 100) == Some(MaxOf(values))
  {
    var s := Monitoring.Ascending(values);
    RankBounds(0, |s|);
    RankBounds(100, |s|);
    AscendingEnds(values);
    assert AtRank(s, Rank(0, |s|)) == Some(s[0]);
    assert (Rank(100, |s|)).Floor == |s| - 1;
    assert AtRank(s, Rank(100, |s|)) == Some(s[|s| - 1]);
  }

  // ---------------------------------------------------------------------
  // Correlation
  // ---------------------------------------------------------------------

  function SumProd(x: seq<real>, y: seq<real>): real
    requires |x| == |y|
    decreases |x|
  {
    if |x| == 0 then 0.0 else x[0] * y[0] + SumProd(x[1..], y[1..])
  }

  lemma {:induction false} SumProdSymmetric(x: seq<real>, y: seq<real>)
    requires |x| == |y|
    ensures SumProd(x, y) == SumProd(y, x)
    decreases |x|
  {
    if |x| > 0 {
      SumProdSymmetric(x[1..], y[1..]);
    }
  }

  lemma {:induction false} SumProdConstant(x: seq<real>, y: seq<real>, c: real)
    requires |x| == |y|
    requires forall i :: 0 <= i < |x| ==> x[i] == c
    ensures SumProd(x, y) == c * Sum(y)
    decreases |x|
  {
    if |x| > 0 {
      SumProdConstant(x[1..], y[1..], c);
    }
  }

  /** The two spreads whose product's square root is the denominator. */
  function Spread(x: seq<real>): real {
    var n := |x| as real;
    n * SumProd(x, x) - Sum(x) * Sum(x)
  }

  /** The numerator `n * sum_xy - sum_x * sum_y`. */
  function CoMoment(x: seq<real>, y: seq<real>): real
    requires |x| == |y|
  {
    |x| as real * SumProd(x, y) - Sum(x) * Sum(y)
  }

  lemma CoMomentSymmetric(x: seq<real>, y: seq<real>)
    requires |x| == |y|
    ensures CoMoment(x, y) == CoMoment(y, x)
  {
    SumProdSymmetric(x, y);
    var sx, sy := Sum(x), Sum(y);
    assert sx * sy == sy * sx;
  }

  /** `_calculate_correlation`, with `sqrt` standing for `** 0.5`: 0.0 for
      unequal lengths, fewer than two points, or a zero denominator. */
  function Correlation(x: seq<real>, y: seq<real>, sqrt: real -> real): (r: real)
    ensures |x| != |y| || |x| < 2 ==> r == 0.0
    ensures |x| == |y| && sqrt(Spread(x) * Spread(y)) == 0.0 ==> r == 0.0
  {
    if |x| != |y| || |x| < 2 then 0.0
    else
      var denominator := sqrt(Spread(x) * Spread(y));
      if denominator == 0.0 then 0.0 else CoMoment(x, y) / denominator
  }

  /** Correlation does not depend on the order of its arguments. */
  lemma CorrelationSymmetric(x: seq<real>, y: seq<real>, sqrt: real -> real)
    ensures Correlation(x, y, sqrt) == Correlation(y, x, sqrt)
  {
    if |x| == |y| && |x| >= 2 {
      CoMomentSymmetric(x, y);
      var a, b := Spread(x), Spread(y);
      assert a * b == b * a;
    }
  }

  /** A series that never moves correlates with nothing. */
  lemma ConstantUncorrelated(x: seq<real>, y: seq<real>, c: real, sqrt: real -> real)
    requires |x| == |y| && sqrt(0.0) == 0.0
    requires forall i :: 0 <= i < |x| ==> x[i] == c
    ensures Correlation(x, y, sqrt) == 0.0
  {
    SumConstant(x, c);
    SumProdConstant(x, x, c);
    var n := |x| as real;
    assert Spread(x) == n * (c * (n * c)) - (n * c) * (n * c);
    assert Spread(x) == 0.0;
    assert Spread(x) * Spread(y) == 0.0;
  }

  /** `get_correlation_matrix` over the non-empty series: fewer than two
      give nothing; otherwise every series is cut to the shortest length and
      the matrix holds 1.0 on the diagonal and pairwise correlations
      elsewhere. */
  function CorrelationMatrix(series: seq<seq<real>>, sqrt: real -> real): (r: Option<seq<seq<real>>>)
    ensures r.None? <==> |series| < 2
    ensures r.Some? ==> |r.value| == |series| && forall i :: 0 <= i < |r.value| ==> |r.value[i]| == |series|
    ensures r.Some? ==> forall i :: 0 <= i < |series| ==> r.value[i][i] == 1.0
  {
    if |series| < 2 then None
    else
      var n := Shortest(series);
      var cut := seq(|series|, i requires 0 <= i < |series| => series[i][..n]);
      Some(seq(|series|, i requires 0 <= i < |series| =>
        seq(|series|, j requires 0 <= j < |series| => if i == j then 1.0 else Correlation(cut[i], cut[j], sqrt))))
  }

  function Shortest(series: seq<seq<real>>): (n: nat)
    requires |series| > 0
    ensures forall i :: 0 <= i < |series| ==> n <= |series[i]|
    ensures exists i :: 0 <= i < |series| && n == |series[i]|
    decreases |series|
  {
    if |series| == 1 then |series[0]|
    else
      var rest := Shortest(series[1..]);
      assert forall i :: 1 <= i < |series| ==> series[i] == series[1..][i - 1];
      if |series[0]| <= rest then |series[0]| else rest
  }

  /** The matrix is symmetric. */
  lemma MatrixSymmetric(series: seq<seq<real>>, sqrt: real -> real, i: nat, j: nat)
    requires |series| >= 2 && i < |series| && j < |series|
    ensures CorrelationMatrix(series, sqrt).value[i][j] == CorrelationMatrix(series, sqrt).value[j][i]
  {
    var n := Shortest(series);
    CorrelationSymmetric(series[i][..n], series[j][..n], sqrt);
  }

  // ---------------------------------------------------------------------
  // Anomaly detection
  // ---------------------------------------------------------------------

  datatype Anomaly = Anomaly(index: nat, value: real, expected: real, zScore: real)

  datatype AnomalyReport = AnomalyReport(anomalies: seq<Anomaly>, threshold: real)

  function Abs(x: real): real {
    if x < 0.0 then -x else x
  }

  /** `statistics.stdev` with `sqrt` for the square root; a single value has
      no spread. */
  function StdDev(values: seq<real>, sqrt: real -> real): real
    requires |values| > 0
  {
    if |values| > 1 then sqrt(RevenueDashboard.SampleVariance(values)) else 0.0
  }

  /** How far `v` lies from the window's mean, in standard deviations; 0
      when the window does not vary. */
  function ZScore(window: seq<real>, v: real, sqrt: real -> real): real
    requires |window| > 0
  {
    var sd := StdDev(window, sqrt);
    if sd > 0.0 then Abs(v - Mean(window)) / sd else 0.0
  }

  /** The moving-window scan from position `i` on. */
  function Scan(values: seq<real>, w: nat, i: nat, sensitivity: real, sqrt: real -> real): (r: seq<Anomaly>)
    requires 0 < w <= i <= |values|
    ensures forall k :: 0 <= k < |r| ==> i <= r[k].index < |values| && r[k].value == values[r[k].index]
    ensures forall k :: 0 <= k < |r| ==> r[k].zScore > sensitivity
    ensures forall k, l :: 0 <= k < l < |r| ==> r[k].index < r[l].index
    decreases |values| - i
  {
    if i == |values| then []
    else
      var window := values[i - w..i];
      var z := ZScore(window, values[i], sqrt);
      var rest := Scan(values, w, i + 1, sensitivity, sqrt);
      if z > sensitivity then [Anomaly(i, values[i], Mean(window), z)] + rest else rest
  }

  /** The scan misses nothing: every position from `i` on whose z-score
      exceeds the sensitivity is reported. */
  lemma ScanComplete(values: seq<real>, w: nat, i: nat, sensitivity: real, sqrt: real -> real, j: nat)
    requires 0 < w <= i <= j < |values|
    requires ZScore(values[j - w..j], values[j], sqrt) > sensitivity
    ensures exists k :: 0 <= k < |Scan(values, w, i, sensitivity, sqrt)| && Scan(values, w, i, sensitivity, sqrt)[k].index == j
  {
    var k := ScanFind(values, w, i, sensitivity, sqrt, j);
  }

  /** The position in the scan's result where `j` is reported. */
  lemma {:induction false} ScanFind(values: seq<real>, w: nat, i: nat, sensitivity: real, sqrt: real -> real, j: nat)
      returns (k: nat)
    requires 0 < w <= i <= j < |values|
    requires ZScore(values[j - w..j], values[j], sqrt) > sensitivity
    ensures k < |Scan(values, w, i, sensitivity, sqrt)| && Scan(values, w, i, sensitivity, sqrt)[k].index == j
    decreases |values| - i
  {
    if j == i {
      ScanHead(values, w, i, sensitivity, sqrt);
      k := 0;
    } else {
      var k' := ScanFind(values, w, i + 1, sensitivity, sqrt, j);
      var r := Scan(values, w, i, sensitivity, sqrt);
      var rest := Scan(values, w, i + 1, sensitivity, sqrt);
      ScanShape(values, w, i, sensitivity, sqrt);
      if r == rest {
        k := k';
      } else {
        k := k' + 1;
        assert r[1..][k'] == r[k];
      }
    }
  }

  /** A position whose z-score exceeds the sensitivity heads the scan from it. */
  lemma ScanHead(values: seq<real>, w: nat, i: nat, sensitivity: real, sqrt: real -> real)
    requires 0 < w <= i < |values|
    requires ZScore(values[i - w..i], values[i], sqrt) > sensitivity
    ensures |Scan(values, w, i, sensitivity, sqrt)| > 0 && Scan(values, w, i, sensitivity, sqrt)[0].index == i
  {
  }

  /** One step of the scan either reports position `i` ahead of the rest or
      reports just the rest. */
  lemma ScanShape(values: seq<real>, w: nat, i: nat, sensitivity: real, sqrt: real -> real)
    requires 0 < w <= i < |values|
    ensures var r := Scan(values, w, i, sensitivity, sqrt);
            var rest := Scan(values, w, i + 1, sensitivity, sqrt);
            r == rest || (|r| == |rest| + 1 && r[1..] == rest)
  {
  }

  /** `get_anomaly_detection` on the values in time order: fewer than ten
      give nothing; otherwise each value after the first window is compared
      with the `min(20, n // 4)` values before it. */
  function DetectAnomalies(values: seq<real>, sensitivity: real, sqrt: real -> real): (r: Option<AnomalyReport>)
    ensures r.None? <==> |values| < 10
    ensures r.Some? ==> forall k :: 0 <= k < |r.value.anomalies| ==>
              Min(20, |values| / 4) <= r.value.anomalies[k].index < |values|
              && r.value.anomalies[k].zScore > sensitivity
  {
    if |values| < 10 then None
    else
      var w := Min(20, |values| / 4);
      Some(AnomalyReport(Scan(values, w, w, sensitivity, sqrt), Mean(values) + sensitivity * StdDev(values, sqrt)))
  }

  lemma ConstantVariance(values: seq<real>, c: real)
    requires |values| > 1
    requires forall i :: 0 <= i < |values| ==> values[i] == c
    ensures RevenueDashboard.SampleVariance(values) == 0.0
  {
    MeanConstant(values, c);
    var m := Mean(values);
    var sq := seq(|values|, i requires 0 <= i < |values| => (values[i] - m) * (values[i] - m));
    SumConstant(sq, 0.0);
  }

  lemma {:induction false} ScanConstant(values: seq<real>, w: nat, i: nat, sensitivity: real, sqrt: real -> real, c: real)
    requires 0 < w <= i <= |values|
    requires forall k :: 0 <= k < |values| ==> values[k] == c
    requires sensitivity >= 0.0 && sqrt(0.0) == 0.0
    ensures Scan(values, w, i, sensitivity, sqrt) == []
    decreases |values| - i
  {
    if i < |values| {
      var window := values[i - w..i];
      if |window| > 1 {
        ConstantVariance(window, c);
      }
      ScanConstant(values, w, i + 1, sensitivity, sqrt, c);
    }
  }

  /** A flat series has no anomalies, whatever the (non-negative)
      sensitivity. */
  lemma FlatSeriesHasNoAnomalies(values: seq<real>, sensitivity: real, sqrt: real -> real, c: real)
    requires |values| >= 10
    requires forall k :: 0 <= k < |values| ==> values[k] == c
    requires sensitivity >= 0.0 && sqrt(0.0) == 0.0
    ensures DetectAnomalies(values, sensitivity, sqrt).value.anomalies == []
  {
    var w := Min(20, |values| / 4);
    ScanConstant(values, w, w, sensitivity, sqrt, c);
  }

  // ---------------------------------------------------------------------
  // Aggregation into time buckets
  // ---------------------------------------------------------------------

  const Intervals: map<string, nat> := map["1m" := 60, "5m" := 300, "15m" := 900, "1h" := 3600, "6h" := 21600, "1d" := 86400]

  /** The bucket width of a named interval; unknown names mean five
      minutes. */
  function IntervalSeconds(name: string): (w: nat)
    ensures w > 0
    ensures name !in Intervals ==> w == 300
    ensures name in Intervals ==> w == Intervals[name]
  {
    if name in Intervals then Intervals[name] else 300
  }

  /** `int(t // interval) * interval`: the start of the bucket holding `t`. */
  function BucketKey(t: real, width: nat): int
    requires width > 0
  {
    (t / width as real).Floor * width
  }

  /** A bucket key is a multiple of the width, and its bucket holds the
      timestamp. */
  lemma BucketKeyBounds(t: real, width: nat)
    requires width > 0
    ensures BucketKey(t, width) % width == 0
    ensures BucketKey(t, width) as real <= t
    ensures t < (BucketKey(t, width) + width) as real
  {
    var f := (t / width as real).Floor;
    FloorScale(t, width as real);
    MulMod(f, width);
    CastProduct(f, width);
    CastProduct(f + 1, width);
    assert f * width + width == (f + 1) * width;
  }

  lemma MulMod(f: int, w: int)
    requires w > 0
    ensures (f * w) % w == 0
  {
    var a := f * w;
    var q, r := a / w, a % w;
    assert a == q * w + r && 0 <= r < w;
    assert (f - q) * w == r;
    if f - q >= 1 {
      assert false;
    } else if f - q <= -1 {
      assert false;
    }
  }

  lemma CastProduct(a: int, b: int)
    ensures (a * b) as real == a as real * b as real
  {
  }

  datatype Sample = Sample(name: string, timestamp: real, value: real)

  /** One bucket's statistics. */
  datatype Point = Point(key: int, mean: real, low: real, high: real, count: nat)

  /** The values of the samples falling into bucket `k`, in order. */
  function BucketValues(samples: seq<Sample>, width: nat, k: int): (vs: seq<real>)
    requires width > 0
    ensures |vs| <= |samples|
    decreases |samples|
  {
    if |samples| == 0 then []
    else
      var last := samples[|samples| - 1];
      BucketValues(samples[..|samples| - 1], width, k) + (if BucketKey(last.timestamp, width) == k then [last.value] else [])
  }

  lemma {:induction false} BucketValuesOccupied(samples: seq<Sample>, width: nat, i: nat)
    requires width > 0 && i < |samples|
    ensures |BucketValues(samples, width, BucketKey(samples[i].timestamp, width))| > 0
    decreases |samples|
  {
    if i < |samples| - 1 {
      var init := samples[..|samples| - 1];
      assert init[i] == samples[i];
      BucketValuesOccupied(init, width, i);
    }
  }

  function KeysOf(samples: seq<Sample>, width: nat): (ks: seq<int>)
    requires width > 0
    ensures |ks| == |samples|
    ensures forall i :: 0 <= i < |samples| ==> ks[i] == BucketKey(samples[i].timestamp, width)
  {
    seq(|samples|, i requires 0 <= i < |samples| => BucketKey(samples[i].timestamp, width))
  }

  predicate Increasing(s: seq<int>) {
    forall i, j :: 0 <= i < j < |s| ==> s[i] < s[j]
  }

  /** Inserts `x` into an increasing sequence unless it is already there. */
  function InsertUnique(x: int, s: seq<int>): (r: seq<int>)
    requires Increasing(s)
    ensures Increasing(r)
    ensures forall y :: y in r <==> y in s || y == x
    decreases |s|
  {
    if |s| == 0 then [x]
    else if x < s[0] then [x] + s
    else if x == s[0] then s
    else
      var rest := InsertUnique(x, s[1..]);
      assert forall i :: 0 <= i < |rest| ==> s[0] < rest[i] by {
        forall i | 0 <= i < |rest| ensures s[0] < rest[i] {
          assert rest[i] in rest;
        }
      }
      [s[0]] + rest
  }

  /** The distinct members of `s` in ascending order (`sorted(set(s))`). */
  function Ascend(s: seq<int>): (r: seq<int>)
    ensures Increasing(r)
    ensures forall x :: x in r <==> x in s
    decreases |s|
  {
    if |s| == 0 then []
    else
      var r := InsertUnique(s[|s| - 1], Ascend(s[..|s| - 1]));
      assert forall x :: x in s <==> x in s[..|s| - 1] || x == s[|s| - 1] by {
        assert s == s[..|s| - 1] + [s[|s| - 1]];
      }
      r
  }

  /** Every key drawn from the samples holds at least one value. */
  lemma KeysOccupied(samples: seq<Sample>, width: nat, keys: seq<int>)
    requires width > 0
    requires forall k :: k in keys ==> k in KeysOf(samples, width)
    ensures forall i :: 0 <= i < |keys| ==> |BucketValues(samples, width, keys[i])| > 0
  {
    forall i | 0 <= i < |keys| ensures |BucketValues(samples, width, keys[i])| > 0 {
      assert keys[i] in keys;
      var t :| 0 <= t < |samples| && KeysOf(samples, width)[t] == keys[i];
      BucketValuesOccupied(samples, width, t);
    }
  }

  function PointOf(k: int, vs: seq<real>): (p: Point)
    requires |vs| > 0
    ensures p.low <= p.mean <= p.high && p.count == |vs|
  {
    MeanBetween(vs, MinOf(vs), MaxOf(vs));
    Point(k, Mean(vs), MinOf(vs), MaxOf(vs), |vs|)
  }

  /** One point per key, each summarising that key's bucket. */
  function Points(samples: seq<Sample>, width: nat, keys: seq<int>): (r: seq<Point>)
    requires width > 0
    requires forall i :: 0 <= i < |keys| ==> |BucketValues(samples, width, keys[i])| > 0
    ensures |r| == |keys|
    ensures forall i :: 0 <= i < |r| ==> r[i].key == keys[i]
    ensures forall i :: 0 <= i < |r| ==> r[i].count == |BucketValues(samples, width, keys[i])| > 0
    ensures forall i :: 0 <= i < |r| ==> r[i].low <= r[i].mean <= r[i].high
    decreases |keys|
  {
    if |keys| == 0 then []
    else [PointOf(keys[0], BucketValues(samples, width, keys[0]))] + Points(samples, width, keys[1..])
  }

  function PointKeys(r: seq<Point>): (ks: seq<int>)
    ensures |ks| == |r| && forall i :: 0 <= i < |r| ==> ks[i] == r[i].key
  {
    seq(|r|, i requires 0 <= i < |r| => r[i].key)
  }

  /** `_aggregate_metrics` for one metric: one point per occupied bucket,
      in ascending bucket order, and a point for exactly the buckets some
      sample falls into. */
  function AggregateOne(samples: seq<Sample>, width: nat): (r: seq<Point>)
    requires width > 0
    ensures Increasing(PointKeys(r))
    ensures forall i :: 0 <= i < |r| ==> r[i].count > 0 && r[i].low <= r[i].mean <= r[i].high
    ensures forall i :: 0 <= i < |r| ==> r[i].count == |BucketValues(samples, width, r[i].key)|
    ensures forall k :: k in PointKeys(r) <==> k in KeysOf(samples, width)
  {
    var keys := Ascend(KeysOf(samples, width));
    KeysOccupied(samples, width, keys);
    var r := Points(samples, width, keys);
    assert PointKeys(r) == keys;
    r
  }

  function CountSum(points: seq<Point>): nat
    decreases |points|
  {
    if |points| == 0 then 0 else points[0].count + CountSum(points[1..])
  }

  /** How many bucket values the keys collect between them. */
  function Collected(samples: seq<Sample>, width: nat, keys: seq<int>): nat
    requires width > 0
    decreases |keys|
  {
    if |keys| == 0 then 0 else |BucketValues(samples, width, keys[0])| + Collected(samples, width, keys[1..])
  }

  function Hits(keys: seq<int>, k: int): nat
    decreases |keys|
  {
    if |keys| == 0 then 0 else (if keys[0] == k then 1 else 0) + Hits(keys[1..], k)
  }

  lemma {:induction false} HitsOnce(keys: seq<int>, k: int)
    requires Collections.Distinct(keys) && k in keys
    ensures Hits(keys, k) == 1
    decreases |keys|
  {
    if keys[0] == k {
      HitsNone(keys[1..], k);
    } else {
      HitsOnce(keys[1..], k);
    }
  }

  lemma {:induction false} HitsNone(keys: seq<int>, k: int)
    requires k !in keys
    ensures Hits(keys, k) == 0
    decreases |keys|
  {
    if |keys| > 0 {
      HitsNone(keys[1..], k);
    }
  }

  lemma {:induction false} CollectedStep(samples: seq<Sample>, x: Sample, width: nat, keys: seq<int>)
    requires width > 0
    ensures Collected(samples + [x], width, keys) == Collected(samples, width, keys) + Hits(keys, BucketKey(x.timestamp, width))
    decreases |keys|
  {
    if |keys| > 0 {
      assert (samples + [x])[..|samples|] == samples;
      CollectedStep(samples, x, width, keys[1..]);
    }
  }

  /** Buckets partition the samples: distinct keys covering every sample
      collect each sample exactly once. */
  lemma {:induction false} CollectedAll(samples: seq<Sample>, width: nat, keys: seq<int>)
    requires width > 0 && Collections.Distinct(keys)
    requires forall i :: 0 <= i < |samples| ==> BucketKey(samples[i].timestamp, width) in keys
    ensures Collected(samples, width, keys) == |samples|
    decreases |samples|
  {
    if |samples| == 0 {
      EmptyCollected(width, keys);
    } else {
      var init := samples[..|samples| - 1];
      var x := samples[|samples| - 1];
      assert samples == init + [x];
      CollectedAll(init, width, keys);
      CollectedStep(init, x, width, keys);
      HitsOnce(keys, BucketKey(x.timestamp, width));
    }
  }

  lemma {:induction false} EmptyCollected(width: nat, keys: seq<int>)
    requires width > 0
    ensures Collected([], width, keys) == 0
    decreases |keys|
  {
    if |keys| > 0 {
      EmptyCollected(width, keys[1..]);
    }
  }

  lemma {:induction false} CountSumOfKeys(samples: seq<Sample>, width: nat, keys: seq<int>, points: seq<Point>)
    requires width > 0 && |points| == |keys|
    requires forall i :: 0 <= i < |keys| ==> points[i].count == |BucketValues(samples, width, keys[i])|
    ensures CountSum(points) == Collected(samples, width, keys)
    decreases |keys|
  {
    if |keys| > 0 {
      CountSumOfKeys(samples, width, keys[1..], points[1..]);
    }
  }

  /** The bucket counts of a metric add up to its number of samples. */
  lemma AggregateCountsAll(samples: seq<Sample>, width: nat)
    requires width > 0
    ensures CountSum(AggregateOne(samples, width)) == |samples|
  {
    var ks := KeysOf(samples, width);
    var keys := Ascend(ks);
    KeysOccupied(samples, width, keys);
    var r := Points(samples, width, keys);
    assert forall i :: 0 <= i < |samples| ==> ks[i] in keys;
    assert Collections.Distinct(keys);
    CountSumOfKeys(samples, width, keys, r);
    CollectedAll(samples, width, keys);
  }

  function Names(samples: seq<Sample>): (ns: seq<string>)
    ensures |ns| == |samples| && forall i :: 0 <= i < |samples| ==> ns[i] == samples[i].name
  {
    seq(|samples|, i requires 0 <= i < |samples| => samples[i].name)
  }

  function OfName(samples: seq<Sample>, name: string): (r: seq<Sample>)
    ensures forall i :: 0 <= i < |r| ==> r[i].name == name
  {
    Collections.Filter(samples, (x: Sample) => x.name == name)
  }

  /** The metric names in order of first appearance. */
  function Groups(samples: seq<Sample>): (ns: seq<string>)
    ensures Collections.Distinct(ns)
    ensures forall i :: 0 <= i < |ns| ==> ns[i] in Names(samples)
    ensures forall i :: 0 <= i < |samples| ==> samples[i].name in ns
  {
    var names := Names(samples);
    var ns := Collections.Dedup(names);
    assert forall i :: 0 <= i < |samples| ==> names[i] in ns;
    ns
  }

  /** `_aggregate_metrics`: the samples grouped by name, in order of first
      appearance, each group bucketed by the named interval. */
  function Aggregate(samples: seq<Sample>, interval: string): (r: seq<(string, seq<Point>)>)
    ensures |r| == |Groups(samples)|
    ensures forall i :: 0 <= i < |r| ==> r[i].0 == Groups(samples)[i]
    ensures forall i :: 0 <= i < |r| ==> r[i].1 == AggregateOne(OfName(samples, r[i].0), IntervalSeconds(interval))
  {
    var names := Groups(samples);
    seq(|names|, i requires 0 <= i < |names| =>
      (names[i], AggregateOne(OfName(samples, names[i]), IntervalSeconds(interval))))
  }

  // ---------------------------------------------------------------------
  // Aligned time series
  // ---------------------------------------------------------------------

  const Palette: seq<string> := ["#3B82F6", "#EF4444", "#10B981", "#F59E0B", "#8B5CF6", "#EC4899",
                                 "#06B6D4", "#84CC16", "#F97316", "#6366F1", "#14B8A6", "#F43F5E"]

  datatype Series = Series(name: string, data: seq<Option<real>>, color: string, present: nat, missing: nat)

  /** Every bucket key of every metric. */
  function AllKeys(agg: seq<(string, seq<Point>)>): (ks: seq<int>)
    ensures forall i, k :: 0 <= i < |agg| && k in PointKeys(agg[i].1) ==> k in ks
    ensures forall k :: k in ks ==> exists i :: 0 <= i < |agg| && k in PointKeys(agg[i].1)
    decreases |agg|
  {
    if |agg| == 0 then []
    else
      var init := agg[..|agg| - 1];
      assert forall i :: 0 <= i < |init| ==> init[i] == agg[i];
      AllKeys(init) + PointKeys(agg[|agg| - 1].1)
  }

  /** The value at a bucket key; a later point with the same key wins, as
      in a dict built from the points. */
  function LookupKey(points: seq<Point>, k: int): (r: Option<real>)
    ensures r.None? <==> k !in PointKeys(points)
    ensures r.Some? ==> exists j :: 0 <= j < |points| && points[j].key == k && points[j].mean == r.value
    decreases |points|
  {
    if |points| == 0 then None
    else
      var last := points[|points| - 1];
      var init := points[..|points| - 1];
      assert PointKeys(points) == PointKeys(init) + [last.key];
      if last.key == k then Some(last.mean)
      else
        var r := LookupKey(init, k);
        assert r.Some? ==> exists j :: 0 <= j < |init| && init[j].key == k && init[j].mean == r.value;
        r
  }

  function Present(data: seq<Option<real>>): nat
    decreases |data|
  {
    if |data| == 0 then 0 else (if data[0].Some? then 1 else 0) + Present(data[1..])
  }

  function Missing(data: seq<Option<real>>): nat
    decreases |data|
  {
    if |data| == 0 then 0 else (if data[0].None? then 1 else 0) + Missing(data[1..])
  }

  /** Present and missing points account for every timestamp. */
  lemma {:induction false} PresentMissing(data: seq<Option<real>>)
    ensures Present(data) + Missing(data) == |data|
    decreases |data|
  {
    if |data| > 0 {
      PresentMissing(data[1..]);
    }
  }

  /** One metric's series aligned to the shared timestamps, with `None`
      where it has no bucket. */
  function MakeSeries(name: string, points: seq<Point>, timestamps: seq<int>, index: nat): (r: Series)
    ensures r.name == name && |r.data| == |timestamps| && r.color == Palette[index % |Palette|]
    ensures forall t :: 0 <= t < |timestamps| ==> (r.data[t].Some? <==> timestamps[t] in PointKeys(points))
    ensures r.present + r.missing == |timestamps|
  {
    var data := seq(|timestamps|, t requires 0 <= t < |timestamps| => LookupKey(points, timestamps[t]));
    PresentMissing(data);
    Series(name, data, Palette[index % |Palette|], Present(data), Missing(data))
  }

  /** `_build_time_series`: the sorted union of bucket keys, and per metric
      a series aligned to it whose colour cycles through the palette. */
  function BuildTimeSeries(agg: seq<(string, seq<Point>)>): (r: (seq<int>, seq<Series>))
    ensures Increasing(r.0)
    ensures forall k :: k in r.0 <==> k in AllKeys(agg)
    ensures |r.1| == |agg|
    ensures forall i :: 0 <= i < |agg| ==> r.1[i].name == agg[i].0 && |r.1[i].data| == |r.0|
    ensures forall i :: 0 <= i < |agg| ==> r.1[i].color == Palette[i % |Palette|]
    ensures forall i :: 0 <= i < |agg| ==> r.1[i].present + r.1[i].missing == |r.0|
    ensures forall i, t :: 0 <= i < |agg| && 0 <= t < |r.0| ==> (r.1[i].data[t].Some? <==> r.0[t] in PointKeys(agg[i].1))
  {
    var timestamps := Ascend(AllKeys(agg));
    (timestamps, seq(|agg|, i requires 0 <= i < |agg| => MakeSeries(agg[i].0, agg[i].1, timestamps, i)))
  }

  /** Every shared timestamp is some metric's bucket, so no row of the
      table is empty. */
  lemma NoEmptyRow(agg: seq<(string, seq<Point>)>, t: nat)
    requires t < |BuildTimeSeries(agg).0|
    ensures exists i :: 0 <= i < |agg| && BuildTimeSeries(agg).1[i].data[t].Some?
  {
    var r := BuildTimeSeries(agg);
    assert r.0[t] in r.0;
    var i :| 0 <= i < |agg| && r.0[t] in PointKeys(agg[i].1);
    assert r.1[i].data[t].Some?;
  }

  // ---------------------------------------------------------------------
  // Selection and export
  // ---------------------------------------------------------------------

  /** A metric is selected when any wanted name occurs in its name. */
  predicate Selected(name: string, wanted: seq<string>) {
    exists w :: w in wanted && Contains(name, w)
  }

  /** `get_time_series_data` on the metrics of the period: the selected
      samples aggregated and aligned; nothing when none is selected. */
  function TimeSeriesData(samples: seq<Sample>, wanted: seq<string>, interval: string): (r: (seq<int>, seq<Series>))
    ensures (forall i :: 0 <= i < |samples| ==> !Selected(samples[i].name, wanted)) ==> r == ([], [])
    ensures forall j :: 0 <= j < |r.1| ==> Selected(r.1[j].name, wanted)
  {
    var picked := Collections.Filter(samples, (x: Sample) => Selected(x.name, wanted));
    if picked == [] then ([], [])
    else
      var agg := Aggregate(picked, interval);
      SelectedGroups(picked, wanted);
      BuildTimeSeries(agg)
  }

  lemma SelectedGroups(picked: seq<Sample>, wanted: seq<string>)
    requires forall i :: 0 <= i < |picked| ==> Selected(picked[i].name, wanted)
    ensures forall j :: 0 <= j < |Groups(picked)| ==> Selected(Groups(picked)[j], wanted)
  {
    var g := Groups(picked);
    forall j | 0 <= j < |g| ensures Selected(g[j], wanted) {
      var i :| 0 <= i < |picked| && Names(picked)[i] == g[j];
    }
  }

  /** The value in row `i` of a series, `None` past its end. */
  function Cell(s: Series, i: nat): Option<real> {
    if i < |s.data| then s.data[i] else None
  }

  function Header(series: seq<Series>): (h: seq<string>)
    ensures |h| == |series| + 1 && h[0] == "timestamp"
    ensures forall j :: 0 <= j < |series| ==> h[j + 1] == series[j].name
  {
    ["timestamp"] + seq(|series|, j requires 0 <= j < |series| => series[j].name)
  }

  function Row(stamp: string, i: nat, series: seq<Series>, show: real -> string): (row: seq<string>)
    ensures |row| == |series| + 1 && row[0] == stamp
    ensures forall j :: 0 <= j < |series| ==> Cell(series[j], i).None? ==> row[j + 1] == ""
    ensures forall j :: 0 <= j < |series| ==> Cell(series[j], i).Some? ==> row[j + 1] == show(Cell(series[j], i).value)
  {
    [stamp] + seq(|series|, j requires 0 <= j < |series| =>
      match Cell(series[j], i)
      case Some(v) => show(v)
      case None => "")
  }

  /** The cells of the CSV: a header, then one row per timestamp. */
  function CsvCells(timestamps: seq<string>, series: seq<Series>, show: real -> string): (lines: seq<seq<string>>)
    ensures |lines| == |timestamps| + 1 && lines[0] == Header(series)
    ensures forall i :: 0 <= i < |timestamps| ==> lines[i + 1] == Row(timestamps[i], i, series, show)
  {
    [Header(series)] + seq(|timestamps|, i requires 0 <= i < |timestamps| => Row(timestamps[i], i, series, show))
  }

  function Lines(cells: seq<seq<string>>): (ls: seq<string>)
    ensures |ls| == |cells| && forall i :: 0 <= i < |cells| ==> ls[i] == Join(",", cells[i])
  {
    seq(|cells|, i requires 0 <= i < |cells| => Join(",", cells[i]))
  }

  lemma JoinStartsWith(sep: string, parts: seq<string>)
    requires |parts| > 1
    ensures IsPrefix(parts[0] + sep, Join(sep, parts))
  {
    assert Join(sep, parts) == parts[0] + sep + Join(sep, parts[1..]);
  }

  lemma JoinFirst(sep: string, parts: seq<string>)
    requires |parts| > 0
    ensures IsPrefix(parts[0], Join(sep, parts))
  {
    if |parts| > 1 {
      assert Join(sep, parts) == parts[0] + (sep + Join(sep, parts[1..]));
    }
  }

  /** `_export_to_csv`: a fixed message without series, otherwise the
      header and rows joined by commas and newlines. */
  function ExportCsv(timestamps: seq<string>, series: seq<Series>, show: real -> string): (r: string)
    ensures |series| == 0 ==> r == "No data available"
    ensures |series| > 0 ==> IsPrefix("timestamp,", r)
    ensures r == "No data available" <==> |series| == 0
  {
    if |series| == 0 then "No data available"
    else
      var cells := CsvCells(timestamps, series, show);
      var lines := Lines(cells);
      var header := Join(",", Header(series));
      JoinStartsWith(",", Header(series));
      JoinFirst("\n", lines);
      assert IsPrefix("timestamp,", header);
      var r := Join("\n", lines);
      assert r[..|header|] == header;
      assert r[..10] == header[..10];
      assert r[0] == 't';
      r
  }
}
