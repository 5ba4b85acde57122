/** The regression tail of `_compute_beta_vs_btc` (update_data.py:286-292, 324-343):
    pair each point of the trailing 365-day window with the BTC price of the SAME day,
    and fit the population least-squares slope of price against the series value.
    The price download is left out; the day-to-price map is an input. */
module Beta {
  import opened Wrappers
  import opened Numeric
  import opened Series

  /** Length of the trailing window, in days. */
  const WINDOW_DAYS := 365

  /** Fewest pairs the regression accepts. */
  const MIN_PAIRS := 20

  // ---------------- sums and moments ----------------

  function Mean(xs: seq<real>): real
    requires |xs| > 0
  {
    Sum(xs) / |xs| as real
  }

  /** Sum of squared deviations from `m`. */
  function SquaredDeviations(xs: seq<real>, m: real): real {
    if xs == [] then 0.0 else (xs[0] - m) * (xs[0] - m) + SquaredDeviations(xs[1..], m)
  }

  /** Sum of products of paired deviations from `mx` and `my`. */
  function CrossDeviations(xs: seq<real>, ys: seq<real>, mx: real, my: real): real
    requires |xs| == |ys|
  {
    if xs == [] then 0.0
    else (xs[0] - mx) * (ys[0] - my) + CrossDeviations(xs[1..], ys[1..], mx, my)
  }

  /** Population variance: divides by n, not n - 1. */
  function Variance(xs: seq<real>): real
    requires |xs| > 0
  {
    SquaredDeviations(xs, Mean(xs)) / |xs| as real
  }

  /** Population covariance. */
  function Covariance(xs: seq<real>, ys: seq<real>): real
    requires |xs| == |ys| > 0
  {
    CrossDeviations(xs, ys, Mean(xs), Mean(ys)) / |xs| as real
  }

  /** The slope cov/var: None below MIN_PAIRS pairs or when the x values have no spread. */
  function Regression(xs: seq<real>, ys: seq<real>): (r: Option<real>)
    requires |xs| == |ys|
    ensures r.Some? <==> |xs| >= MIN_PAIRS && Variance(xs) != 0.0
    ensures r.Some? ==> r.value * Variance(xs) == Covariance(xs, ys)
  {
    if |xs| < MIN_PAIRS then None
    else
      var varX := Variance(xs);
      if varX == 0.0 then None
      else Some(Covariance(xs, ys) / varX)
  }

  // ---------------- pairing ----------------

  /** A point enters the regression: inside [start, end] and priced on exactly its day. */
  predicate Paired(p: Point, prices: map<int, real>, start: int, end: int) {
    start <= p.day <= end && p.day in prices
  }

  /** Positions of the paired points, in list order. */
  function PairIndices(s: TimeSeries, prices: map<int, real>, start: int, end: int): (r: seq<nat>)
    ensures forall k :: 0 <= k < |r| ==> r[k] < |s| && Paired(s[r[k]], prices, start, end)
    ensures forall j :: 0 <= j < |s| && Paired(s[j], prices, start, end) ==> j in r
    ensures forall a, b :: 0 <= a < b < |r| ==> r[a] < r[b]
  {
    if s == [] then []
    else
      var init := PairIndices(s[..|s| - 1], prices, start, end);
      if Paired(Last(s), prices, start, end) then init + [|s| - 1] else init
  }

  /** The series values of the paired points. */
  function PairedValues(s: TimeSeries, idx: seq<nat>): (xs: seq<real>)
    requires forall k :: 0 <= k < |idx| ==> idx[k] < |s|
    ensures |xs| == |idx|
  {
    seq(|idx|, k requires 0 <= k < |idx| => s[idx[k]].value)
  }

  /** The prices of the paired points. */
  function PairedPrices(s: TimeSeries, prices: map<int, real>, idx: seq<nat>): (ys: seq<real>)
    requires forall k :: 0 <= k < |idx| ==> idx[k] < |s| && s[idx[k]].day in prices
    ensures |ys| == |idx|
  {
    seq(|idx|, k requires 0 <= k < |idx| => prices[s[idx[k]].day])
  }

  /** The pairs of the trailing window ending at the last point's day: every point whose
      day lies in [last - 365, last] and has a price, in list order. */
  function WindowPairs(s: TimeSeries, prices: map<int, real>): (idx: seq<nat>)
    requires |s| > 0
    ensures forall k :: 0 <= k < |idx| ==>
      && idx[k] < |s|
      && Last(s).day - WINDOW_DAYS <= s[idx[k]].day <= Last(s).day
      && s[idx[k]].day in prices
    ensures forall j ::
      (0 <= j < |s| && Last(s).day - WINDOW_DAYS <= s[j].day <= Last(s).day && s[j].day in prices)
        ==> j in idx
    ensures forall a, b :: 0 <= a < b < |idx| ==> idx[a] < idx[b]
  {
    PairIndices(s, prices, Last(s).day - WINDOW_DAYS, Last(s).day)
  }

  /** `_compute_beta_vs_btc` once prices are known: None for an empty series, for fewer
      than 20 window points with a price, or for window values without spread. */
  function BetaVsBtc(s: TimeSeries, prices: map<int, real>): (r: Option<real>)
    ensures |s| == 0 ==> r.None?
    ensures |s| > 0 ==>
      var idx := WindowPairs(s, prices);
      var xs := PairedValues(s, idx);
      && (r.Some? <==> |idx| >= MIN_PAIRS && Variance(xs) != 0.0)
      && (r.Some? ==> r.value * Variance(xs) == Covariance(xs, PairedPrices(s, prices, idx)))
  {
    if |s| == 0 then None
    else
      var idx := WindowPairs(s, prices);
      Regression(PairedValues(s, idx), PairedPrices(s, prices, idx))
  }

  // ---------------- properties ----------------

  lemma SquareNonNegative(d: real)
    ensures d * d >= 0.0
  {
  }

  /** One squared deviation plus a non-negative rest is non-negative. */
  lemma AddSquare(x: real, m: real, rest: real, total: real)
    requires rest >= 0.0 && total == (x - m) * (x - m) + rest
    ensures total >= 0.0
  {
    SquareNonNegative(x - m);
  }

  lemma ScaleDivision(k: real, x: real, n: real)
    requires n > 0.0
    ensures (k * x) / n == k * (x / n)
  {
    var q := x / n;
    assert x == q * n;
    assert k * x == (k * q) * n;
  }

  lemma ShiftDivision(a: real, c: real, n: real)
    requires n > 0.0
    ensures (a + n * c) / n == a / n + c
  {
    var q := a / n;
    assert a == q * n;
    assert a + n * c == (q + c) * n;
  }

  lemma {:induction false} SumLinear(xs: seq<real>, ys: seq<real>, k: real, c: real)
    requires |xs| == |ys|
    requires forall i :: 0 <= i < |xs| ==> ys[i] == k * xs[i] + c
    ensures Sum(ys) == k * Sum(xs) + |xs| as real * c
  {
    if xs != [] {
      SumLinear(xs[1..], ys[1..], k, c);
    }
  }

  lemma MeanLinear(xs: seq<real>, ys: seq<real>, k: real, c: real)
    requires |xs| == |ys| > 0
    requires forall i :: 0 <= i < |xs| ==> ys[i] == k * xs[i] + c
    ensures Mean(ys) == k * Mean(xs) + c
  {
    SumLinear(xs, ys, k, c);
    var n := |xs| as real;
    ShiftDivision(k * Sum(xs), c, n);
    ScaleDivision(k, Sum(xs), n);
  }

  lemma {:induction false} CrossOfLinear(xs: seq<real>, ys: seq<real>, k: real, c: real, mx: real)
    requires |xs| == |ys|
    requires forall i :: 0 <= i < |xs| ==> ys[i] == k * xs[i] + c
    ensures CrossDeviations(xs, ys, mx, k * mx + c) == k * SquaredDeviations(xs, mx)
  {
    if xs != [] {
      CrossOfLinear(xs[1..], ys[1..], k, c, mx);
      var d := xs[0] - mx;
      assert ys[0] - (k * mx + c) == k * d;
      assert d * (k * d) == k * (d * d);
    }
  }

  /** For points lying exactly on y = k*x + c, the population covariance is k times the
      population variance. */
  lemma CovarianceOfLine(xs: seq<real>, ys: seq<real>, k: real, c: real)
    requires |xs| == |ys| > 0
    requires forall i :: 0 <= i < |xs| ==> ys[i] == k * xs[i] + c
    ensures Covariance(xs, ys) == k * Variance(xs)
  {
    var n := |xs| as real;
    var mx := Mean(xs);
    MeanLinear(xs, ys, k, c);
    CrossOfLinear(xs, ys, k, c, mx);
    assert Mean(ys) == k * mx + c;
    assert CrossDeviations(xs, ys, mx, Mean(ys)) == k * SquaredDeviations(xs, mx);
    ScaleDivision(k, SquaredDeviations(xs, mx), n);
  }

  /** Exact linear data: with enough pairs and some spread in x, the slope is recovered. */
  lemma RegressionOfLine(xs: seq<real>, ys: seq<real>, k: real, c: real)
    requires |xs| == |ys| >= MIN_PAIRS
    requires forall i :: 0 <= i < |xs| ==> ys[i] == k * xs[i] + c
    requires Variance(xs) != 0.0
    ensures Regression(xs, ys) == Some(k)
  {
    CovarianceOfLine(xs, ys, k, c);
    var v := Variance(xs);
    assert Covariance(xs, ys) == k * v;
    assert (k * v) / v == k;
    assert Regression(xs, ys) == Some(Covariance(xs, ys) / v);
  }

  lemma {:induction false} SquaredDeviationsNonNegative(xs: seq<real>, m: real)
    ensures SquaredDeviations(xs, m) >= 0.0
  {
    if xs != [] {
      SquaredDeviationsNonNegative(xs[1..], m);
      AddSquare(xs[0], m, SquaredDeviations(xs[1..], m), SquaredDeviations(xs, m));
    }
  }

  /** Values all equal to the centre have no squared deviation. */
  lemma {:induction false} SquaredDeviationsOfConstant(xs: seq<real>, m: real)
    requires forall i :: 0 <= i < |xs| ==> xs[i] == m
    ensures SquaredDeviations(xs, m) == 0.0
  {
    if xs != [] {
      SquaredDeviationsOfConstant(xs[1..], m);
    }
  }

  lemma {:induction false} SumConstant(xs: seq<real>, c: real)
    requires forall i :: 0 <= i < |xs| ==> xs[i] == c
    ensures Sum(xs) == |xs| as real * c
  {
    if xs != [] {
      SumConstant(xs[1..], c);
    }
  }

  /** Population variance is never negative. */
  lemma VarianceNonNegative(xs: seq<real>)
    requires |xs| > 0
    ensures Variance(xs) >= 0.0
  {
    SquaredDeviationsNonNegative(xs, Mean(xs));
  }

  /** Equal x values have zero population variance. */
  lemma VarianceOfFlat(xs: seq<real>)
    requires |xs| > 0
    requires forall i :: 0 <= i < |xs| ==> xs[i] == xs[0]
    ensures Variance(xs) == 0.0
  {
    SumConstant(xs, xs[0]);
    assert Mean(xs) == xs[0];
    SquaredDeviationsOfConstant(xs, xs[0]);
  }

  /** A window whose paired points all carry the same value yields no beta. */
  lemma BetaOfFlatWindow(s: TimeSeries, prices: map<int, real>, v: real)
    requires |s| > 0
    requires forall j :: 0 <= j < |s| ==> s[j].value == v
    ensures BetaVsBtc(s, prices) == None
  {
    var idx := WindowPairs(s, prices);
    var xs := PairedValues(s, idx);
    if |xs| > 0 {
      VarianceOfFlat(xs);
    }
  }

  /** Beta recovers the slope of a price line through every paired point. */
  lemma BetaOfLine(s: TimeSeries, prices: map<int, real>, k: real, c: real)
    requires |s| > 0
    requires |WindowPairs(s, prices)| >= MIN_PAIRS
    requires Variance(PairedValues(s, WindowPairs(s, prices))) != 0.0
    requires forall j :: 0 <= j < |s| && s[j].day in prices ==> prices[s[j].day] == k * s[j].value + c
    ensures BetaVsBtc(s, prices) == Some(k)
  {
    var idx := WindowPairs(s, prices);
    var xs, ys := PairedValues(s, idx), PairedPrices(s, prices, idx);
    PairsOnLine(s, prices, idx, k, c);
    RegressionOfLine(xs, ys, k, c);
    assert BetaVsBtc(s, prices) == Regression(xs, ys);
  }

  /** Points whose prices lie on a line give paired lists on that line. */
  lemma PairsOnLine(s: TimeSeries, prices: map<int, real>, idx: seq<nat>, k: real, c: real)
    requires forall i :: 0 <= i < |idx| ==> idx[i] < |s| && s[idx[i]].day in prices
    requires forall j :: 0 <= j < |s| && s[j].day in prices ==> prices[s[j].day] == k * s[j].value + c
    ensures var xs, ys := PairedValues(s, idx), PairedPrices(s, prices, idx);
      forall i :: 0 <= i < |xs| ==> ys[i] == k * xs[i] + c
  {
    var xs, ys := PairedValues(s, idx), PairedPrices(s, prices, idx);
    forall i | 0 <= i < |xs|
      ensures ys[i] == k * xs[i] + c
    {
      var j := idx[i];
      assert xs[i] == s[j].value && ys[i] == prices[s[j].day];
    }
  }
}
