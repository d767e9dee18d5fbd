/**
  `calculate_metrics` of api/index_0710_1.py: CAGR, maximum drawdown,
  annualised volatility, Sharpe and Sortino ratios from daily returns, and
  beta and alpha against an optional benchmark series.
 */
module Metrics {
  import opened Wrappers
  import opened Dates
  import opened Stats

  const TRADING_DAYS_PER_YEAR: real := 252.0
  const DAYS_PER_YEAR: real := 365.25

  /** The figures `calculate_metrics` returns. */
  datatype Metrics = Metrics(
    cagr: real,
    mdd: real,
    volatility: real,
    sharpe: real,
    sortino: real,
    beta: Option<real>,
    alpha: Option<real>)

  /** `(end_date - start_date).days / DAYS_PER_YEAR`. */
  function Years(h: seq<Point>): real
    requires |h| > 0
  {
    (DayNumber(h[|h| - 1].date) - DayNumber(h[0].date)) as real / DAYS_PER_YEAR
  }

  /** `(end / start) ** (1 / years) - 1 if years > 0 else 0`. */
  function Cagr(an: Analytic, startValue: real, endValue: real, years: real): real
    requires years > 0.0 ==> startValue != 0.0
  {
    if years > 0.0 then Pow(an, endValue / startValue, 1.0 / years) - 1.0 else 0.0
  }

  /** The value of the first point of `b` dated `d`, if any. */
  function Lookup(b: seq<Point>, d: Date): (o: Option<real>)
    ensures o.Some? <==> exists i :: 0 <= i < |b| && b[i].date == d
  {
    if |b| == 0 then None
    else if b[0].date == d then Some(b[0].value)
    else Lookup(b[1..], d)
  }

  /** A row of the inner join of two return series on their dates. */
  datatype AlignedRow = AlignedRow(date: Date, portfolio: real, benchmark: real)

  /** `pd.concat([p, b], axis=1, join='inner')`, in the order of `p`. */
  function Align(p: seq<Point>, b: seq<Point>): (a: seq<AlignedRow>)
    ensures |a| <= |p|
  {
    if |p| == 0 then []
    else
      var last := p[|p| - 1];
      Align(p[..|p| - 1], b) + match Lookup(b, last.date)
        case Some(x) => [AlignedRow(last.date, last.value, x)]
        case None => []
  }

  /**
    The join proceeds return by return: joining a concatenation joins each
    part, so every row appears once and in the order of `p`.
   */
  lemma {:induction false} AlignAppend(p1: seq<Point>, p2: seq<Point>, b: seq<Point>)
    ensures Align(p1 + p2, b) == Align(p1, b) + Align(p2, b)
  {
    if |p2| == 0 {
      assert p1 + p2 == p1;
    } else {
      var p := p1 + p2;
      var m := |p2| - 1;
      assert p[..|p| - 1] == p1 + p2[..m];
      assert p[|p| - 1] == p2[m];
      var last := p2[m];
      var tail := match Lookup(b, last.date)
        case Some(x) => [AlignedRow(last.date, last.value, x)]
        case None => [];
      assert Align(p, b) == Align(p1 + p2[..m], b) + tail;
      assert Align(p2, b) == Align(p2[..m], b) + tail;
      AlignAppend(p1, p2[..m], b);
      Reassociate(Align(p, b), Align(p1, b), Align(p2[..m], b), tail, Align(p2, b));
    }
  }

  lemma Reassociate<T>(whole: seq<T>, left: seq<T>, mid: seq<T>, tail: seq<T>, right: seq<T>)
    requires whole == (left + mid) + tail && right == mid + tail
    ensures whole == left + right
  {
  }

  function PortfolioColumn(a: seq<AlignedRow>): (r: seq<real>)
    ensures |r| == |a|
  {
    seq(|a|, i requires 0 <= i < |a| => a[i].portfolio)
  }

  function BenchmarkColumn(a: seq<AlignedRow>): (r: seq<real>)
    ensures |r| == |a|
  {
    seq(|a|, i requires 0 <= i < |a| => a[i].benchmark)
  }

  /**
    What the model asks of its inputs: no `pct_change` it takes divides by
    zero (where numpy would produce an infinity that the source does not
    handle).
   */
  predicate Admissible(h: seq<Point>, benchmark: Option<seq<Point>>) {
    (|h| >= 2 && h[0].value >= EPS ==> DenominatorsNonZero(h))
    && (|h| >= 3 && h[0].value >= EPS && benchmark.Some? ==> DenominatorsNonZero(benchmark.value))
  }

  /**
    Beta and alpha: set only for a non-empty benchmark with more than one
    date-aligned return pair and a benchmark variance above EPS; alpha uses
    the benchmark's CAGR over the portfolio's years. The benchmark's start
    value is non-zero whenever a pair exists, so both stay finite.
   */
  function BetaAlpha(dailyReturns: seq<Point>, benchmark: Option<seq<Point>>, years: real, cagr: real, rf: real, an: Analytic)
    : (ba: (Option<real>, Option<real>))
    requires benchmark.Some? ==> DenominatorsNonZero(benchmark.value)
  {
    if benchmark.None? || |benchmark.value| == 0 then (None, None)
    else
      var b := benchmark.value;
      var aligned := Align(dailyReturns, PctChange(b));
      if |aligned| <= 1 then (None, None)
      else
        var xs := PortfolioColumn(aligned);
        var ys := BenchmarkColumn(aligned);
        var variance := SampleVariance(ys);
        if variance <= EPS then (None, None)
        else
          var beta := SampleCovariance(xs, ys) / variance;
          AlignedRowsComeFromBoth(dailyReturns, PctChange(b), 0);
          var benchCagr := Cagr(an, b[0].value, b[|b| - 1].value, years);
          var expected := rf + beta * (benchCagr - rf);
          (Some(beta), Some(cagr - expected))
  }

  /** `daily_returns.std() * np.sqrt(TRADING_DAYS_PER_YEAR)`. */
  function AnnualStd(r: seq<real>, an: Analytic): real
    requires |r| >= 2
  {
    Sqrt(an, SampleVariance(r)) * Sqrt(an, TRADING_DAYS_PER_YEAR)
  }

  /** `(1 + risk_free_rate) ** (1 / TRADING_DAYS_PER_YEAR) - 1`. */
  function DailyRiskFree(rf: real, an: Analytic): real {
    Pow(an, 1.0 + rf, 1.0 / TRADING_DAYS_PER_YEAR) - 1.0
  }

  /**
    The annualised root mean square of the returns in excess of the daily
    risk-free rate, with every positive excess counted as zero.
   */
  function DownsideStd(r: seq<real>, dailyRf: real, an: Analytic): real
    requires |r| > 0
  {
    Sqrt(an, SumOfSquares(ClampPositive(Shift(r, dailyRf))) / |r| as real) * Sqrt(an, TRADING_DAYS_PER_YEAR)
  }

  /** The Sortino ratio, left at 0.0 unless the downside deviation exceeds EPS. */
  function SortinoOf(excess: real, downsideStd: real): real {
    if downsideStd > EPS then excess / downsideStd else 0.0
  }

  /**
    Volatility, Sharpe and Sortino from at least two daily returns: Sharpe
    divides by the volatility plus EPS and is normalised, Sortino is set only
    when the downside deviation exceeds EPS.
   */
  function RatioFigures(r: seq<real>, cagr: real, rf: real, an: Analytic): (real, real, real)
    requires |r| >= 2
  {
    var annualStd := AnnualStd(r, an);
    var excess := cagr - rf;
    (annualStd, Normalize(Ratio(excess, annualStd + EPS)), SortinoOf(excess, DownsideStd(r, DailyRiskFree(rf, an), an)))
  }

  /** The metrics of index_0710_1.py, branch for branch. */
  function MetricsOf(h: seq<Point>, benchmark: Option<seq<Point>>, rf: real, an: Analytic): Metrics
    requires Admissible(h, benchmark)
  {
    if |h| < 2 then Metrics(0.0, 0.0, 0.0, 0.0, 0.0, None, None)
    else
      var startValue := h[0].value;
      var endValue := h[|h| - 1].value;
      if startValue < EPS then Metrics(0.0, -1.0, 0.0, 0.0, 0.0, None, None)
      else
        var years := Years(h);
        var cagr := Cagr(an, startValue, endValue, years);
        var mdd := MaxDrawdown(ValuesOf(h), true);
        var dailyReturns := PctChange(h);
        if |dailyReturns| < 2 then Metrics(cagr, mdd, 0.0, 0.0, 0.0, None, None)
        else
          var f := RatioFigures(ValuesOf(dailyReturns), cagr, rf, an);
          var ba := BetaAlpha(dailyReturns, benchmark, years, cagr, rf, an);
          Metrics(cagr, mdd, f.0, f.1, f.2, ba.0, ba.1)
  }

  // ---------------------------------------------------------------------
  // The in-place column and array writes of calculate_metrics

  /** `values.cummax()`, written position by position. */
  method PeakColumn(v: seq<real>) returns (peak: array<real>)
    requires |v| > 0
    ensures fresh(peak) && peak.Length == |v|
    ensures forall i :: 0 <= i < |v| ==> peak[i] == RunningPeak(v, i)
  {
    peak := new real[|v|];
    peak[0] := v[0];
    for i := 1 to |v|
      invariant forall j {:trigger peak[j]} :: 0 <= j < i ==> peak[j] == RunningPeak(v, j)
    {
      peak[i] := if v[i] > peak[i - 1] then v[i] else peak[i - 1];
    }
  }

  /** `(values - peak) / (peak [+ EPSILON])`, from the peak column. */
  method DrawdownFromPeaks(v: seq<real>, peak: array<real>, guarded: bool) returns (drawdown: array<real>)
    requires |v| > 0 && v[0] > 0.0 && peak.Length == |v|
    requires forall i :: 0 <= i < |v| ==> peak[i] == RunningPeak(v, i)
    ensures fresh(drawdown) && drawdown.Length == |v|
    ensures forall i :: 0 <= i < |v| ==> drawdown[i] == Drawdown(v, i, guarded)
  {
    drawdown := new real[|v|];
    for i := 0 to |v|
      invariant forall j :: 0 <= j < i ==> drawdown[j] == Drawdown(v, j, guarded)
    {
      drawdown[i] := (v[i] - peak[i]) / PeakDivisor(peak[i], guarded);
    }
  }

  /** The `peak` and `drawdown` columns. */
  method DrawdownColumns(v: seq<real>, guarded: bool) returns (peak: array<real>, drawdown: array<real>)
    requires |v| > 0 && v[0] > 0.0
    ensures peak.Length == |v| && drawdown.Length == |v|
    ensures forall i :: 0 <= i < |v| ==> peak[i] == RunningPeak(v, i) && drawdown[i] == Drawdown(v, i, guarded)
  {
    peak := PeakColumn(v);
    drawdown := DrawdownFromPeaks(v, peak, guarded);
  }

  /** `drawdown.min()`. */
  method ColumnMin(drawdown: array<real>, v: seq<real>, guarded: bool) returns (m: real)
    requires |v| > 0 && v[0] > 0.0 && drawdown.Length == |v|
    requires forall i :: 0 <= i < |v| ==> drawdown[i] == Drawdown(v, i, guarded)
    ensures m == MaxDrawdown(v, guarded)
  {
    m := drawdown[0];
    for i := 1 to |v|
      invariant m == MinDrawdown(v, i, guarded)
    {
      if drawdown[i] < m {
        m := drawdown[i];
      }
    }
  }

  /** `downside_returns[downside_returns > 0] = 0`. */
  method ClampInPlace(a: array<real>)
    modifies a
    ensures a[..] == ClampPositive(old(a[..]))
  {
    for i := 0 to a.Length
      invariant forall j :: 0 <= j < i ==> a[j] == if old(a[j]) > 0.0 then 0.0 else old(a[j])
      invariant forall j :: i <= j < a.Length ==> a[j] == old(a[j])
    {
      if a[i] > 0.0 {
        a[i] := 0.0;
      }
    }
  }

  /** The downside deviation, computed on a fresh array clamped in place. */
  method DownsideDeviation(r: seq<real>, dailyRf: real, an: Analytic) returns (d: real)
    requires |r| > 0
    ensures d == DownsideStd(r, dailyRf, an)
  {
    var downside := new real[|r|](i requires 0 <= i < |r| => r[i] - dailyRf);
    assert downside[..] == Shift(r, dailyRf);
    ClampInPlace(downside);
    d := Sqrt(an, SumOfSquares(downside[..]) / downside.Length as real) * Sqrt(an, TRADING_DAYS_PER_YEAR);
  }

  /** The maximum drawdown through the `peak` and `drawdown` columns. */
  method MaxDrawdownOfColumns(v: seq<real>, guarded: bool) returns (mdd: real)
    requires |v| > 0 && v[0] > 0.0
    ensures mdd == MaxDrawdown(v, guarded)
  {
    var peak, drawdown := DrawdownColumns(v, guarded);
    mdd := ColumnMin(drawdown, v, guarded);
  }

  /** The volatility and ratio part of `calculate_metrics`. */
  method ComputeRatioFigures(r: seq<real>, cagr: real, rf: real, an: Analytic) returns (annualStd: real, sharpe: real, sortino: real)
    requires |r| >= 2
    ensures (annualStd, sharpe, sortino) == RatioFigures(r, cagr, rf, an)
  {
    annualStd := AnnualStd(r, an);
    var excess := cagr - rf;
    sharpe := Normalize(Ratio(excess, annualStd + EPS));
    var downsideStd := DownsideDeviation(r, DailyRiskFree(rf, an), an);
    sortino := 0.0;
    if downsideStd > EPS {
      sortino := excess / downsideStd;
    }
    assert sortino == SortinoOf(excess, downsideStd);
  }

  /** `calculate_metrics`, with its column writes and in-place clamp. */
  method CalculateMetrics(h: seq<Point>, benchmark: Option<seq<Point>>, rf: real, an: Analytic) returns (m: Metrics)
    requires Admissible(h, benchmark)
    ensures m == MetricsOf(h, benchmark, rf, an)
  {
    if |h| < 2 {
      return Metrics(0.0, 0.0, 0.0, 0.0, 0.0, None, None);
    }
    var startValue := h[0].value;
    var endValue := h[|h| - 1].value;
    if startValue < EPS {
      return Metrics(0.0, -1.0, 0.0, 0.0, 0.0, None, None);
    }
    var years := Years(h);
    var cagr := Cagr(an, startValue, endValue, years);
    var mdd := MaxDrawdownOfColumns(ValuesOf(h), true);
    var dailyReturns := PctChange(h);
    if |dailyReturns| < 2 {
      return Metrics(cagr, mdd, 0.0, 0.0, 0.0, None, None);
    }
    var annualStd, sharpe, sortino := ComputeRatioFigures(ValuesOf(dailyReturns), cagr, rf, an);
    var ba := BetaAlpha(dailyReturns, benchmark, years, cagr, rf, an);
    m := Metrics(cagr, mdd, annualStd, sharpe, sortino, ba.0, ba.1);
  }

  // ---------------------------------------------------------------------
  // Properties of the metrics

  /**
    The degenerate branches, in the order they are tried: fewer than two
    points, then a start value below EPS, then fewer than two returns.
   */
  lemma DegenerateBranches(h: seq<Point>, benchmark: Option<seq<Point>>, rf: real, an: Analytic)
    requires Admissible(h, benchmark)
    ensures |h| < 2 ==> MetricsOf(h, benchmark, rf, an) == Metrics(0.0, 0.0, 0.0, 0.0, 0.0, None, None)
    ensures |h| >= 2 && h[0].value < EPS ==> MetricsOf(h, benchmark, rf, an) == Metrics(0.0, -1.0, 0.0, 0.0, 0.0, None, None)
    ensures |h| == 2 && h[0].value >= EPS ==>
      var m := MetricsOf(h, benchmark, rf, an);
      m.volatility == 0.0 && m.sharpe == 0.0 && m.sortino == 0.0 && m.beta.None? && m.alpha.None?
      && m.cagr == Cagr(an, h[0].value, h[1].value, Years(h)) && m.mdd == MaxDrawdown(ValuesOf(h), true)
  {
  }

  /**
    The maximum drawdown is never positive; with non-negative values it is
    at least -1, and strictly above -1 once the start value reaches EPS.
   */
  lemma MaxDrawdownRange(h: seq<Point>, benchmark: Option<seq<Point>>, rf: real, an: Analytic)
    requires Admissible(h, benchmark)
    ensures MetricsOf(h, benchmark, rf, an).mdd <= 0.0
    ensures (forall i :: 0 <= i < |h| ==> h[i].value >= 0.0) ==> MetricsOf(h, benchmark, rf, an).mdd >= -1.0
    ensures |h| >= 2 && h[0].value >= EPS && (forall i :: 0 <= i < |h| ==> h[i].value >= 0.0) ==>
      MetricsOf(h, benchmark, rf, an).mdd > -1.0
  {
    if |h| >= 2 && h[0].value >= EPS {
      MaxDrawdownBounds(ValuesOf(h), true);
    }
  }

  /** A value found by `Lookup` is the value of a point of `b` on that date. */
  lemma {:induction false} LookupFound(b: seq<Point>, d: Date) returns (j: nat)
    requires Lookup(b, d).Some?
    ensures j < |b| && b[j].date == d && b[j].value == Lookup(b, d).value
  {
    if b[0].date == d {
      j := 0;
    } else {
      j := LookupFound(b[1..], d);
      j := j + 1;
    }
  }

  /** A row of the inner join pairs a return of each series, dated alike. */
  lemma {:induction false} AlignedRowsComeFromBoth(p: seq<Point>, b: seq<Point>, k: nat)
    requires k < |Align(p, b)|
    ensures |b| > 0
    ensures exists i :: 0 <= i < |p| && p[i].date == Align(p, b)[k].date && p[i].value == Align(p, b)[k].portfolio
    ensures exists j :: 0 <= j < |b| && b[j].date == Align(p, b)[k].date && b[j].value == Align(p, b)[k].benchmark
  {
    var a := Align(p, b);
    var prev := Align(p[..|p| - 1], b);
    var last := p[|p| - 1];
    if k < |prev| {
      AlignedRowsComeFromBoth(p[..|p| - 1], b, k);
      var i :| 0 <= i < |p| - 1 && p[..|p| - 1][i].date == prev[k].date && p[..|p| - 1][i].value == prev[k].portfolio;
      assert p[i].date == a[k].date && p[i].value == a[k].portfolio;
      assert a[k] == prev[k];
    } else {
      assert Lookup(b, last.date).Some?;
      assert a[k] == AlignedRow(last.date, last.value, Lookup(b, last.date).value);
      var j := LookupFound(b, last.date);
      assert p[|p| - 1].date == a[k].date && p[|p| - 1].value == a[k].portfolio;
    }
  }

  /**
    The inner join loses no portfolio return whose date the benchmark has:
    it appears as a row carrying its own value and the benchmark's value on
    that date.
   */
  lemma {:induction false} AlignComplete(p: seq<Point>, b: seq<Point>, i: nat) returns (k: nat)
    requires i < |p| && exists j :: 0 <= j < |b| && b[j].date == p[i].date
    ensures k < |Align(p, b)|
    ensures Align(p, b)[k] == AlignedRow(p[i].date, p[i].value, Lookup(b, p[i].date).value)
  {
    var prev := Align(p[..|p| - 1], b);
    if i == |p| - 1 {
      k := |prev|;
    } else {
      assert p[..|p| - 1][i] == p[i];
      k := AlignComplete(p[..|p| - 1], b, i);
      assert Align(p, b)[k] == prev[k];
    }
  }

  /**
    Beta is set exactly when a non-empty benchmark is given, there are at
    least two returns, more than one of them pairs with a benchmark return
    on its date, and the benchmark variance over the pairs exceeds EPS;
    alpha is set exactly when beta is.
   */
  lemma BetaConditions(h: seq<Point>, benchmark: Option<seq<Point>>, rf: real, an: Analytic)
    requires Admissible(h, benchmark)
    ensures var m := MetricsOf(h, benchmark, rf, an);
      m.beta.Some? <==>
        |h| >= 3 && h[0].value >= EPS && benchmark.Some? && |benchmark.value| > 0
        && |Align(PctChange(h), PctChange(benchmark.value))| > 1
        && SampleVariance(BenchmarkColumn(Align(PctChange(h), PctChange(benchmark.value)))) > EPS
    ensures var m := MetricsOf(h, benchmark, rf, an);
      m.alpha.Some? <==> m.beta.Some?
  {
    if |h| >= 3 && h[0].value >= EPS && benchmark.Some? && |benchmark.value| > 0 {
      var b := benchmark.value;
      var aligned := Align(PctChange(h), PctChange(b));
      if |aligned| > 1 {
        AlignedRowsComeFromBoth(PctChange(h), PctChange(b), 0);
        assert |PctChange(b)| > 0;
        assert b[0].value != 0.0;
      }
    }
  }

  /** Sortino is non-zero only when there are returns and their downside deviation exceeds EPS. */
  lemma SortinoNeedsDownside(h: seq<Point>, benchmark: Option<seq<Point>>, rf: real, an: Analytic)
    requires Admissible(h, benchmark)
    ensures MetricsOf(h, benchmark, rf, an).sortino != 0.0 ==>
      |h| >= 3 && h[0].value >= EPS && DownsideStd(ValuesOf(PctChange(h)), DailyRiskFree(rf, an), an) > EPS
  {
  }

  /** A point's date found in a series with distinct dates gives that point's value. */
  lemma {:induction false} LookupDistinct(b: seq<Point>, i: nat)
    requires i < |b| && forall j, k :: 0 <= j < k < |b| ==> b[j].date != b[k].date
    ensures Lookup(b, b[i].date) == Some(b[i].value)
  {
    if i > 0 {
      assert b[0].date != b[i].date;
      assert b[1..][i - 1] == b[i];
      LookupDistinct(b[1..], i - 1);
    }
  }

  /** Aligning a series with distinct dates with itself pairs every value with itself. */
  lemma {:induction false} AlignWithItself(p: seq<Point>, q: seq<Point>)
    requires |p| <= |q| && p == q[..|p|]
    requires forall j, k :: 0 <= j < k < |q| ==> q[j].date != q[k].date
    ensures PortfolioColumn(Align(p, q)) == ValuesOf(p)
    ensures BenchmarkColumn(Align(p, q)) == ValuesOf(p)
  {
    if |p| > 0 {
      var m := |p| - 1;
      assert p[..m] == q[..m];
      AlignWithItself(p[..m], q);
      LookupDistinct(q, m);
      var prev := Align(p[..m], q);
      var a := Align(p, q);
      assert a == prev + [AlignedRow(p[m].date, p[m].value, p[m].value)];
      assert PortfolioColumn(a) == PortfolioColumn(prev) + [p[m].value];
      assert BenchmarkColumn(a) == BenchmarkColumn(prev) + [p[m].value];
      assert ValuesOf(p) == ValuesOf(p[..m]) + [p[m].value];
    }
  }

  /** Returns dated at the later point inherit distinct dates from the series. */
  lemma ReturnsDatesDistinct(h: seq<Point>)
    requires DenominatorsNonZero(h) && forall j, k :: 0 <= j < k < |h| ==> h[j].date != h[k].date
    ensures var r := PctChange(h); forall j, k :: 0 <= j < k < |r| ==> r[j].date != r[k].date
  {
    var r := PctChange(h);
    forall j, k | 0 <= j < k < |r| ensures r[j].date != r[k].date {
      assert r[j].date == h[j + 1].date && r[k].date == h[k + 1].date;
    }
  }

  /**
    When the aligned columns coincide, beta is 1 and alpha is the excess of
    the portfolio's CAGR over the benchmark's.
   */
  lemma BetaAlphaOfIdenticalColumns(dr: seq<Point>, b: seq<Point>, years: real, cagr: real, rf: real, an: Analytic)
    requires |b| > 0 && DenominatorsNonZero(b) && (years > 0.0 ==> b[0].value != 0.0)
    requires |Align(dr, PctChange(b))| > 1
    requires PortfolioColumn(Align(dr, PctChange(b))) == BenchmarkColumn(Align(dr, PctChange(b)))
    requires SampleVariance(BenchmarkColumn(Align(dr, PctChange(b)))) > EPS
    ensures BetaAlpha(dr, Some(b), years, cagr, rf, an)
      == (Some(1.0), Some(cagr - (rf + 1.0 * (Cagr(an, b[0].value, b[|b| - 1].value, years) - rf))))
  {
    var ys := BenchmarkColumn(Align(dr, PctChange(b)));
    var xs := PortfolioColumn(Align(dr, PctChange(b)));
    var v := SampleVariance(ys);
    assert SampleCovariance(xs, ys) == v;
    assert v / v == 1.0;
  }

  /**
    A portfolio measured against itself (distinct dates, varying returns)
    has beta 1 and alpha 0.
   */
  lemma BenchmarkItself(h: seq<Point>, rf: real, an: Analytic)
    requires |h| >= 3 && h[0].value >= EPS && DenominatorsNonZero(h)
    requires forall j, k :: 0 <= j < k < |h| ==> h[j].date != h[k].date
    requires SampleVariance(ValuesOf(PctChange(h))) > EPS
    ensures Admissible(h, Some(h))
    ensures MetricsOf(h, Some(h), rf, an).beta == Some(1.0)
    ensures MetricsOf(h, Some(h), rf, an).alpha == Some(0.0)
  {
    var r := PctChange(h);
    ReturnsDatesDistinct(h);
    assert r[..|r|] == r;
    AlignWithItself(r, r);
    var years := Years(h);
    var cagr := Cagr(an, h[0].value, h[|h| - 1].value, years);
    BetaAlphaOfIdenticalColumns(r, h, years, cagr, rf, an);
  }
}
