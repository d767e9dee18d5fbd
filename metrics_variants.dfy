/**
  The `calculate_metrics` of the earlier revisions: month-end returns in
  api/index_v1.py and api/index_v0.py, daily returns with explicit
  infinities and no EPS guard in api/index.py.
 */
module MetricsVariants {
  import opened Dates
  import opened Stats
  import opened Metrics

  const MONTHS_PER_YEAR: real := 12.0

  /** The four figures both earlier layouts return. */
  datatype MonthlyMetrics = MonthlyMetrics(cagr: real, mdd: real, sharpe: real, sortino: real)

  /** The two revisions with month-end ratios. */
  datatype MonthlyRevision = V1 | V0

  /** The default `risk_free_rate` each revision's `run_simulation` leaves in place. */
  function DefaultRiskFree(rev: MonthlyRevision): real {
    match rev
    case V1 => 0.0
    case V0 => 0.02
  }

  predicate SameMonth(a: Date, b: Date) {
    a.year == b.year && a.month == b.month
  }

  /**
    `resample('M').last()` for a history without empty months: the last
    point of each run of points in one calendar month.
   */
  function MonthEnds(h: seq<Point>): (e: seq<Point>)
    ensures |e| <= |h|
    ensures |h| > 0 ==> |e| > 0 && e[|e| - 1] == h[|h| - 1]
  {
    if |h| <= 1 then h
    else if SameMonth(h[0].date, h[1].date) then MonthEnds(h[1..])
    else [h[0]] + MonthEnds(h[1..])
  }

  /** Each month-end point is a point of the history that is the last of its month. */
  lemma {:induction false} MonthEndsAreLastOfMonth(h: seq<Point>, k: nat) returns (i: nat)
    requires k < |MonthEnds(h)|
    ensures i < |h| && MonthEnds(h)[k] == h[i]
    ensures i + 1 < |h| ==> !SameMonth(h[i].date, h[i + 1].date)
  {
    if |h| <= 1 {
      i := k;
    } else if SameMonth(h[0].date, h[1].date) {
      var j := MonthEndsAreLastOfMonth(h[1..], k);
      i := j + 1;
    } else if k == 0 {
      i := 0;
    } else {
      assert MonthEnds(h)[k] == MonthEnds(h[1..])[k - 1];
      var j := MonthEndsAreLastOfMonth(h[1..], k - 1);
      i := j + 1;
    }
  }

  /** Point i of h is the last of its month: the history ends or the next point opens a new month. */
  predicate IsLastOfMonth(h: seq<Point>, i: nat)
    requires i < |h|
  {
    i + 1 == |h| || !SameMonth(h[i].date, h[i + 1].date)
  }

  /** The points of h from index j on that are the last of their month, in index order. */
  function LastsOfMonths(h: seq<Point>, j: nat): seq<Point>
    requires j <= |h|
    decreases |h| - j
  {
    if j == |h| then []
    else (if IsLastOfMonth(h, j) then [h[j]] else []) + LastsOfMonths(h, j + 1)
  }

  /** The month-end points are exactly the points that end their month, in index order. */
  lemma {:induction false} MonthEndsAreLastsOfMonths(h: seq<Point>, j: nat)
    requires j <= |h|
    ensures MonthEnds(h[j..]) == LastsOfMonths(h, j)
    decreases |h| - j
  {
    if j < |h| {
      MonthEndsAreLastsOfMonths(h, j + 1);
      var t := h[j..];
      assert t[0] == h[j];
      if |t| > 1 {
        assert t[1] == h[j + 1];
        assert t[1..] == h[j + 1..];
      } else {
        assert h[j + 1..] == [];
      }
    }
  }

  /** Every point that is the last of its month is a month-end point. */
  lemma {:induction false} LastOfMonthIsMonthEnd(h: seq<Point>, i: nat) returns (k: nat)
    requires i < |h| && IsLastOfMonth(h, i)
    ensures k < |MonthEnds(h)| && MonthEnds(h)[k] == h[i]
  {
    MonthEndsAreLastsOfMonths(h, 0);
    assert h[0..] == h;
    k := LastInLasts(h, 0, i);
  }

  /** A last-of-its-month point at or after index j appears in the filter from j. */
  lemma {:induction false} LastInLasts(h: seq<Point>, j: nat, i: nat) returns (k: nat)
    requires j <= i < |h| && IsLastOfMonth(h, i)
    ensures k < |LastsOfMonths(h, j)| && LastsOfMonths(h, j)[k] == h[i]
    decreases i - j
  {
    if j == i {
      k := 0;
    } else {
      var k' := LastInLasts(h, j + 1, i);
      k := if IsLastOfMonth(h, j) then k' + 1 else k';
    }
  }

  /** No `pct_change` the monthly layout takes divides by zero. */
  predicate MonthlyAdmissible(h: seq<Point>) {
    |h| >= 2 && h[0].value >= EPS ==> DenominatorsNonZero(MonthEnds(h))
  }

  /** `(1 + risk_free_rate) ** (1 / 12) - 1`. */
  function MonthlyRiskFree(rf: real, an: Analytic): real {
    Pow(an, 1.0 + rf, 1.0 / MONTHS_PER_YEAR) - 1.0
  }

  /** `sqrt(sum of squared clamped excess returns / number of returns)`. */
  function MonthlyDownsideStd(excess: seq<real>, an: Analytic): real
    requires |excess| > 0
  {
    Sqrt(an, SumOfSquares(ClampPositive(excess)) / |excess| as real)
  }

  /**
    The Sortino ratio before normalisation: annualised when the downside
    deviation exceeds EPS, infinite when there is none and the mean excess
    return is positive, zero otherwise.
   */
  function MonthlySortino(meanExcess: real, downsideStd: real, an: Analytic): Extended {
    if downsideStd > EPS then Finite(meanExcess / downsideStd * Sqrt(an, MONTHS_PER_YEAR))
    else if meanExcess > 0.0 then NonFinite
    else Finite(0.0)
  }

  /**
    Sharpe and Sortino from at least two month-end returns: Sharpe only
    when the excess returns deviate by more than EPS, Sortino normalised.
   */
  function MonthlyRatios(rev: MonthlyRevision, monthly: seq<real>, an: Analytic): (real, real)
    requires |monthly| >= 2
  {
    var excess := Shift(monthly, MonthlyRiskFree(DefaultRiskFree(rev), an));
    var meanExcess := Mean(excess);
    var stdExcess := Sqrt(an, SampleVariance(excess));
    var sharpe := if stdExcess > EPS then meanExcess / stdExcess * Sqrt(an, MONTHS_PER_YEAR) else 0.0;
    (sharpe, Normalize(MonthlySortino(meanExcess, MonthlyDownsideStd(excess, an), an)))
  }

  /** The metrics of api/index_v1.py and api/index_v0.py, branch for branch. */
  function MonthlyMetricsOf(rev: MonthlyRevision, h: seq<Point>, an: Analytic): MonthlyMetrics
    requires MonthlyAdmissible(h)
  {
    if |h| < 2 then MonthlyMetrics(0.0, 0.0, 0.0, 0.0)
    else
      var startValue := h[0].value;
      var endValue := h[|h| - 1].value;
      if startValue < EPS then MonthlyMetrics(0.0, -1.0, 0.0, 0.0)
      else
        var cagr := Cagr(an, startValue, endValue, Years(h));
        var mdd := MaxDrawdown(ValuesOf(h), true);
        var monthly := ValuesOf(PctChange(MonthEnds(h)));
        if |monthly| < 2 then MonthlyMetrics(cagr, mdd, 0.0, 0.0)
        else
          var ratios := MonthlyRatios(rev, monthly, an);
          MonthlyMetrics(cagr, mdd, ratios.0, ratios.1)
  }

  /** The monthly downside deviation, computed on a copy clamped in place. */
  method MonthlyDownsideDeviation(excess: seq<real>, an: Analytic) returns (d: real)
    requires |excess| > 0
    ensures d == MonthlyDownsideStd(excess, an)
  {
    var downside := new real[|excess|](i requires 0 <= i < |excess| => excess[i]);
    assert downside[..] == excess;
    ClampInPlace(downside);
    d := Sqrt(an, SumOfSquares(downside[..]) / |excess| as real);
  }

  /** The ratio part of the monthly `calculate_metrics`. */
  method ComputeMonthlyRatios(rev: MonthlyRevision, monthly: seq<real>, an: Analytic) returns (sharpe: real, sortino: real)
    requires |monthly| >= 2
    ensures (sharpe, sortino) == MonthlyRatios(rev, monthly, an)
  {
    var excess := Shift(monthly, MonthlyRiskFree(DefaultRiskFree(rev), an));
    var meanExcess := Mean(excess);
    var stdExcess := Sqrt(an, SampleVariance(excess));
    sharpe := 0.0;
    if stdExcess > EPS {
      sharpe := meanExcess / stdExcess * Sqrt(an, MONTHS_PER_YEAR);
    }
    var downsideStd := MonthlyDownsideDeviation(excess, an);
    var ratio := Finite(0.0);
    if downsideStd > EPS {
      ratio := Finite(meanExcess / downsideStd * Sqrt(an, MONTHS_PER_YEAR));
    } else if meanExcess > 0.0 {
      ratio := NonFinite;
    }
    sortino := Normalize(ratio);
    assert ratio == MonthlySortino(meanExcess, downsideStd, an);
    assert sharpe == MonthlyRatios(rev, monthly, an).0;
  }

  /** The monthly `calculate_metrics`, with its column writes and in-place clamp. */
  method CalculateMonthlyMetrics(rev: MonthlyRevision, h: seq<Point>, an: Analytic) returns (m: MonthlyMetrics)
    requires MonthlyAdmissible(h)
    ensures m == MonthlyMetricsOf(rev, h, an)
  {
    if |h| < 2 {
      return MonthlyMetrics(0.0, 0.0, 0.0, 0.0);
    }
    var startValue := h[0].value;
    var endValue := h[|h| - 1].value;
    if startValue < EPS {
      return MonthlyMetrics(0.0, -1.0, 0.0, 0.0);
    }
    var cagr := Cagr(an, startValue, endValue, Years(h));
    var mdd := MaxDrawdownOfColumns(ValuesOf(h), true);
    var monthly := ValuesOf(PctChange(MonthEnds(h)));
    if |monthly| < 2 {
      return MonthlyMetrics(cagr, mdd, 0.0, 0.0);
    }
    var sharpe, sortino := ComputeMonthlyRatios(rev, monthly, an);
    m := MonthlyMetrics(cagr, mdd, sharpe, sortino);
  }

  /**
    The degenerate branches in order: fewer than two points gives all
    zeros, a start value below EPS gives cagr 0 and mdd -1, fewer than two
    month-end returns keeps cagr and mdd and leaves both ratios 0.
   */
  lemma MonthlyDegenerateBranches(rev: MonthlyRevision, h: seq<Point>, an: Analytic)
    requires MonthlyAdmissible(h)
    ensures |h| < 2 ==> MonthlyMetricsOf(rev, h, an) == MonthlyMetrics(0.0, 0.0, 0.0, 0.0)
    ensures |h| >= 2 && h[0].value < EPS ==> MonthlyMetricsOf(rev, h, an) == MonthlyMetrics(0.0, -1.0, 0.0, 0.0)
    ensures |h| >= 2 && h[0].value >= EPS && |MonthEnds(h)| < 3 ==>
      var m := MonthlyMetricsOf(rev, h, an);
      m.sharpe == 0.0 && m.sortino == 0.0
      && m.cagr == Cagr(an, h[0].value, h[|h| - 1].value, Years(h)) && m.mdd == MaxDrawdown(ValuesOf(h), true)
  {
  }

  /** Sharpe is non-zero only when the standard deviation of the excess returns exceeds EPS. */
  lemma MonthlySharpeNeedsDeviation(rev: MonthlyRevision, h: seq<Point>, an: Analytic)
    requires MonthlyAdmissible(h)
    ensures MonthlyMetricsOf(rev, h, an).sharpe != 0.0 ==>
      |h| >= 2 && h[0].value >= EPS && |MonthEnds(h)| >= 3
      && Sqrt(an, SampleVariance(Shift(ValuesOf(PctChange(MonthEnds(h))), MonthlyRiskFree(DefaultRiskFree(rev), an)))) > EPS
  {
  }

  /**
    A positive mean excess return without downside deviation makes Sortino
    infinite, and normalisation then reports it as 0.
   */
  lemma MonthlySortinoInfinityIsZeroed(rev: MonthlyRevision, h: seq<Point>, an: Analytic)
    requires MonthlyAdmissible(h) && |h| >= 2 && h[0].value >= EPS && |MonthEnds(h)| >= 3
    requires var excess := Shift(ValuesOf(PctChange(MonthEnds(h))), MonthlyRiskFree(DefaultRiskFree(rev), an));
      MonthlyDownsideStd(excess, an) <= EPS && Mean(excess) > 0.0
    ensures MonthlySortino(
        Mean(Shift(ValuesOf(PctChange(MonthEnds(h))), MonthlyRiskFree(DefaultRiskFree(rev), an))),
        MonthlyDownsideStd(Shift(ValuesOf(PctChange(MonthEnds(h))), MonthlyRiskFree(DefaultRiskFree(rev), an)), an),
        an).NonFinite?
    ensures MonthlyMetricsOf(rev, h, an).sortino == 0.0
  {
  }

  // ---------------------------------------------------------------------
  // api/index.py

  /** The figures of api/index.py; its ratios may be infinite and are returned as they are. */
  datatype DailyMetrics = DailyMetrics(cagr: real, mdd: real, sharpe: Extended, sortino: Extended)

  /** index.py's default `risk_free_rate`. */
  const ORIGINAL_RISK_FREE: real := 0.02

  /**
    index.py divides by the start value and by the running peak without a
    guard: the model asks for a positive start value (with which every peak
    is positive) and non-zero `pct_change` denominators.
   */
  predicate DailyAdmissible(h: seq<Point>) {
    |h| >= 2 ==> h[0].value > 0.0 && DenominatorsNonZero(h)
  }

  /**
    `negative_returns.std() * sqrt(252)` if there are more than one
    strictly negative returns, else 0.
   */
  function NegativeReturnsStd(r: seq<real>, an: Analytic): real {
    var neg := Negatives(r);
    if |neg| > 1 then Sqrt(an, SampleVariance(neg)) * Sqrt(an, TRADING_DAYS_PER_YEAR) else 0.0
  }

  /** `x / d if d != 0 else float('inf')`. */
  function RatioOrInfinity(x: real, d: real): (e: Extended)
    ensures e.NonFinite? <==> d == 0.0
  {
    if d != 0.0 then Finite(x / d) else NonFinite
  }

  /** The metrics of api/index.py, branch for branch. */
  function DailyMetricsOf(h: seq<Point>, an: Analytic): DailyMetrics
    requires DailyAdmissible(h)
  {
    if |h| < 2 then DailyMetrics(0.0, 0.0, Finite(0.0), Finite(0.0))
    else
      var cagr := Cagr(an, h[0].value, h[|h| - 1].value, Years(h));
      var mdd := MaxDrawdown(ValuesOf(h), false);
      var r := ValuesOf(PctChange(h));
      if |r| < 2 then DailyMetrics(cagr, mdd, NonFinite, NonFinite)
      else
        var excess := cagr - ORIGINAL_RISK_FREE;
        var annualStd := AnnualStd(r, an);
        DailyMetrics(cagr, mdd, RatioOrInfinity(excess, annualStd), RatioOrInfinity(excess, NegativeReturnsStd(r, an)))
  }

  /** index.py's `calculate_metrics`, with its peak and drawdown column writes. */
  method CalculateDailyMetrics(h: seq<Point>, an: Analytic) returns (m: DailyMetrics)
    requires DailyAdmissible(h)
    ensures m == DailyMetricsOf(h, an)
  {
    if |h| < 2 {
      return DailyMetrics(0.0, 0.0, Finite(0.0), Finite(0.0));
    }
    var cagr := Cagr(an, h[0].value, h[|h| - 1].value, Years(h));
    var mdd := MaxDrawdownOfColumns(ValuesOf(h), false);
    var r := ValuesOf(PctChange(h));
    if |r| < 2 {
      return DailyMetrics(cagr, mdd, NonFinite, NonFinite);
    }
    var excess := cagr - ORIGINAL_RISK_FREE;
    var annualStd := AnnualStd(r, an);
    var sharpe := if annualStd != 0.0 then Finite(excess / annualStd) else NonFinite;
    var downsideStd := NegativeReturnsStd(r, an);
    var sortino := if downsideStd != 0.0 then Finite(excess / downsideStd) else NonFinite;
    m := DailyMetrics(cagr, mdd, sharpe, sortino);
  }

  /**
    Two points give a single return: both ratios are infinite, and cagr
    and mdd are still computed.
   */
  lemma DailyTooFewReturns(h: seq<Point>, an: Analytic)
    requires DailyAdmissible(h) && |h| == 2
    ensures DailyMetricsOf(h, an).sharpe.NonFinite? && DailyMetricsOf(h, an).sortino.NonFinite?
    ensures DailyMetricsOf(h, an).mdd == MaxDrawdown(ValuesOf(h), false)
  {
  }

  /**
    With at least two returns, Sharpe is infinite exactly when the
    annualised standard deviation is 0, and Sortino is infinite whenever
    fewer than two returns are strictly negative.
   */
  lemma DailyInfinities(h: seq<Point>, an: Analytic)
    requires DailyAdmissible(h) && |h| >= 3
    ensures DailyMetricsOf(h, an).sharpe.NonFinite? <==> AnnualStd(ValuesOf(PctChange(h)), an) == 0.0
    ensures |Negatives(ValuesOf(PctChange(h)))| <= 1 ==> DailyMetricsOf(h, an).sortino.NonFinite?
  {
  }

  /**
    Without the EPS guard the maximum drawdown still lies in [-1, 0] for
    non-negative values.
   */
  lemma DailyDrawdownRange(h: seq<Point>, an: Analytic)
    requires DailyAdmissible(h) && forall i :: 0 <= i < |h| ==> h[i].value >= 0.0
    ensures -1.0 <= DailyMetricsOf(h, an).mdd <= 0.0
  {
    if |h| >= 2 {
      MaxDrawdownBounds(ValuesOf(h), false);
    }
  }
}
