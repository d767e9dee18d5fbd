/**
  Real-arithmetic building blocks of the backtest: sums and dot products,
  value series and their period returns, sample statistics, running peaks
  and drawdowns, and the explicit tag for the non-finite values numpy can
  produce.
 */
module Stats {
  import opened Dates

  /** `EPSILON = 1e-9` of every revision. */
  const EPS: real := 0.000000001

  /** `.sum()`, accumulated left to right. */
  function Sum(s: seq<real>): real {
    if |s| == 0 then 0.0 else Sum(s[..|s| - 1]) + s[|s| - 1]
  }

  /** `(a * b).sum()` of two aligned numpy vectors. */
  function Dot(a: seq<real>, b: seq<real>): real
    requires |a| == |b|
  {
    if |a| == 0 then 0.0 else Dot(a[..|a| - 1], b[..|b| - 1]) + a[|a| - 1] * b[|b| - 1]
  }

  lemma {:induction false} DotSelfNonNegative(a: seq<real>)
    ensures Dot(a, a) >= 0.0
  {
    if |a| > 0 {
      DotSelfNonNegative(a[..|a| - 1]);
      assert a[|a| - 1] * a[|a| - 1] >= 0.0;
    }
  }

  function Mean(s: seq<real>): real
    requires |s| > 0
  {
    Sum(s) / |s| as real
  }

  /** `s - c`, elementwise. */
  function Shift(s: seq<real>, c: real): (r: seq<real>)
    ensures |r| == |s|
  {
    seq(|s|, i requires 0 <= i < |s| => s[i] - c)
  }

  /**
    `x[x > 0] = 0`: the in-place clamp the metrics apply to the downside
    returns, as a function of the returns.
   */
  function ClampPositive(s: seq<real>): (r: seq<real>)
    ensures |r| == |s|
  {
    seq(|s|, i requires 0 <= i < |s| => if s[i] > 0.0 then 0.0 else s[i])
  }

  /** The clamp keeps every non-positive entry and zeroes every positive one. */
  lemma ClampPositiveEntries(s: seq<real>, i: nat)
    requires i < |s|
    ensures ClampPositive(s)[i] <= 0.0
    ensures ClampPositive(s)[i] == 0.0 <==> s[i] >= 0.0
    ensures s[i] <= 0.0 ==> ClampPositive(s)[i] == s[i]
  {
  }

  /** `(x ** 2).sum()`. */
  function SumOfSquares(s: seq<real>): (r: real)
    ensures r >= 0.0
  {
    DotSelfNonNegative(s);
    Dot(s, s)
  }

  /** pandas' sample covariance (`ddof = 1`) of two aligned columns. */
  function SampleCovariance(xs: seq<real>, ys: seq<real>): real
    requires |xs| == |ys| >= 2
  {
    Dot(Shift(xs, Mean(xs)), Shift(ys, Mean(ys))) / (|xs| - 1) as real
  }

  /** pandas' sample variance (`ddof = 1`): the covariance of a column with itself. */
  function SampleVariance(xs: seq<real>): (v: real)
    requires |xs| >= 2
    ensures v >= 0.0
  {
    DotSelfNonNegative(Shift(xs, Mean(xs)));
    SampleCovariance(xs, xs)
  }

  /** The elements of `s` that satisfy `x < 0`, in order (`s[s < 0]`). */
  function Negatives(s: seq<real>): (r: seq<real>)
    ensures |r| <= |s|
    ensures forall x :: x in r <==> x in s && x < 0.0
  {
    if |s| == 0 then []
    else (if s[0] < 0.0 then [s[0]] else []) + Negatives(s[1..])
  }

  /** `s[s < 0]` keeps every negative value as often as it occurs, and nothing else. */
  lemma {:induction false} NegativesMultiplicity(s: seq<real>)
    ensures forall x :: multiset(Negatives(s))[x] == if x < 0.0 then multiset(s)[x] else 0
  {
    if |s| > 0 {
      NegativesMultiplicity(s[1..]);
      assert s == [s[0]] + s[1..];
      assert multiset(s) == multiset{s[0]} + multiset(s[1..]);
      var head := if s[0] < 0.0 then [s[0]] else [];
      assert multiset(Negatives(s)) == multiset(head) + multiset(Negatives(s[1..]));
    }
  }

  /** `s[s < 0]` keeps the order of `s`: filtering distributes over concatenation. */
  lemma {:induction false} NegativesAppend(a: seq<real>, b: seq<real>)
    ensures Negatives(a + b) == Negatives(a) + Negatives(b)
  {
    if |a| == 0 {
      assert a + b == b;
    } else {
      var head := if a[0] < 0.0 then [a[0]] else [];
      assert (a + b)[0] == a[0];
      assert (a + b)[1..] == a[1..] + b;
      NegativesAppend(a[1..], b);
      calc {
        Negatives(a + b);
        head + Negatives(a[1..] + b);
        head + (Negatives(a[1..]) + Negatives(b));
        (head + Negatives(a[1..])) + Negatives(b);
      }
    }
  }

  /** A point of a value series: pandas' `(date, value)` row. */
  datatype Point = Point(date: Date, value: real)

  function ValuesOf(s: seq<Point>): (r: seq<real>)
    ensures |r| == |s| && forall i :: 0 <= i < |s| ==> r[i] == s[i].value
  {
    seq(|s|, i requires 0 <= i < |s| => s[i].value)
  }

  /** Every value that `pct_change` divides by is non-zero (no IEEE infinity or NaN arises). */
  predicate DenominatorsNonZero(s: seq<Point>) {
    forall i :: 0 <= i < |s| - 1 ==> s[i].value != 0.0
  }

  /**
    `pct_change().dropna()`: the return of each point over its predecessor,
    dated at the later point; the first point has none.
   */
  function PctChange(s: seq<Point>): (r: seq<Point>)
    requires DenominatorsNonZero(s)
    ensures |s| > 0 ==> |r| == |s| - 1
    ensures |s| == 0 ==> r == []
    ensures forall i :: 0 <= i < |r| ==> r[i].date == s[i + 1].date
  {
    if |s| == 0 then []
    else seq(|s| - 1, i requires 0 <= i < |s| - 1 => Point(s[i + 1].date, s[i + 1].value / s[i].value - 1.0))
  }

  /** Each return is the change over the previous value, relative to that value. */
  lemma PctChangeAt(s: seq<Point>, i: nat)
    requires DenominatorsNonZero(s) && i + 1 < |s|
    ensures PctChange(s)[i].value * s[i].value == s[i + 1].value - s[i].value
  {
  }

  /** `cummax()` at position `i`: the largest value up to and including `i`. */
  function RunningPeak(v: seq<real>, i: nat): (p: real)
    requires i < |v|
    ensures v[0] <= p && v[i] <= p
  {
    if i == 0 then v[0]
    else
      var q := RunningPeak(v, i - 1);
      if v[i] > q then v[i] else q
  }

  /** The running peak bounds every value so far and is one of them. */
  lemma {:induction false} RunningPeakIsMaximum(v: seq<real>, i: nat) returns (j: nat)
    requires i < |v|
    ensures forall k :: 0 <= k <= i ==> v[k] <= RunningPeak(v, i)
    ensures j <= i && v[j] == RunningPeak(v, i)
  {
    if i == 0 {
      j := 0;
    } else {
      var j' := RunningPeakIsMaximum(v, i - 1);
      j := if v[i] > RunningPeak(v, i - 1) then i else j';
    }
  }

  /** Every revision's drawdown divisor: the peak, plus EPS in all but index.py. */
  function PeakDivisor(p: real, guarded: bool): real {
    if guarded then p + EPS else p
  }

  /** `(value - peak) / (peak [+ EPS])` at position `i`. */
  function Drawdown(v: seq<real>, i: nat, guarded: bool): (d: real)
    requires i < |v| && v[0] > 0.0
    ensures d <= 0.0
  {
    var p := RunningPeak(v, i);
    (v[i] - p) / PeakDivisor(p, guarded)
  }

  /** `drawdown.min()` over the first `n` positions. */
  function MinDrawdown(v: seq<real>, n: nat, guarded: bool): (m: real)
    requires 0 < n <= |v| && v[0] > 0.0
    ensures m <= 0.0
  {
    if n == 1 then Drawdown(v, 0, guarded)
    else
      var m := MinDrawdown(v, n - 1, guarded);
      var d := Drawdown(v, n - 1, guarded);
      if d < m then d else m
  }

  /** The minimum is below every drawdown so far and is one of them. */
  lemma {:induction false} MinDrawdownIsMinimum(v: seq<real>, n: nat, guarded: bool) returns (i: nat)
    requires 0 < n <= |v| && v[0] > 0.0
    ensures forall k :: 0 <= k < n ==> MinDrawdown(v, n, guarded) <= Drawdown(v, k, guarded)
    ensures i < n && MinDrawdown(v, n, guarded) == Drawdown(v, i, guarded)
  {
    if n == 1 {
      i := 0;
    } else {
      var i' := MinDrawdownIsMinimum(v, n - 1, guarded);
      i := if Drawdown(v, n - 1, guarded) < MinDrawdown(v, n - 1, guarded) then n - 1 else i';
    }
  }

  /** The maximum drawdown of a series whose first value is positive. */
  function MaxDrawdown(v: seq<real>, guarded: bool): real
    requires |v| > 0 && v[0] > 0.0
  {
    MinDrawdown(v, |v|, guarded)
  }

  /**
    The maximum drawdown is never positive; over non-negative values it
    stays above -1 with the EPS guard and at or above -1 without it.
   */
  lemma MaxDrawdownBounds(v: seq<real>, guarded: bool)
    requires |v| > 0 && v[0] > 0.0
    ensures MaxDrawdown(v, guarded) <= 0.0
    ensures (forall i :: 0 <= i < |v| ==> v[i] >= 0.0) ==>
      if guarded then MaxDrawdown(v, guarded) > -1.0 else MaxDrawdown(v, guarded) >= -1.0
  {
    if forall i :: 0 <= i < |v| ==> v[i] >= 0.0 {
      var i := MinDrawdownIsMinimum(v, |v|, guarded);
      DrawdownAboveMinusOne(v, i, guarded);
    }
  }

  lemma DrawdownAboveMinusOne(v: seq<real>, i: nat, guarded: bool)
    requires i < |v| && v[0] > 0.0 && v[i] >= 0.0
    ensures guarded ==> Drawdown(v, i, guarded) > -1.0
    ensures Drawdown(v, i, guarded) >= -1.0
  {
    var p := RunningPeak(v, i);
    var q := PeakDivisor(p, guarded);
    QuotientBound(v[i] - p, q, guarded);
  }

  lemma QuotientBound(x: real, q: real, strict: bool)
    requires q > 0.0 && x >= -q && (strict ==> x > -q)
    ensures x / q >= -1.0 && (strict ==> x / q > -1.0)
  {
    assert x / q * q == x;
  }

  /**
    An explicit tag for the values numpy can leave non-finite (`inf`, `-inf`
    or NaN): the result of a division by zero, or an infinity written out.
   */
  datatype Extended = Finite(value: real) | NonFinite

  /** `a / b` in floating point: non-finite exactly when `b` is zero. */
  function Ratio(a: real, b: real): (x: Extended)
    ensures x.NonFinite? <==> b == 0.0
    ensures x.Finite? ==> x.value * b == a
  {
    if b == 0.0 then NonFinite else Finite(a / b)
  }

  /** `if not np.isfinite(x) or np.isnan(x): x = 0.0`. */
  function Normalize(x: Extended): real {
    match x
    case Finite(v) => v
    case NonFinite => 0.0
  }

  /**
    The transcendental operations the metrics use, as parameters: the
    fractional power `a ** b` and the square root.  Nothing about them is
    assumed beyond what a member's precondition states.
   */
  datatype Analytic = Analytic(pow: (real, real) -> real, sqrt: real -> real)

  /** `a ** b`. */
  function Pow(an: Analytic, a: real, b: real): real {
    an.pow(a, b)
  }

  /** `np.sqrt(x)`. */
  function Sqrt(an: Analytic, x: real): real {
    an.sqrt(x)
  }
}
