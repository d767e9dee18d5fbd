/**
  `run_simulation` in its four revisions: a buy-and-hold portfolio that is
  valued once per trading date and, on the dates of the rebalancing
  calendar, has its share counts reset to the target weights.
 */
module Simulation {
  import opened Wrappers
  import opened Dates
  import opened Calendar
  import opened Stats

  /**
    The four revisions of the backtest engine:
    api/index_0710_1.py, api/index_v1.py, api/index_v0.py and api/index.py.
   */
  datatype Revision = Index0710 | IndexV1 | IndexV0 | IndexOriginal

  /** The revisions that add EPS to every price they divide by. */
  predicate Guarded(rev: Revision) {
    rev == Index0710 || rev == IndexV1
  }

  /** The price a share count is computed with: `price + EPSILON` or the raw price. */
  function Divisor(rev: Revision, price: real): real {
    PeakDivisor(price, Guarded(rev))
  }

  /** No share computation on this row of prices divides by zero. */
  predicate RowDivisible(rev: Revision, row: seq<real>) {
    forall t :: 0 <= t < |row| ==> Divisor(rev, row[t]) != 0.0
  }

  /**
    One call of `run_simulation`, with the price table already restricted to
    the portfolio's tickers: a row of prices per date, a column per ticker,
    the weights in percent (column order), the parsed rebalancing period and
    the initial amount.
   */
  datatype Run = Run(
    rev: Revision,
    dates: seq<Date>,
    prices: seq<seq<real>>,
    weightsPct: seq<real>,
    cadence: Cadence,
    initial: real)

  /** The rebalancing calendar each revision computes for the table's dates. */
  function ScheduleOf(r: Run): seq<Date> {
    if r.rev == IndexOriginal then RebalancingDatesUnguarded(r.dates, r.cadence)
    else RebalancingDates(r.dates, r.cadence)
  }

  /** `current_date in rebalancing_dates` on day `k`. */
  predicate Rebalances(r: Run, k: nat)
    requires k < |r.dates|
  {
    r.dates[k] in ScheduleOf(r)
  }

  /**
    The table is rectangular with one row per (distinct) date, and every
    row a share count is computed from (the first row and each rebalancing
    day's row) has no divisor equal to zero.
   */
  predicate WellFormed(r: Run) {
    |r.prices| == |r.dates| && Distinct(r.dates)
    && (forall k :: 0 <= k < |r.prices| ==> |r.prices[k]| == |r.weightsPct|)
    && (forall k :: 0 <= k < |r.prices| && (k == 0 || Rebalances(r, k)) ==> RowDivisible(r.rev, r.prices[k]))
  }

  /** pandas' `df_prices.empty`: no row or no column. */
  predicate Empty(r: Run) {
    |r.prices| == 0 || |r.weightsPct| == 0
  }

  /** `np.array(weights) / 100.0`. */
  function Weights(r: Run): (w: seq<real>)
    ensures |w| == |r.weightsPct|
    ensures forall t :: 0 <= t < |w| ==> w[t] * 100.0 == r.weightsPct[t]
  {
    seq(|r.weightsPct|, t requires 0 <= t < |r.weightsPct| => r.weightsPct[t] / 100.0)
  }

  /**
    `(value * weights) / (prices [+ EPSILON])`: the share counts that put
    the fraction `w[t]` of `value` into ticker `t`.
   */
  function TargetShares(rev: Revision, value: real, w: seq<real>, row: seq<real>): (s: seq<real>)
    requires |w| == |row| && RowDivisible(rev, row)
    ensures |s| == |w|
    ensures forall t :: 0 <= t < |s| ==> s[t] * Divisor(rev, row[t]) == value * w[t]
  {
    seq(|w|, t requires 0 <= t < |w| => value * w[t] / Divisor(rev, row[t]))
  }

  /** The share counts held once day `k` has been processed. */
  function SharesAfter(r: Run, k: nat): (s: seq<real>)
    requires WellFormed(r) && k < |r.dates|
    ensures |s| == |r.weightsPct|
    decreases k, 1
  {
    if k == 0 then TargetShares(r.rev, r.initial, Weights(r), r.prices[0])
    else if Rebalances(r, k) then TargetShares(r.rev, Basis(r, k), Weights(r), r.prices[k])
    else SharesAfter(r, k - 1)
  }

  /**
    The portfolio value a rebalance on day `k` distributes: the held shares
    at the previous day's prices in index_v0.py, at the day's own prices
    everywhere else.
   */
  function Basis(r: Run, k: nat): real
    requires WellFormed(r) && 1 <= k < |r.dates|
    decreases k, 0
  {
    var held := SharesAfter(r, k - 1);
    if r.rev == IndexV0 then Dot(held, r.prices[k - 1]) else Dot(held, r.prices[k])
  }

  /**
    The value recorded for day `k`: the initial amount itself on the first
    day; in index_v0.py the shares held after the day's rebalance at the
    day's prices; elsewhere the shares held before it.
   */
  function ValueAt(r: Run, k: nat): real
    requires WellFormed(r) && k < |r.dates|
  {
    if k == 0 then r.initial
    else if r.rev == IndexV0 then Dot(SharesAfter(r, k), r.prices[k])
    else Dot(SharesAfter(r, k - 1), r.prices[k])
  }

  /** `portfolio_history`: one point per date of the table, in table order. */
  function History(r: Run): (h: seq<Point>)
    requires WellFormed(r)
    ensures |h| == |r.dates|
    ensures forall k :: 0 <= k < |h| ==> h[k].date == r.dates[k]
    ensures |h| > 0 ==> h[0].value == r.initial
  {
    seq(|r.dates|, k requires 0 <= k < |r.dates| => Point(r.dates[k], ValueAt(r, k)))
  }

  /** The history `run_simulation` hands on, or None for an empty table. */
  function Simulate(r: Run): (o: Option<seq<Point>>)
    requires WellFormed(r)
    ensures o.None? <==> Empty(r)
  {
    if Empty(r) then None else Some(History(r))
  }

  /** `(shares * prices).sum()`. */
  method ValueOfHoldings(shares: array<real>, row: seq<real>) returns (v: real)
    requires shares.Length == |row|
    ensures v == Dot(shares[..], row)
  {
    v := 0.0;
    var j := 0;
    while j < |row|
      invariant 0 <= j <= |row|
      invariant v == Dot(shares[..j], row[..j])
    {
      assert shares[..j + 1][..j] == shares[..j];
      assert row[..j + 1][..j] == row[..j];
      v := v + shares[j] * row[j];
      j := j + 1;
    }
    assert shares[..j] == shares[..];
    assert row[..j] == row;
  }

  /** `shares = (value * weights) / (prices [+ EPSILON])`, written into the share array. */
  method ResetShares(shares: array<real>, rev: Revision, value: real, w: seq<real>, row: seq<real>)
    requires shares.Length == |w| == |row| && RowDivisible(rev, row)
    modifies shares
    ensures shares[..] == TargetShares(rev, value, w, row)
  {
    ghost var target := TargetShares(rev, value, w, row);
    var t := 0;
    while t < shares.Length
      invariant 0 <= t <= shares.Length
      invariant forall u :: 0 <= u < t ==> shares[u] == target[u]
    {
      shares[t] := value * w[t] / Divisor(rev, row[t]);
      t := t + 1;
    }
    assert shares[..] == target;
  }

  /**
    One pass of `run_simulation`'s loop body on day `i`: value the day,
    and reset the shares if the day is in the schedule.
   */
  method SimulateDay(r: Run, schedule: seq<Date>, shares: array<real>, i: nat) returns (v: real)
    requires WellFormed(r) && 1 <= i < |r.dates| && schedule == ScheduleOf(r)
    requires shares[..] == SharesAfter(r, i - 1)
    modifies shares
    ensures shares[..] == SharesAfter(r, i)
    ensures v == ValueAt(r, i)
  {
    var w := Weights(r);
    if r.rev == IndexV0 {
      if r.dates[i] in schedule {
        var basis := ValueOfHoldings(shares, r.prices[i - 1]);
        ResetShares(shares, r.rev, basis, w, r.prices[i]);
      }
      v := ValueOfHoldings(shares, r.prices[i]);
    } else {
      v := ValueOfHoldings(shares, r.prices[i]);
      if r.dates[i] in schedule {
        ResetShares(shares, r.rev, v, w, r.prices[i]);
      }
    }
  }

  /** `run_simulation`'s loop, over a share array and a pre-sized history array. */
  method RunSimulation(r: Run) returns (history: Option<seq<Point>>)
    requires WellFormed(r)
    ensures history == Simulate(r)
  {
    if |r.prices| == 0 || |r.weightsPct| == 0 {
      return None;
    }
    var n := |r.dates|;
    var schedule := ScheduleOf(r);
    var shares := new real[|r.weightsPct|];
    ResetShares(shares, r.rev, r.initial, Weights(r), r.prices[0]);
    var values := new real[n];
    values[0] := r.initial;
    var i := 1;
    while i < n
      invariant 1 <= i <= n
      invariant shares[..] == SharesAfter(r, i - 1)
      invariant forall k :: 0 <= k < i ==> values[k] == ValueAt(r, k)
    {
      var v := SimulateDay(r, schedule, shares, i);
      values[i] := v;
      i := i + 1;
    }
    var points := seq(n, k requires 0 <= k < n reads values => Point(r.dates[k], values[k]));
    assert points == History(r);
    history := Some(points);
  }

  // ---------------------------------------------------------------------
  // Properties of the simulation

  /** A rebalance leaves every holding at its target fraction of the basis. */
  lemma RebalanceHitsTargetWeights(r: Run, k: nat)
    requires WellFormed(r) && 1 <= k < |r.dates| && Rebalances(r, k)
    ensures forall t :: 0 <= t < |r.weightsPct| ==>
      SharesAfter(r, k)[t] * Divisor(r.rev, r.prices[k][t]) == Basis(r, k) * Weights(r)[t]
  {
    SharesAfterRebalance(r, k);
  }

  /** On any other day the share counts carry over unchanged. */
  lemma SharesCarryOver(r: Run, k: nat)
    requires WellFormed(r) && 1 <= k < |r.dates| && !Rebalances(r, k)
    ensures SharesAfter(r, k) == SharesAfter(r, k - 1)
  {
  }

  /** Without a rebalancing date up to day `k`, the initial share counts are never touched. */
  lemma {:induction false} SharesConstantWithoutRebalancing(r: Run, k: nat)
    requires WellFormed(r) && k < |r.dates|
    requires forall j :: 1 <= j <= k ==> !Rebalances(r, j)
    ensures SharesAfter(r, k) == TargetShares(r.rev, r.initial, Weights(r), r.prices[0])
  {
    if k > 0 {
      SharesConstantWithoutRebalancing(r, k - 1);
    }
  }

  /** `never` and every unrecognised period string give a simulation that never rebalances. */
  lemma NonPeriodicNeverRebalances(r: Run, k: nat)
    requires WellFormed(r) && k < |r.dates| && !Periodic(r.cadence)
    ensures !Rebalances(r, k)
  {
    UnguardedSliceAgrees(r.dates, r.cadence);
  }

  /** `Dot(a, b)` splits off its last term. */
  lemma DotLast(a: seq<real>, b: seq<real>)
    requires |a| == |b| > 0
    ensures Dot(a, b) == Dot(a[..|a| - 1], b[..|b| - 1]) + a[|a| - 1] * b[|b| - 1]
  {
  }

  /**
    Holdings each worth the fraction `w[t]` of `v` are together worth `v`
    times the sum of the fractions.
   */
  lemma {:induction false} DotOfFractions(s: seq<real>, row: seq<real>, v: real, w: seq<real>)
    requires |s| == |row| == |w|
    requires forall t :: 0 <= t < |s| ==> s[t] * row[t] == v * w[t]
    ensures Dot(s, row) == v * Sum(w)
  {
    if |s| > 0 {
      var m := |s| - 1;
      DotOfFractions(s[..m], row[..m], v, w[..m]);
      assert s[m] * row[m] == v * w[m];
      assert w[..m] == w[..|w| - 1];
    }
  }

  lemma SameFactor(a: real, b: real, c: real, x: real)
    requires b == c && a * b == x
    ensures a * c == x
  {
  }

  /** Without EPS, each target holding is worth its fraction of the value at the row's prices. */
  lemma UnguardedHoldingValues(rev: Revision, v: real, w: seq<real>, row: seq<real>)
    requires !Guarded(rev) && |w| == |row| && RowDivisible(rev, row)
    ensures forall t :: 0 <= t < |w| ==> TargetShares(rev, v, w, row)[t] * row[t] == v * w[t]
  {
    var s := TargetShares(rev, v, w, row);
    forall t | 0 <= t < |w| ensures s[t] * row[t] == v * w[t] {
      SameFactor(s[t], Divisor(rev, row[t]), row[t], v * w[t]);
    }
  }

  /**
    In the revisions without EPS, target shares bought at a row of prices
    are worth, at that same row, the distributed value times the sum of the
    weights: a rebalance neither creates nor destroys value.
   */
  lemma UnguardedTargetValue(rev: Revision, v: real, w: seq<real>, row: seq<real>)
    requires !Guarded(rev) && |w| == |row| && RowDivisible(rev, row)
    ensures Dot(TargetShares(rev, v, w, row), row) == v * Sum(w)
  {
    UnguardedHoldingValues(rev, v, w, row);
    DotOfFractions(TargetShares(rev, v, w, row), row, v, w);
  }

  /**
    index.py, the same-day valuation: the shares bought on a rebalancing day
    are worth, at that day's prices, exactly the recorded value (times the
    weight sum), so the next day starts from the value just recorded.
   */
  lemma SameDayRebalanceKeepsValue(r: Run, k: nat)
    requires WellFormed(r) && r.rev == IndexOriginal && 1 <= k < |r.dates| && Rebalances(r, k)
    ensures Dot(SharesAfter(r, k), r.prices[k]) == ValueAt(r, k) * Sum(Weights(r))
  {
    UnguardedTargetValue(r.rev, Basis(r, k), Weights(r), r.prices[k]);
  }

  /** The shares bought on a rebalancing day are the targets for that day's basis. */
  lemma SharesAfterRebalance(r: Run, k: nat)
    requires WellFormed(r) && 1 <= k < |r.dates| && Rebalances(r, k)
    ensures SharesAfter(r, k) == TargetShares(r.rev, Basis(r, k), Weights(r), r.prices[k])
  {
  }

  /** index_v0.py values the held shares at the previous day's prices, and records the day after its rebalance. */
  lemma PreviousDayTerms(r: Run, k: nat)
    requires WellFormed(r) && r.rev == IndexV0 && 1 <= k < |r.dates|
    ensures Basis(r, k) == Dot(SharesAfter(r, k - 1), r.prices[k - 1])
    ensures ValueAt(r, k) == Dot(SharesAfter(r, k), r.prices[k])
  {
  }

  /** index_v0.py: the value recorded on a rebalancing day is the basis times the weight sum. */
  lemma PreviousDayRebalanceBasis(r: Run, k: nat)
    requires WellFormed(r) && r.rev == IndexV0 && 1 <= k < |r.dates| && Rebalances(r, k)
    ensures ValueAt(r, k) == Basis(r, k) * Sum(Weights(r))
  {
    SharesAfterRebalance(r, k);
    PreviousDayTerms(r, k);
    UnguardedTargetValue(r.rev, Basis(r, k), Weights(r), r.prices[k]);
  }

  /**
    index_v0.py as written: the value recorded on a rebalancing day is the
    previous day's valuation of the old shares times the weight sum, so
    that day's price move of the old holdings never reaches the history.
   */
  lemma PreviousDayRebalanceValue(r: Run, k: nat)
    requires WellFormed(r) && r.rev == IndexV0 && 1 <= k < |r.dates| && Rebalances(r, k)
    ensures ValueAt(r, k) == Dot(SharesAfter(r, k - 1), r.prices[k - 1]) * Sum(Weights(r))
  {
    PreviousDayRebalanceBasis(r, k);
    PreviousDayTerms(r, k);
  }

  /**
    index_v0.py as written: from the second day on, the value recorded on
    a rebalancing day is the value recorded the day before (the held shares
    at that day's prices) times the weight sum, so with weights summing to
    100% the day's price move is lost.
   */
  lemma PreviousDayValueRepeats(r: Run, k: nat)
    requires WellFormed(r) && r.rev == IndexV0 && 2 <= k < |r.dates| && Rebalances(r, k)
    ensures ValueAt(r, k - 1) == Dot(SharesAfter(r, k - 1), r.prices[k - 1])
    ensures ValueAt(r, k) == Dot(SharesAfter(r, k - 1), r.prices[k - 1]) * Sum(Weights(r))
  {
    PreviousDayTerms(r, k - 1);
    PreviousDayRebalanceValue(r, k);
  }

  lemma MulDiv(a: real, b: real, d: real)
    requires d != 0.0
    ensures (a * 1.0 / d) * b == a * b / d
  {
  }

  /**
    A single ticker at 100% that is never rebalanced is worth the initial
    amount scaled by the price ratio to the first day, on every day.
   */
  lemma SingleTickerValue(r: Run, k: nat)
    requires WellFormed(r) && 1 <= k < |r.dates|
    requires r.weightsPct == [100.0]
    requires forall j :: 1 <= j <= k ==> !Rebalances(r, j)
    ensures ValueAt(r, k) == r.initial * r.prices[k][0] / Divisor(r.rev, r.prices[0][0])
  {
    SharesConstantWithoutRebalancing(r, k);
    if r.rev != IndexV0 {
      SharesConstantWithoutRebalancing(r, k - 1);
    }
    var d := Divisor(r.rev, r.prices[0][0]);
    var s := TargetShares(r.rev, r.initial, Weights(r), r.prices[0]);
    assert Weights(r) == [1.0];
    assert s == [r.initial * 1.0 / d];
    DotLast(s, r.prices[k]);
    MulDiv(r.initial, r.prices[k][0], d);
  }

  /** Non-negative prices, weights and initial amount. */
  predicate NonNegativeInputs(r: Run) {
    r.initial >= 0.0
    && (forall t :: 0 <= t < |r.weightsPct| ==> r.weightsPct[t] >= 0.0)
    && (forall k :: 0 <= k < |r.prices| ==> forall t :: 0 <= t < |r.prices[k]| ==> r.prices[k][t] >= 0.0)
  }

  lemma {:induction false} DotNonNegative(a: seq<real>, b: seq<real>)
    requires |a| == |b|
    requires forall t :: 0 <= t < |a| ==> a[t] >= 0.0 && b[t] >= 0.0
    ensures Dot(a, b) >= 0.0
  {
    if |a| > 0 {
      var m := |a| - 1;
      DotNonNegative(a[..m], b[..m]);
      assert a[m] * b[m] >= 0.0;
    }
  }

  lemma TargetSharesNonNegative(rev: Revision, v: real, w: seq<real>, row: seq<real>)
    requires |w| == |row| && RowDivisible(rev, row) && v >= 0.0
    requires forall t :: 0 <= t < |w| ==> w[t] >= 0.0 && row[t] >= 0.0
    ensures forall t :: 0 <= t < |w| ==> TargetShares(rev, v, w, row)[t] >= 0.0
  {
    forall t | 0 <= t < |w| ensures TargetShares(rev, v, w, row)[t] >= 0.0 {
      var d := Divisor(rev, row[t]);
      assert d > 0.0;
      assert v * w[t] >= 0.0;
    }
  }

  /** Share counts stay non-negative through every rebalance. */
  lemma {:induction false} SharesNonNegative(r: Run, k: nat)
    requires WellFormed(r) && NonNegativeInputs(r) && k < |r.dates|
    ensures forall t :: 0 <= t < |r.weightsPct| ==> SharesAfter(r, k)[t] >= 0.0
  {
    var w := Weights(r);
    if k == 0 {
      TargetSharesNonNegative(r.rev, r.initial, w, r.prices[0]);
    } else {
      SharesNonNegative(r, k - 1);
      if Rebalances(r, k) {
        var held := SharesAfter(r, k - 1);
        DotNonNegative(held, r.prices[k - 1]);
        DotNonNegative(held, r.prices[k]);
        TargetSharesNonNegative(r.rev, Basis(r, k), w, r.prices[k]);
      }
    }
  }

  /** With non-negative inputs every recorded value is non-negative. */
  lemma ValueNonNegative(r: Run, k: nat)
    requires WellFormed(r) && NonNegativeInputs(r) && k < |r.dates|
    ensures ValueAt(r, k) >= 0.0
  {
    if k > 0 {
      SharesNonNegative(r, k);
      SharesNonNegative(r, k - 1);
      DotNonNegative(SharesAfter(r, k), r.prices[k]);
      DotNonNegative(SharesAfter(r, k - 1), r.prices[k]);
    }
  }

  /** One ticker at 100%, 2024-01-31 at 100 and 2024-02-01 at 110, monthly rebalancing, 10000 invested. */
  function ExampleRun(rev: Revision): Run {
    Run(rev, [Date(2024, 1, 31), Date(2024, 2, 1)], [[100.0], [110.0]], [100.0], Monthly, 10000.0)
  }

  lemma ExampleRebalances(rev: Revision)
    requires rev == IndexV0 || rev == IndexOriginal
    ensures WellFormed(ExampleRun(rev)) && Rebalances(ExampleRun(rev), 1)
    ensures Weights(ExampleRun(rev)) == [1.0] && SharesAfter(ExampleRun(rev), 0) == [100.0]
  {
    var ds := ExampleRun(rev).dates;
    assert KeyOf(Monthly, ds[0]) != KeyOf(Monthly, ds[1]);
    CalendarContains(ds, Monthly, 1);
    UnguardedSliceAgrees(ds, Monthly);
    assert Weights(ExampleRun(rev)) == [1.0];
  }

  lemma ExampleV0Value()
    ensures WellFormed(ExampleRun(IndexV0)) && ValueAt(ExampleRun(IndexV0), 1) == 10000.0
  {
    var v0 := ExampleRun(IndexV0);
    ExampleRebalances(IndexV0);
    assert Basis(v0, 1) == 10000.0;
    DotLast(SharesAfter(v0, 1), [110.0]);
  }

  lemma ExampleOriginalValue()
    ensures WellFormed(ExampleRun(IndexOriginal)) && ValueAt(ExampleRun(IndexOriginal), 1) == 11000.0
  {
    var fixed := ExampleRun(IndexOriginal);
    ExampleRebalances(IndexOriginal);
    DotLast(SharesAfter(fixed, 0), [110.0]);
  }

  /**
    On that run index_v0.py records 10000 for the rebalancing day, while
    index.py records the 11000 the shares are worth.
   */
  lemma PreviousDayValuationLosesMove()
    ensures WellFormed(ExampleRun(IndexV0)) && ValueAt(ExampleRun(IndexV0), 1) == 10000.0
    ensures WellFormed(ExampleRun(IndexOriginal)) && ValueAt(ExampleRun(IndexOriginal), 1) == 11000.0
  {
    ExampleV0Value();
    ExampleOriginalValue();
  }
}
