/**
  The rebalancing calendar: the first trading date of every calendar year,
  (year, quarter) or (year, month) seen in the price table's index, with the
  very first such date dropped, because the first date is the initial
  allocation rather than a rebalance.
 */
module Calendar {
  import opened Dates

  /** The `rebalancingPeriod` of a portfolio; any other string is `Unrecognised`. */
  datatype Cadence = Never | Annually | Quarterly | Monthly | Unrecognised(name: string)

  function ParseCadence(s: string): (c: Cadence)
    ensures c.Unrecognised? <==> s != "never" && s != "annually" && s != "quarterly" && s != "monthly"
    ensures c.Unrecognised? ==> c.name == s
  {
    if s == "never" then Never
    else if s == "annually" then Annually
    else if s == "quarterly" then Quarterly
    else if s == "monthly" then Monthly
    else Unrecognised(s)
  }

  predicate Periodic(c: Cadence) {
    c.Annually? || c.Quarterly? || c.Monthly?
  }

  /** The `drop_duplicates` subset: year; year and quarter; year and month. */
  datatype PeriodKey = PeriodKey(year: int, part: int)

  function KeyOf(c: Cadence, d: Date): PeriodKey {
    match c
    case Quarterly => PeriodKey(d.year, Quarter(d))
    case Monthly => PeriodKey(d.year, d.month)
    case _ => PeriodKey(d.year, 0)
  }

  /** No earlier date of the index falls in the same period as the date at `i`. */
  predicate IsFirstOfPeriod(ds: seq<Date>, c: Cadence, i: nat)
    requires i < |ds|
  {
    forall j :: 0 <= j < i ==> KeyOf(c, ds[j]) != KeyOf(c, ds[i])
  }

  /**
    `drop_duplicates(subset=..., keep='first').index` as one pass that
    remembers the periods already seen.
   */
  function DropDuplicatePeriods(ds: seq<Date>, c: Cadence, seen: set<PeriodKey>): seq<Date>
  {
    if |ds| == 0 then []
    else if KeyOf(c, ds[0]) in seen then DropDuplicatePeriods(ds[1..], c, seen)
    else [ds[0]] + DropDuplicatePeriods(ds[1..], c, seen + {KeyOf(c, ds[0])})
  }

  function PeriodStarts(ds: seq<Date>, c: Cadence): seq<Date> {
    DropDuplicatePeriods(ds, c, {})
  }

  /** Reference definition: the dates among the first `n` that open a period, in index order. */
  function FirstsOfPeriods(ds: seq<Date>, c: Cadence, n: nat): seq<Date>
    requires n <= |ds|
  {
    if n == 0 then []
    else FirstsOfPeriods(ds, c, n - 1) + (if IsFirstOfPeriod(ds, c, n - 1) then [ds[n - 1]] else [])
  }

  /** index_0710_1, v1 and v0: the slice `[1:]` guarded by `len(...) > 1`. */
  function RebalancingDates(ds: seq<Date>, c: Cadence): seq<Date> {
    match c
    case Never => []
    case Unrecognised(_) => []
    case _ =>
      var starts := PeriodStarts(ds, c);
      if |starts| > 1 then starts[1..] else []
  }

  /** index.py: the bare slice `rebalance_dates[1:]`. */
  function RebalancingDatesUnguarded(ds: seq<Date>, c: Cadence): seq<Date> {
    match c
    case Never => []
    case Unrecognised(_) => []
    case _ =>
      var starts := PeriodStarts(ds, c);
      if |starts| == 0 then [] else starts[1..]
  }

  function PeriodsAmong(ds: seq<Date>, c: Cadence, k: nat): set<PeriodKey>
    requires k <= |ds|
  {
    set j | 0 <= j < k :: KeyOf(c, ds[j])
  }

  lemma PeriodsAmongStep(ds: seq<Date>, c: Cadence, k: nat)
    requires k < |ds|
    ensures PeriodsAmong(ds, c, k + 1) == PeriodsAmong(ds, c, k) + {KeyOf(c, ds[k])}
  {
  }

  lemma FirstIffUnseen(ds: seq<Date>, c: Cadence, k: nat)
    requires k < |ds|
    ensures IsFirstOfPeriod(ds, c, k) <==> KeyOf(c, ds[k]) !in PeriodsAmong(ds, c, k)
  {
    if KeyOf(c, ds[k]) in PeriodsAmong(ds, c, k) {
      var j :| 0 <= j < k && KeyOf(c, ds[j]) == KeyOf(c, ds[k]);
    }
  }

  /** One step of the pass at position `k`, with the periods of the earlier dates as `seen`. */
  lemma DropStep(ds: seq<Date>, c: Cadence, k: nat)
    requires k < |ds|
    ensures DropDuplicatePeriods(ds[k..], c, PeriodsAmong(ds, c, k))
         == (if IsFirstOfPeriod(ds, c, k) then [ds[k]] else [])
            + DropDuplicatePeriods(ds[k + 1..], c, PeriodsAmong(ds, c, k + 1))
  {
    var seen := PeriodsAmong(ds, c, k);
    assert ds[k..][1..] == ds[k + 1..];
    PeriodsAmongStep(ds, c, k);
    FirstIffUnseen(ds, c, k);
    if KeyOf(c, ds[k]) in seen {
      assert seen + {KeyOf(c, ds[k])} == seen;
    }
  }

  lemma {:induction false} DropDuplicatesSplit(ds: seq<Date>, c: Cadence, k: nat)
    requires k <= |ds|
    ensures FirstsOfPeriods(ds, c, |ds|)
         == FirstsOfPeriods(ds, c, k) + DropDuplicatePeriods(ds[k..], c, PeriodsAmong(ds, c, k))
    decreases |ds| - k
  {
    if k == |ds| {
      assert ds[k..] == [];
    } else {
      DropDuplicatesSplit(ds, c, k + 1);
      DropStep(ds, c, k);
      Regroup(FirstsOfPeriods(ds, c, |ds|), FirstsOfPeriods(ds, c, k + 1),
        DropDuplicatePeriods(ds[k + 1..], c, PeriodsAmong(ds, c, k + 1)), FirstsOfPeriods(ds, c, k),
        if IsFirstOfPeriod(ds, c, k) then [ds[k]] else [],
        DropDuplicatePeriods(ds[k..], c, PeriodsAmong(ds, c, k)));
    }
  }

  lemma Regroup<T>(whole: seq<T>, front: seq<T>, rest: seq<T>, shorter: seq<T>, mid: seq<T>, tail: seq<T>)
    requires whole == front + rest && front == shorter + mid && tail == mid + rest
    ensures whole == shorter + tail
  {
  }

  /** The one-pass reading of `drop_duplicates` agrees with the reference definition. */
  lemma PeriodStartsAreFirstsOfPeriods(ds: seq<Date>, c: Cadence)
    ensures PeriodStarts(ds, c) == FirstsOfPeriods(ds, c, |ds|)
  {
    DropDuplicatesSplit(ds, c, 0);
    assert ds[0..] == ds;
    assert PeriodsAmong(ds, c, 0) == {};
  }

  /** Every element of the reference sequence is an index date that opens its period. */
  lemma {:induction false} FirstsWitness(ds: seq<Date>, c: Cadence, n: nat, x: Date) returns (i: nat)
    requires n <= |ds| && x in FirstsOfPeriods(ds, c, n)
    ensures i < n && IsFirstOfPeriod(ds, c, i) && ds[i] == x
  {
    var prev := FirstsOfPeriods(ds, c, n - 1);
    if x in prev {
      i := FirstsWitness(ds, c, n - 1, x);
    } else {
      i := n - 1;
    }
  }

  /** Every index date that opens its period is in the reference sequence. */
  lemma {:induction false} FirstsPosition(ds: seq<Date>, c: Cadence, n: nat, i: nat) returns (k: nat)
    requires i < n <= |ds| && IsFirstOfPeriod(ds, c, i)
    ensures k < |FirstsOfPeriods(ds, c, n)| && FirstsOfPeriods(ds, c, n)[k] == ds[i]
  {
    if i == n - 1 {
      k := |FirstsOfPeriods(ds, c, n - 1)|;
    } else {
      k := FirstsPosition(ds, c, n - 1, i);
    }
  }

  /** No two dates of `r` fall in the same period. */
  predicate KeysDistinct(c: Cadence, r: seq<Date>) {
    forall a, b :: 0 <= a < b < |r| ==> KeyOf(c, r[a]) != KeyOf(c, r[b])
  }

  lemma {:induction false} FirstsKeysDistinct(ds: seq<Date>, c: Cadence, n: nat)
    requires n <= |ds|
    ensures KeysDistinct(c, FirstsOfPeriods(ds, c, n))
  {
    if n > 0 {
      FirstsKeysDistinct(ds, c, n - 1);
      var prev := FirstsOfPeriods(ds, c, n - 1);
      if !IsFirstOfPeriod(ds, c, n - 1) {
        assert FirstsOfPeriods(ds, c, n) == prev;
      } else {
        var r := FirstsOfPeriods(ds, c, n);
        assert r == prev + [ds[n - 1]];
        forall a | 0 <= a < |prev|
          ensures KeyOf(c, prev[a]) != KeyOf(c, ds[n - 1])
        {
          var i := FirstsWitness(ds, c, n - 1, prev[a]);
        }
        forall a, b | 0 <= a < b < |r| ensures KeyOf(c, r[a]) != KeyOf(c, r[b]) {
          if b < |prev| {
            assert r[a] == prev[a] && r[b] == prev[b];
          } else {
            assert r[a] == prev[a] && r[b] == ds[n - 1];
          }
        }
      }
    }
  }

  lemma {:induction false} FirstsIncreasing(ds: seq<Date>, c: Cadence, n: nat)
    requires n <= |ds| && StrictlyIncreasing(ds)
    ensures StrictlyIncreasing(FirstsOfPeriods(ds, c, n))
  {
    if n > 0 {
      FirstsIncreasing(ds, c, n - 1);
      var prev := FirstsOfPeriods(ds, c, n - 1);
      if IsFirstOfPeriod(ds, c, n - 1) {
        forall a | 0 <= a < |prev|
          ensures Before(prev[a], ds[n - 1])
        {
          var i := FirstsWitness(ds, c, n - 1, prev[a]);
        }
      }
    }
  }

  lemma FirstsStartWithFirstDate(ds: seq<Date>, c: Cadence, n: nat)
    requires 0 < n <= |ds|
    ensures |FirstsOfPeriods(ds, c, n)| > 0 && FirstsOfPeriods(ds, c, n)[0] == ds[0]
    decreases n
  {
    if n > 1 {
      FirstsStartWithFirstDate(ds, c, n - 1);
    }
  }

  /** The guarded and the bare slice give the same calendar, even for a single period. */
  lemma UnguardedSliceAgrees(ds: seq<Date>, c: Cadence)
    ensures RebalancingDatesUnguarded(ds, c) == RebalancingDates(ds, c)
  {
  }

  /** `never` and every unrecognised cadence string give an empty calendar. */
  lemma NonPeriodicCadenceIsEmpty(ds: seq<Date>, s: string)
    requires s != "annually" && s != "quarterly" && s != "monthly"
    ensures RebalancingDates(ds, ParseCadence(s)) == []
  {
  }

  /** The calendar, for a periodic cadence, is the period starts after the first. */
  lemma CalendarIsTailOfStarts(ds: seq<Date>, c: Cadence)
    requires Periodic(c)
    ensures |ds| > 0 ==>
      (|FirstsOfPeriods(ds, c, |ds|)| > 0
       && FirstsOfPeriods(ds, c, |ds|)[0] == ds[0]
       && RebalancingDates(ds, c) == FirstsOfPeriods(ds, c, |ds|)[1..])
    ensures |ds| == 0 ==> RebalancingDates(ds, c) == []
  {
    PeriodStartsAreFirstsOfPeriods(ds, c);
    if |ds| > 0 {
      FirstsStartWithFirstDate(ds, c, |ds|);
    }
  }

  /** Every rebalancing date is an index date that opens a period other than the first date's. */
  lemma CalendarElements(ds: seq<Date>, c: Cadence, x: Date) returns (i: nat)
    requires x in RebalancingDates(ds, c)
    ensures Periodic(c) && 0 < i < |ds| && IsFirstOfPeriod(ds, c, i) && ds[i] == x
    ensures KeyOf(c, x) != KeyOf(c, ds[0])
  {
    CalendarIsTailOfStarts(ds, c);
    var r := FirstsOfPeriods(ds, c, |ds|);
    var k :| 1 <= k < |r| && r[k] == x;
    FirstsKeysDistinct(ds, c, |ds|);
    assert KeyOf(c, r[0]) != KeyOf(c, r[k]);
    i := FirstsWitness(ds, c, |ds|, x);
  }

  /** An index date that opens a period after the first date's is a rebalancing date. */
  lemma CalendarContains(ds: seq<Date>, c: Cadence, i: nat)
    requires Periodic(c) && i < |ds| && IsFirstOfPeriod(ds, c, i) && KeyOf(c, ds[i]) != KeyOf(c, ds[0])
    ensures ds[i] in RebalancingDates(ds, c)
  {
    CalendarIsTailOfStarts(ds, c);
    var r := FirstsOfPeriods(ds, c, |ds|);
    var k := FirstsPosition(ds, c, |ds|, i);
    assert k != 0;
    assert r[1..][k - 1] == ds[i];
  }

  /** The first date of the index is never a rebalancing date. */
  lemma CalendarExcludesFirstDate(ds: seq<Date>, c: Cadence)
    requires |ds| > 0
    ensures ds[0] !in RebalancingDates(ds, c)
  {
    if ds[0] in RebalancingDates(ds, c) {
      var i := CalendarElements(ds, c, ds[0]);
    }
  }

  /**
    Over an index without repeated dates, the date at `i` is a rebalancing
    date exactly when the cadence is periodic, `i` is not the first index and
    no earlier date falls in the same period.
   */
  lemma CalendarMembership(ds: seq<Date>, c: Cadence, i: nat)
    requires Distinct(ds) && i < |ds|
    ensures ds[i] in RebalancingDates(ds, c) <==> Periodic(c) && 0 < i && IsFirstOfPeriod(ds, c, i)
  {
    if Periodic(c) && 0 < i && IsFirstOfPeriod(ds, c, i) {
      CalendarContains(ds, c, i);
    }
    if ds[i] in RebalancingDates(ds, c) {
      var j := CalendarElements(ds, c, ds[i]);
      assert j == i;
    }
  }

  /** Over an increasing index the calendar is increasing, so it is a subsequence of the index. */
  lemma CalendarIncreasing(ds: seq<Date>, c: Cadence)
    requires StrictlyIncreasing(ds)
    ensures StrictlyIncreasing(RebalancingDates(ds, c))
    ensures forall x :: x in RebalancingDates(ds, c) ==> x in ds
  {
    if Periodic(c) && |ds| > 0 {
      CalendarIsTailOfStarts(ds, c);
      FirstsIncreasing(ds, c, |ds|);
      var r := FirstsOfPeriods(ds, c, |ds|);
      var cal := RebalancingDates(ds, c);
      forall a, b | 0 <= a < b < |cal| ensures Before(cal[a], cal[b]) {
        assert cal[a] == r[a + 1] && cal[b] == r[b + 1];
      }
      forall x | x in cal ensures x in ds {
        var i := CalendarElements(ds, c, x);
      }
    }
  }

  /** No two rebalancing dates share a period, and none is in the first date's period. */
  lemma CalendarOnePerPeriod(ds: seq<Date>, c: Cadence)
    requires |ds| > 0
    ensures var cal := RebalancingDates(ds, c);
      (forall a, b :: 0 <= a < b < |cal| ==> KeyOf(c, cal[a]) != KeyOf(c, cal[b]))
      && (forall x :: x in cal ==> KeyOf(c, x) != KeyOf(c, ds[0]))
  {
    if Periodic(c) {
      CalendarIsTailOfStarts(ds, c);
      FirstsKeysDistinct(ds, c, |ds|);
      var r := FirstsOfPeriods(ds, c, |ds|);
      var cal := RebalancingDates(ds, c);
      forall a, b | 0 <= a < b < |cal| ensures KeyOf(c, cal[a]) != KeyOf(c, cal[b]) {
        assert cal[a] == r[a + 1] && cal[b] == r[b + 1];
      }
      forall x | x in cal ensures KeyOf(c, x) != KeyOf(c, ds[0]) {
        var i := CalendarElements(ds, c, x);
      }
    }
  }

  /** Every period that some index date opens after the first date's period has its rebalancing date. */
  lemma {:induction false} CalendarCoversNewPeriods(ds: seq<Date>, c: Cadence, j: nat)
    requires Periodic(c) && j < |ds| && KeyOf(c, ds[j]) != KeyOf(c, ds[0])
    ensures exists x :: x in RebalancingDates(ds, c) && KeyOf(c, x) == KeyOf(c, ds[j])
    decreases j
  {
    if IsFirstOfPeriod(ds, c, j) {
      CalendarContains(ds, c, j);
    } else {
      var i :| 0 <= i < j && KeyOf(c, ds[i]) == KeyOf(c, ds[j]);
      CalendarCoversNewPeriods(ds, c, i);
    }
  }

  /** An index that lies within one period has no rebalancing date at all. */
  lemma SinglePeriodHasEmptyCalendar(ds: seq<Date>, c: Cadence)
    requires |ds| > 0 && forall i :: 0 <= i < |ds| ==> KeyOf(c, ds[i]) == KeyOf(c, ds[0])
    ensures RebalancingDates(ds, c) == []
  {
    if RebalancingDates(ds, c) != [] {
      var i := CalendarElements(ds, c, RebalancingDates(ds, c)[0]);
    }
  }
}
