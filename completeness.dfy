/**
  `validate_data_completeness` (api/utils/data_handler.py, repeated in
  api/index_0710_1.py) and the inline check of api/index_v0.py: the tickers
  whose first valid price comes more than five business days after the
  requested start date.
 */
module Completeness {
  import opened Wrappers
  import opened Dates

  /** The raw price table: a date index and a column of optional prices per ticker. */
  datatype RawTable = RawTable(dates: seq<Date>, columns: map<string, seq<Option<real>>>)

  predicate TableWellFormed(t: RawTable) {
    forall x :: x in t.columns ==> |t.columns[x]| == |t.dates|
  }

  /** `first_valid_index()`: the position of the first present value, if any. */
  function FirstValidIndex(col: seq<Option<real>>): (o: Option<nat>)
    ensures o.None? <==> forall j :: 0 <= j < |col| ==> col[j].None?
    ensures o.Some? ==> o.value < |col| && col[o.value].Some? && forall j :: 0 <= j < o.value ==> col[j].None?
  {
    if |col| == 0 then None
    else if col[0].Some? then Some(0)
    else
      match FirstValidIndex(col[1..])
      case None => None
      case Some(i) => Some(i + 1)
  }

  /** One entry of the warning list: the ticker and the date its data starts. */
  datatype Problem = Problem(ticker: string, startDate: Date)

  /** `first_valid_date > requested_start_date + BDay(5)`. */
  predicate StartsLate(first: Date, requested: Date) {
    DayNumber(first) > AddBusinessDays(DayNumber(requested), 5)
  }

  /** The entry reported for a ticker, if any: a column with a first valid date that starts late. */
  function ProblemOf(t: RawTable, x: string, requested: Date): Option<Problem>
    requires TableWellFormed(t)
  {
    if x !in t.columns then None
    else
      match FirstValidIndex(t.columns[x])
      case None => None
      case Some(i) =>
        if StartsLate(t.dates[i], requested) then Some(Problem(x, t.dates[i])) else None
  }

  /** The reference definition: the tickers' entries in input order. */
  function LateTickers(t: RawTable, tickers: seq<string>, requested: Date): seq<Problem>
    requires TableWellFormed(t)
  {
    if |tickers| == 0 then []
    else
      LateTickers(t, tickers[..|tickers| - 1], requested)
      + match ProblemOf(t, tickers[|tickers| - 1], requested)
        case Some(p) => [p]
        case None => []
  }

  /** `validate_data_completeness`: the loop appending to `problematic_tickers`. */
  method ValidateDataCompleteness(t: RawTable, tickers: seq<string>, requested: Date) returns (problems: seq<Problem>)
    requires TableWellFormed(t)
    ensures problems == LateTickers(t, tickers, requested)
  {
    problems := [];
    var cutoff := FiveBusinessDaysAfter(DayNumber(requested));
    FiveBusinessDaysClosedForm(DayNumber(requested));
    for k := 0 to |tickers|
      invariant problems == LateTickers(t, tickers[..k], requested)
    {
      var x := tickers[k];
      assert tickers[..k + 1][..k] == tickers[..k];
      if x in t.columns {
        var first := FirstValidIndex(t.columns[x]);
        if first.Some? && DayNumber(t.dates[first.value]) > cutoff {
          problems := problems + [Problem(x, t.dates[first.value])];
        }
      }
    }
    assert tickers[..|tickers|] == tickers;
  }

  /**
    The inline check of api/index_v0.py, which indexes the column directly
    and so needs every ticker to be a column of the table.
   */
  method InlineCompletenessCheck(t: RawTable, tickers: seq<string>, requested: Date) returns (problems: seq<Problem>)
    requires TableWellFormed(t) && forall k :: 0 <= k < |tickers| ==> tickers[k] in t.columns
    ensures problems == LateTickers(t, tickers, requested)
  {
    problems := [];
    var cutoff := FiveBusinessDaysAfter(DayNumber(requested));
    FiveBusinessDaysClosedForm(DayNumber(requested));
    for k := 0 to |tickers|
      invariant problems == LateTickers(t, tickers[..k], requested)
    {
      var x := tickers[k];
      assert tickers[..k + 1][..k] == tickers[..k];
      var first := FirstValidIndex(t.columns[x]);
      if first.Some? && DayNumber(t.dates[first.value]) > cutoff {
        problems := problems + [Problem(x, t.dates[first.value])];
      }
    }
    assert tickers[..|tickers|] == tickers;
  }

  // ---------------------------------------------------------------------
  // Properties of the check

  /** The list of a concatenation is the concatenation of the lists: input order is kept. */
  lemma {:induction false} LateTickersAppend(t: RawTable, a: seq<string>, b: seq<string>, requested: Date)
    requires TableWellFormed(t)
    ensures LateTickers(t, a + b, requested) == LateTickers(t, a, requested) + LateTickers(t, b, requested)
  {
    if |b| > 0 {
      var b' := b[..|b| - 1];
      assert (a + b)[..|a + b| - 1] == a + b';
      assert (a + b)[|a + b| - 1] == b[|b| - 1];
      LateTickersAppend(t, a, b', requested);
    } else {
      assert a + b == a;
    }
  }

  /**
    Every entry names a requested ticker that is a column of the table,
    has a first valid date, starts late, and carries that first valid date.
   */
  lemma {:induction false} EntriesAreLateTickers(t: RawTable, tickers: seq<string>, requested: Date, k: nat)
    requires TableWellFormed(t) && k < |LateTickers(t, tickers, requested)|
    ensures var p := LateTickers(t, tickers, requested)[k];
      p.ticker in tickers && p.ticker in t.columns
      && FirstValidIndex(t.columns[p.ticker]).Some?
      && p.startDate == t.dates[FirstValidIndex(t.columns[p.ticker]).value]
      && StartsLate(p.startDate, requested)
  {
    var init := tickers[..|tickers| - 1];
    var prev := LateTickers(t, init, requested);
    if k < |prev| {
      EntriesAreLateTickers(t, init, requested, k);
      assert LateTickers(t, tickers, requested)[k] == prev[k];
      assert forall x :: x in init ==> x in tickers;
    }
  }

  /** Every requested ticker whose column starts late has its entry in the list. */
  lemma {:induction false} LateTickersAreReported(t: RawTable, tickers: seq<string>, requested: Date, k: nat)
    requires TableWellFormed(t) && k < |tickers|
    requires tickers[k] in t.columns && FirstValidIndex(t.columns[tickers[k]]).Some?
    requires StartsLate(t.dates[FirstValidIndex(t.columns[tickers[k]]).value], requested)
    ensures Problem(tickers[k], t.dates[FirstValidIndex(t.columns[tickers[k]]).value]) in LateTickers(t, tickers, requested)
  {
    var init := tickers[..|tickers| - 1];
    if k < |tickers| - 1 {
      assert init[k] == tickers[k];
      LateTickersAreReported(t, init, requested, k);
    }
  }

  /** A ticker that is not a column, or has no valid value at all, is never reported. */
  lemma AbsentOrEmptyNeverReported(t: RawTable, tickers: seq<string>, requested: Date, x: string)
    requires TableWellFormed(t)
    requires x !in t.columns || forall j :: 0 <= j < |t.columns[x]| ==> t.columns[x][j].None?
    ensures forall k :: 0 <= k < |LateTickers(t, tickers, requested)| ==> LateTickers(t, tickers, requested)[k].ticker != x
  {
    forall k | 0 <= k < |LateTickers(t, tickers, requested)|
      ensures LateTickers(t, tickers, requested)[k].ticker != x
    {
      EntriesAreLateTickers(t, tickers, requested, k);
    }
  }

  /** At most one entry per requested ticker, nothing else added. */
  lemma {:induction false} NoMoreEntriesThanTickers(t: RawTable, tickers: seq<string>, requested: Date)
    requires TableWellFormed(t)
    ensures |LateTickers(t, tickers, requested)| <= |tickers|
  {
    if |tickers| > 0 {
      NoMoreEntriesThanTickers(t, tickers[..|tickers| - 1], requested);
    }
  }
}
