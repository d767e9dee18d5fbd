/**
  The per-ticker classification of `scan_handler` in
  api/routes/scan_route.py: an unknown ticker, a ticker without data in the
  range, or a scanned ticker with its price series and the note on a late
  start.  The metrics of a scanned ticker come from
  `utils.calculations.calculate_metrics`, which is not part of this model;
  whether that call raises is a parameter.
 */
module Scan {
  import opened Wrappers
  import opened Dates
  import opened Stats
  import opened Completeness

  /** One element of the response list. */
  datatype ScanResult =
    | UnknownCode(ticker: string)
    | NoData(ticker: string)
    | CalculationError(ticker: string)
    | Scanned(ticker: string, history: seq<Point>, note: Option<Date>)

  /** The response: the 400 error for an empty request, or one result per ticker. */
  datatype ScanResponse = EmptyRequest | Results(results: seq<ScanResult>)

  /** `df_prices_raw[ticker].dropna()`: the dated prices that are present. */
  function PresentPoints(dates: seq<Date>, col: seq<Option<real>>): (r: seq<Point>)
    requires |col| == |dates|
    ensures |r| <= |col|
  {
    if |col| == 0 then []
    else
      PresentPoints(dates[..|dates| - 1], col[..|col| - 1])
      + match col[|col| - 1]
        case Some(p) => [Point(dates[|dates| - 1], p)]
        case None => []
  }

  /** The series is empty exactly when every entry of the column is missing. */
  lemma {:induction false} PresentPointsEmpty(dates: seq<Date>, col: seq<Option<real>>)
    requires |col| == |dates|
    ensures PresentPoints(dates, col) == [] <==> forall j :: 0 <= j < |col| ==> col[j].None?
  {
    if |col| > 0 {
      var init := col[..|col| - 1];
      PresentPointsEmpty(dates[..|dates| - 1], init);
      assert forall j :: 0 <= j < |init| ==> init[j] == col[j];
    }
  }

  /** The series starts at the column's first valid date. */
  lemma {:induction false} PresentPointsStart(dates: seq<Date>, col: seq<Option<real>>)
    requires |col| == |dates| && FirstValidIndex(col).Some?
    ensures PresentPoints(dates, col) != []
    ensures PresentPoints(dates, col)[0] == Point(dates[FirstValidIndex(col).value], col[FirstValidIndex(col).value].value)
  {
    var init := col[..|col| - 1];
    var dinit := dates[..|dates| - 1];
    assert forall j :: 0 <= j < |init| ==> init[j] == col[j];
    if FirstValidIndex(init).Some? {
      PresentPointsStart(dinit, init);
    } else {
      PresentPointsEmpty(dinit, init);
    }
  }

  /** The note of a scanned ticker: the start date its completeness entry reports. */
  function NoteOf(t: RawTable, x: string, requested: Date): Option<Date>
    requires TableWellFormed(t)
  {
    match ProblemOf(t, x, requested)
    case Some(p) => Some(p.startDate)
    case None => None
  }

  /**
    The reference classification of one ticker: the catalogue check first,
    then the data check, then the metrics call.
   */
  function Classify(known: set<string>, t: RawTable, requested: Date, raises: seq<Point> -> bool, x: string): ScanResult
    requires TableWellFormed(t)
  {
    if x !in known then UnknownCode(x)
    else if x !in t.columns || forall j :: 0 <= j < |t.columns[x]| ==> t.columns[x][j].None? then NoData(x)
    else
      var h := PresentPoints(t.dates, t.columns[x]);
      if raises(h) then CalculationError(x) else Scanned(x, h, NoteOf(t, x, requested))
  }

  function ScanAll(known: set<string>, t: RawTable, tickers: seq<string>, requested: Date, raises: seq<Point> -> bool): ScanResponse
    requires TableWellFormed(t)
  {
    if |tickers| == 0 then EmptyRequest
    else Results(seq(|tickers|, k requires 0 <= k < |tickers| => Classify(known, t, requested, raises, tickers[k])))
  }

  /** `df_prices_raw[[ticker]]`: the table cut down to one column. */
  function SingleColumn(t: RawTable, x: string): (s: RawTable)
    requires TableWellFormed(t) && x in t.columns
    ensures TableWellFormed(s)
  {
    RawTable(t.dates, map[x := t.columns[x]])
  }

  /** The completeness check on the single column reports that ticker's entry and nothing else. */
  lemma SingleColumnCheck(t: RawTable, x: string, requested: Date)
    requires TableWellFormed(t) && x in t.columns
    ensures LateTickers(SingleColumn(t, x), [x], requested)
      == match ProblemOf(t, x, requested) case Some(p) => [p] case None => []
  {
    assert [x][..0] == [];
  }

  /** The `for ticker in tickers` loop of `scan_handler`. */
  method ScanHandler(known: set<string>, t: RawTable, tickers: seq<string>, requested: Date, raises: seq<Point> -> bool)
    returns (r: ScanResponse)
    requires TableWellFormed(t)
    ensures r == ScanAll(known, t, tickers, requested, raises)
  {
    if |tickers| == 0 {
      return EmptyRequest;
    }
    var results: seq<ScanResult> := [];
    for k := 0 to |tickers|
      invariant |results| == k
      invariant forall i :: 0 <= i < k ==> results[i] == Classify(known, t, requested, raises, tickers[i])
    {
      var x := tickers[k];
      if x !in known {
        results := results + [UnknownCode(x)];
        continue;
      }
      if x !in t.columns {
        results := results + [NoData(x)];
        continue;
      }
      var prices := PresentPoints(t.dates, t.columns[x]);
      PresentPointsEmpty(t.dates, t.columns[x]);
      if prices == [] {
        results := results + [NoData(x)];
        continue;
      }
      var problems := ValidateDataCompleteness(SingleColumn(t, x), [x], requested);
      SingleColumnCheck(t, x, requested);
      var note: Option<Date> := None;
      if |problems| > 0 {
        note := Some(problems[0].startDate);
      }
      if raises(prices) {
        results := results + [CalculationError(x)];
      } else {
        results := results + [Scanned(x, prices, note)];
      }
    }
    r := Results(results);
  }

  // ---------------------------------------------------------------------
  // Properties of the scan

  /** A non-empty request gets exactly one result per ticker, in request order. */
  lemma OneResultPerTicker(known: set<string>, t: RawTable, tickers: seq<string>, requested: Date, raises: seq<Point> -> bool)
    requires TableWellFormed(t)
    ensures ScanAll(known, t, tickers, requested, raises).EmptyRequest? <==> |tickers| == 0
    ensures |tickers| > 0 ==>
      var rs := ScanAll(known, t, tickers, requested, raises).results;
      |rs| == |tickers| && forall k :: 0 <= k < |tickers| ==> rs[k].ticker == tickers[k]
  {
  }

  /**
    The classification is exhaustive and ordered: unknown codes first, then
    missing data (no column, or no value in it), and every scanned series is
    non-empty, with a note exactly when its data starts late.
   */
  lemma ClassifyCases(known: set<string>, t: RawTable, requested: Date, raises: seq<Point> -> bool, x: string)
    requires TableWellFormed(t)
    ensures Classify(known, t, requested, raises, x).UnknownCode? <==> x !in known
    ensures Classify(known, t, requested, raises, x).NoData? <==>
      x in known && (x !in t.columns || PresentPoints(t.dates, t.columns[x]) == [])
    ensures Classify(known, t, requested, raises, x).Scanned? ==>
      var r := Classify(known, t, requested, raises, x);
      r.history != [] && r.history == PresentPoints(t.dates, t.columns[x])
      && r.note == (if StartsLate(r.history[0].date, requested) then Some(r.history[0].date) else None)
  {
    if x in t.columns {
      PresentPointsEmpty(t.dates, t.columns[x]);
      if FirstValidIndex(t.columns[x]).Some? {
        PresentPointsStart(t.dates, t.columns[x]);
      }
    }
  }

  /** An unknown code is reported as such even when the table holds no data for it. */
  lemma UnknownBeforeNoData(known: set<string>, t: RawTable, requested: Date, raises: seq<Point> -> bool, x: string)
    requires TableWellFormed(t) && x !in known && x !in t.columns
    ensures Classify(known, t, requested, raises, x) == UnknownCode(x)
  {
  }
}
