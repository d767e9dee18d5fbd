/**
  The stock screeners: `screener_handler` of api/index_0710_1.py (index pool,
  minimum market cap, sector) and of api/routes/scan_route.py (index pool,
  sector, inclusive min/max bounds on any numeric attribute).  The catalogue
  is a list of stock records whose attributes are JSON values.
 */
module Screener {
  import opened Wrappers

  /** A JSON attribute value.  Python's `bool` is a subclass of `int`. */
  datatype Value = Num(x: real) | Flag(b: bool) | Text(s: string) | Null

  /** A catalogue record: its `ticker` and its other attributes. */
  datatype Stock = Stock(ticker: string, attrs: map<string, Value>)

  /** `stock.get(key)`: `None` is both a missing key and a JSON null. */
  function Get(s: Stock, key: string): Option<Value> {
    if key in s.attrs && !s.attrs[key].Null? then Some(s.attrs[key]) else None
  }

  /** Python truthiness of `stock.get(key)`. */
  predicate Truthy(v: Option<Value>) {
    match v
    case None => false
    case Some(Num(x)) => x != 0.0
    case Some(Flag(b)) => b
    case Some(Text(s)) => |s| > 0
    case Some(Null) => false
  }

  /** `isinstance(v, (int, float))` and the number it compares as (`True` is 1). */
  function Numeric(v: Option<Value>): (n: Option<real>)
    ensures n.Some? <==> v.Some? && (v.value.Num? || v.value.Flag?)
  {
    match v
    case Some(Num(x)) => Some(x)
    case Some(Flag(b)) => Some(if b then 1.0 else 0.0)
    case _ => None
  }

  /** The list comprehension `[s for s in xs if p(s)]`. */
  function Filter(xs: seq<Stock>, p: Stock -> bool): (r: seq<Stock>)
    ensures |r| <= |xs|
  {
    if |xs| == 0 then []
    else Filter(xs[..|xs| - 1], p) + (if p(xs[|xs| - 1]) then [xs[|xs| - 1]] else [])
  }

  function Tickers(xs: seq<Stock>): (r: seq<string>)
    ensures |r| == |xs| && forall i :: 0 <= i < |xs| ==> r[i] == xs[i].ticker
  {
    seq(|xs|, i requires 0 <= i < |xs| => xs[i].ticker)
  }

  /** A filtered list holds exactly the elements that satisfy the test. */
  lemma {:induction false} FilterMembership(xs: seq<Stock>, p: Stock -> bool)
    ensures forall s :: s in Filter(xs, p) <==> s in xs && p(s)
  {
    if |xs| > 0 {
      var init := xs[..|xs| - 1];
      FilterMembership(init, p);
      assert xs == init + [xs[|xs| - 1]];
    }
  }

  /** Filtering keeps input order: it distributes over concatenation. */
  lemma {:induction false} FilterAppend(xs: seq<Stock>, ys: seq<Stock>, p: Stock -> bool)
    ensures Filter(xs + ys, p) == Filter(xs, p) + Filter(ys, p)
  {
    if |ys| == 0 {
      assert xs + ys == xs;
    } else {
      var init := ys[..|ys| - 1];
      assert (xs + ys)[..|xs + ys| - 1] == xs + init;
      assert (xs + ys)[|xs + ys| - 1] == ys[|ys| - 1];
      FilterAppend(xs, init, p);
    }
  }

  /** A test every element passes filters nothing out. */
  lemma {:induction false} FilterAll(xs: seq<Stock>, p: Stock -> bool)
    requires forall i :: 0 <= i < |xs| ==> p(xs[i])
    ensures Filter(xs, p) == xs
  {
    if |xs| > 0 {
      var init := xs[..|xs| - 1];
      FilterAll(init, p);
      assert xs == init + [xs[|xs| - 1]];
    }
  }

  function HasFlag(flag: string): Stock -> bool {
    s => Truthy(Get(s, flag))
  }

  // ---------------------------------------------------------------------
  // api/index_0710_1.py

  /** The 0710_1 pools: three indices by their flag, anything else the whole catalogue. */
  function Pool0710(stocks: seq<Stock>, index: string): seq<Stock> {
    if index == "sp500" then Filter(stocks, HasFlag("in_sp500"))
    else if index == "nasdaq100" then Filter(stocks, HasFlag("in_nasdaq100"))
    else if index == "russell3000" then Filter(stocks, HasFlag("in_russell3000"))
    else stocks
  }

  /**
    A stock is in a 0710_1 pool exactly when it is in the catalogue and, for
    the three named indices, carries that index's flag.
   */
  lemma Pool0710Membership(stocks: seq<Stock>, index: string, s: Stock)
    ensures s in Pool0710(stocks, index) <==>
      s in stocks
      && (index == "sp500" ==> Truthy(Get(s, "in_sp500")))
      && (index == "nasdaq100" ==> Truthy(Get(s, "in_nasdaq100")))
      && (index == "russell3000" ==> Truthy(Get(s, "in_russell3000")))
  {
    FilterMembership(stocks, HasFlag("in_sp500"));
    FilterMembership(stocks, HasFlag("in_nasdaq100"));
    FilterMembership(stocks, HasFlag("in_russell3000"));
  }

  /**
    `stock.get('marketCap', 0)` as a number: a missing key is 0, and a value
    Python cannot order against a number (a null or a string) has none.
   */
  function MarketCap(s: Stock): Option<real> {
    if "marketCap" in s.attrs then Numeric(Some(s.attrs["marketCap"])) else Some(0.0)
  }

  predicate SectorMatches(s: Stock, sector: string) {
    sector == "any" || Get(s, "sector") == Some(Text(sector))
  }

  /** The screener's answer: the tickers, or the comparison error that aborts the loop. */
  datatype Screened = Accepted(tickers: seq<string>) | ComparisonError

  /**
    The reference definition of the 0710_1 loop: the pool's tickers whose
    market cap reaches the minimum and whose sector matches, aborted by the
    first market cap that cannot be compared.
   */
  function Screen0710(pool: seq<Stock>, minCap: real, sector: string): Screened {
    if |pool| == 0 then Accepted([])
    else
      match Screen0710(pool[..|pool| - 1], minCap, sector)
      case ComparisonError => ComparisonError
      case Accepted(ts) =>
        var s := pool[|pool| - 1];
        match MarketCap(s)
        case None => ComparisonError
        case Some(c) =>
          if c < minCap || !SectorMatches(s, sector) then Accepted(ts) else Accepted(ts + [s.ticker])
  }

  /** The loop of the 0710_1 `screener_handler`. */
  method ScreenByMarketCap(stocks: seq<Stock>, index: string, minCap: real, sector: string) returns (r: Screened)
    ensures r == Screen0710(Pool0710(stocks, index), minCap, sector)
  {
    var pool := Pool0710(stocks, index);
    var filtered: seq<string> := [];
    var k := 0;
    while k < |pool|
      invariant 0 <= k <= |pool|
      invariant Screen0710(pool[..k], minCap, sector) == Accepted(filtered)
    {
      var s := pool[k];
      assert pool[..k + 1][..k] == pool[..k];
      var cap := MarketCap(s);
      if cap.None? {
        r := ComparisonError;
        EarlyErrorPersists(pool, k + 1, minCap, sector);
        return;
      }
      if cap.value >= minCap && SectorMatches(s, sector) {
        filtered := filtered + [s.ticker];
      }
      k := k + 1;
    }
    assert pool[..|pool|] == pool;
    r := Accepted(filtered);
  }

  /** Once a prefix has failed, the whole pool fails. */
  lemma EarlyErrorPersists(pool: seq<Stock>, k: nat, minCap: real, sector: string)
    requires k <= |pool| && Screen0710(pool[..k], minCap, sector) == ComparisonError
    ensures Screen0710(pool, minCap, sector) == ComparisonError
    decreases |pool| - k
  {
    if k < |pool| {
      assert pool[..k + 1][..k] == pool[..k];
      EarlyErrorPersists(pool, k + 1, minCap, sector);
    } else {
      assert pool[..k] == pool;
    }
  }

  function CapAndSector(minCap: real, sector: string): Stock -> bool {
    s => MarketCap(s).Some? && MarketCap(s).value >= minCap && SectorMatches(s, sector)
  }

  /**
    The 0710_1 screener fails exactly when some pool stock has a market cap
    that cannot be compared; otherwise it returns, in pool order, the
    tickers that reach the minimum market cap (missing counts as 0) and
    match the sector.
   */
  lemma {:induction false} Screen0710Meaning(pool: seq<Stock>, minCap: real, sector: string)
    ensures Screen0710(pool, minCap, sector).ComparisonError?
      <==> exists i :: 0 <= i < |pool| && MarketCap(pool[i]).None?
    ensures Screen0710(pool, minCap, sector).Accepted? ==>
      Screen0710(pool, minCap, sector).tickers == Tickers(Filter(pool, CapAndSector(minCap, sector)))
  {
    if |pool| > 0 {
      var init := pool[..|pool| - 1];
      Screen0710Meaning(init, minCap, sector);
      assert forall i :: 0 <= i < |init| ==> init[i] == pool[i];
      if Screen0710(init, minCap, sector).ComparisonError? {
        var i :| 0 <= i < |init| && MarketCap(init[i]).None?;
        assert MarketCap(pool[i]).None?;
      } else if MarketCap(pool[|pool| - 1]).Some? {
        forall i | 0 <= i < |pool| ensures MarketCap(pool[i]).Some? {
          if i < |init| { assert pool[i] == init[i]; }
        }
      }
    }
  }

  // ---------------------------------------------------------------------
  // api/routes/scan_route.py

  /** `nasdaq100` selects its flag; every other index, known or not, the S&P 500. */
  function PoolOf(stocks: seq<Stock>, index: string): seq<Stock> {
    if index == "nasdaq100" then Filter(stocks, HasFlag("in_nasdaq100"))
    else Filter(stocks, HasFlag("in_sp500"))
  }

  /** One entry of `filters`: an attribute and its optional inclusive bounds. */
  datatype Bound = Bound(key: string, min: Option<real>, max: Option<real>)

  /** A stock passes a filter when the attribute is numeric and within both given bounds. */
  predicate Passes(s: Stock, f: Bound) {
    match Numeric(Get(s, f.key))
    case None => false
    case Some(x) => (f.min.None? || f.min.value <= x) && (f.max.None? || x <= f.max.value)
  }

  predicate Admitted(s: Stock, sector: string, filters: seq<Bound>) {
    SectorMatches(s, sector) && forall j :: 0 <= j < |filters| ==> Passes(s, filters[j])
  }

  function AdmittedBy(sector: string, filters: seq<Bound>): Stock -> bool {
    s => Admitted(s, sector, filters)
  }

  /** The inner loop over the filters, with its `match` flag and `break`s. */
  method MatchesFilters(s: Stock, filters: seq<Bound>) returns (ok: bool)
    ensures ok <==> forall j :: 0 <= j < |filters| ==> Passes(s, filters[j])
  {
    ok := true;
    var j := 0;
    while j < |filters|
      invariant 0 <= j <= |filters|
      invariant forall i :: 0 <= i < j ==> Passes(s, filters[i])
    {
      var f := filters[j];
      var v := Numeric(Get(s, f.key));
      if v.None? {
        ok := false;
        break;
      }
      if f.min.Some? && v.value < f.min.value {
        ok := false;
        break;
      }
      if f.max.Some? && v.value > f.max.value {
        ok := false;
        break;
      }
      j := j + 1;
    }
  }

  /** Extending the input by one stock extends the filtered tickers by at most that stock's ticker. */
  lemma TickersStep(xs: seq<Stock>, p: Stock -> bool, k: nat)
    requires k < |xs|
    ensures Tickers(Filter(xs[..k + 1], p)) == Tickers(Filter(xs[..k], p)) + (if p(xs[k]) then [xs[k].ticker] else [])
  {
    assert xs[..k + 1][..k] == xs[..k];
    assert xs[..k + 1][k] == xs[k];
  }

  /** The scan_route `screener_handler`: the admitted pool tickers, in pool order. */
  method ScreenStocks(stocks: seq<Stock>, index: string, sector: string, filters: seq<Bound>) returns (r: seq<string>)
    ensures r == Tickers(Filter(PoolOf(stocks, index), AdmittedBy(sector, filters)))
  {
    var pool := PoolOf(stocks, index);
    r := [];
    for k := 0 to |pool|
      invariant r == Tickers(Filter(pool[..k], AdmittedBy(sector, filters)))
    {
      var s := pool[k];
      TickersStep(pool, AdmittedBy(sector, filters), k);
      if sector != "any" && Get(s, "sector") != Some(Text(sector)) {
        continue;
      }
      var ok := MatchesFilters(s, filters);
      if ok {
        r := r + [s.ticker];
      }
    }
    assert pool[..|pool|] == pool;
  }

  /**
    A stock is in the pool exactly when it is in the catalogue with the
    pool's flag set, and unknown index names use the S&P 500 flag.
   */
  lemma PoolMembership(stocks: seq<Stock>, index: string, s: Stock)
    ensures s in PoolOf(stocks, index) <==>
      s in stocks && Truthy(Get(s, if index == "nasdaq100" then "in_nasdaq100" else "in_sp500"))
  {
    FilterMembership(stocks, HasFlag("in_nasdaq100"));
    FilterMembership(stocks, HasFlag("in_sp500"));
  }

  /**
    A pool stock survives exactly when its sector matches (or the sector is
    `any`) and every filter attribute is numeric and within its bounds.
   */
  lemma ScreenMembership(pool: seq<Stock>, sector: string, filters: seq<Bound>, s: Stock)
    ensures s in Filter(pool, AdmittedBy(sector, filters)) <==>
      s in pool && SectorMatches(s, sector)
      && forall j :: 0 <= j < |filters| ==> Passes(s, filters[j])
  {
    FilterMembership(pool, AdmittedBy(sector, filters));
  }

  /** Bounds are inclusive: a value on either bound passes. */
  lemma BoundsInclusive(s: Stock, key: string, x: real)
    requires Get(s, key) == Some(Num(x))
    ensures Passes(s, Bound(key, Some(x), Some(x)))
  {
  }

  /** A missing or non-numeric attribute fails every filter on it, even an unbounded one. */
  lemma NonNumericExcludes(s: Stock, f: Bound)
    requires Numeric(Get(s, f.key)).None?
    ensures !Passes(s, f)
  {
  }

  /** No filters and sector `any` return the whole pool. */
  lemma NoFiltersKeepPool(pool: seq<Stock>)
    ensures Filter(pool, AdmittedBy("any", [])) == pool
  {
    FilterAll(pool, AdmittedBy("any", []));
  }
}
