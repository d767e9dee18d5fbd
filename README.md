# stock-backtester, modelled in Dafny

This project models the computational core of a web-based portfolio
backtester. It covers four revisions of the backtest engine:
`api/index_0710_1.py`, `api/index_v1.py`, `api/index_v0.py` and `api/index.py`.
It also covers the data-completeness check in `api/utils/data_handler.py`
and the scan and screener endpoints in `api/routes/scan_route.py`.

The engine works in four steps:

- **Rebalancing calendar.** A rebalancing calendar is built from the dates
  of a price table: the first trading date of each year, quarter or month,
  without the first period.
- **Simulation.** A buy-and-hold portfolio is simulated day by day. On each
  calendar date its share counts are reset to the target weights.
- **Metrics.** The simulation's value history is summarised: CAGR, maximum
  drawdown, and then volatility, Sharpe and Sortino ratios. The 0710_1
  revision also computes beta and alpha against a benchmark. The v1 and v0
  revisions compute their ratios from month-end returns. index.py reports
  infinities instead of guarding its divisions with EPS.
- **Support endpoints.** Around the engine sit three helpers:
  - the completeness check, which warns about tickers whose data starts
    more than five business days after the requested start;
  - the per-ticker scan classification;
  - two stock screeners over a catalogue of stock records.

Modules, one per file:

| file | module | contents |
|---|---|---|
| wrappers.dfy | Wrappers | `Option` |
| dates.dfy | Dates | civil dates, the day count since 1970-01-01, weekdays, pandas' `BDay` offset |
| calendar.dfy | Calendar | `get_rebalancing_dates`, guarded and unguarded |
| stats.dfy | Stats | sums, `pct_change`, sample variance and covariance, `cummax`, drawdowns, the non-finite tag, `Pow`/`Sqrt` as parameters |
| simulation.dfy | Simulation | `run_simulation` for all four revisions, as reference functions and as an array-based loop |
| metrics.dfy | Metrics | `calculate_metrics` of index_0710_1.py, with its in-place column writes |
| metrics_variants.dfy | MetricsVariants | the month-end metrics of index_v1.py and index_v0.py, and the daily metrics of index.py |
| completeness.dfy | Completeness | `validate_data_completeness` and the inline check of index_v0.py |
| screener.dfy | Screener | both `screener_handler`s |
| scan.dfy | Scan | the per-ticker loop of `scan_handler` |

Each loop of the source is a method. Each method is proved equal to a
reference function, and the properties are lemmas about those functions.

Python's floating-point numbers are modelled as exact reals. The fractional
power and the square root are opaque parameters, gathered in the
`Stats.Analytic` record. A value numpy would leave infinite is the explicit
`Stats.Extended` tag `NonFinite`, and the source's normalisation turns that
tag into 0.

## Model

| member | source | states |
|---|---|---|
| Dates.DaysInMonth | api/index_0710_1.py:37 | month lengths lie between 28 and 31; February has 29 days exactly in leap years |
| Dates.Quarter | api/index_0710_1.py:105 | the quarter of month m is the q with 3(q-1) < m <= 3q |
| Dates.IncreasingIsDistinct | api/index_0710_1.py:83-84 | a strictly increasing date index has no repeated date |
| Dates.MarchYearStep | api/index_0710_1.py:37 | the day count advances by 365 or 366 per March-based year, as leap years dictate |
| Dates.DayNumberOfNextDate | api/index_0710_1.py:37 | `(end_date - start_date).days` counts calendar days: the next date is one day later |
| Dates.DayNumberOfEpoch | api/index_0710_1.py:37 | the day count is anchored at 1970-01-01 |
| Dates.WeekdayStep | api/utils/data_handler.py:66 | the weekday advances by one per calendar day, cyclically |
| Dates.NextBusinessDay | api/utils/data_handler.py:66 | the next Monday-to-Friday day after z, with no business day in between |
| Dates.AddBusinessDays | api/utils/data_handler.py:66 | `+ BDay(n)` lands on a business day strictly after the start |
| Dates.AddBusinessDaysCount | api/utils/data_handler.py:66 | exactly n business days lie after the start up to and including `start + BDay(n)` |
| Dates.FiveBusinessDaysClosedForm | api/utils/data_handler.py:66 | stepping five business days equals the weekday closed form the check compares with |
| Calendar.ParseCadence | api/index_0710_1.py:101-107 | a period string is unrecognised exactly when it is none of never/annually/quarterly/monthly |
| Calendar.RebalancingDates | api/index_0710_1.py:101-108 | `get_rebalancing_dates` with its `len(...) > 1` guard, as a definition; its meaning is stated by `CalendarMembership`, `CalendarIncreasing` and `CalendarOnePerPeriod`; also at api/index_v1.py and api/index_v0.py |
| Calendar.RebalancingDatesUnguarded | api/index.py:40-51 | index.py's bare `rebalance_dates[1:]`, as a definition; `UnguardedSliceAgrees` proves it equal to `RebalancingDates` |
| Calendar.DropDuplicatesSplit | api/index_0710_1.py:104-106 | `drop_duplicates(keep='first')` over a prefix and the rest is the prefix's firsts followed by the rest's new periods |
| Calendar.PeriodStartsAreFirstsOfPeriods | api/index_0710_1.py:104-106 | `drop_duplicates` keeps exactly the dates that open their period, in order |
| Calendar.FirstsWitness | api/index_0710_1.py:104-106 | every kept date is a date of the index that opens its period |
| Calendar.FirstsPosition | api/index_0710_1.py:104-106 | every date that opens its period is kept |
| Calendar.FirstsKeysDistinct | api/index_0710_1.py:104-106 | no two kept dates share a period |
| Calendar.FirstsIncreasing | api/index_0710_1.py:104-106 | kept dates stay in index order |
| Calendar.FirstsStartWithFirstDate | api/index_0710_1.py:104-106 | the first kept date is the index's first date |
| Calendar.UnguardedSliceAgrees | api/index.py:40-51 | index.py's unguarded `rebalance_dates[1:]` equals the guarded slice of the other revisions, for every input |
| Calendar.NonPeriodicCadenceIsEmpty | api/index_0710_1.py:102-107 | `never` and every unrecognised period give an empty calendar |
| Calendar.CalendarIsTailOfStarts | api/index_0710_1.py:108 | the calendar is the period starts without the first one, and empty for an empty index |
| Calendar.CalendarElements | api/index_0710_1.py:103-108 | every calendar date is a later index date that opens a period other than the first date's |
| Calendar.CalendarContains | api/index_0710_1.py:103-108 | every date that opens a period other than the first date's is in the calendar |
| Calendar.CalendarExcludesFirstDate | api/index_0710_1.py:108 | the first index date is never a rebalancing date |
| Calendar.CalendarMembership | api/index_0710_1.py:103-108 | for distinct dates: a date is in the calendar iff the cadence is periodic, the date is not the first, and it opens its period |
| Calendar.CalendarIncreasing | api/index_0710_1.py:103-108 | the calendar is an increasing subsequence of the index |
| Calendar.CalendarOnePerPeriod | api/index_0710_1.py:103-108 | at most one calendar date per period, and none in the first period |
| Calendar.CalendarCoversNewPeriods | api/index_0710_1.py:103-108 | every period after the first that has a date also has a calendar date |
| Calendar.SinglePeriodHasEmptyCalendar | api/index_0710_1.py:108 | a table within one period never rebalances, in every revision; also at api/index.py:51 |
| Stats.DotSelfNonNegative | api/index_0710_1.py:51 | a sum of squares is non-negative |
| Stats.ClampPositiveEntries | api/index_0710_1.py:50 | clamped entries are non-positive, zero exactly where the return was non-negative, and unchanged where it was non-positive |
| Stats.SampleVariance | api/index_0710_1.py:61-63 | the sample variance is non-negative |
| Stats.Negatives | api/index.py:34 | `r[r < 0]` holds exactly the negative values of r and is no longer than r |
| Stats.NegativesMultiplicity | api/index.py:34 | `r[r < 0]` keeps each negative value exactly as often as r holds it, and no other value |
| Stats.NegativesAppend | api/index.py:34 | `r[r < 0]` keeps the order of r: it distributes over concatenation |
| Stats.PctChange | api/index_0710_1.py:42 | one return per point after the first, dated at the later point |
| Stats.PctChangeAt | api/index_0710_1.py:42 | each return times the previous value is the change of value |
| Stats.RunningPeak | api/index_0710_1.py:39 | the running peak is at least the first and the current value |
| Stats.RunningPeakIsMaximum | api/index_0710_1.py:39 | `cummax` bounds every value so far and is one of them |
| Stats.Drawdown | api/index_0710_1.py:40 | a drawdown is never positive |
| Stats.MinDrawdownIsMinimum | api/index_0710_1.py:41 | `drawdown.min()` is below every drawdown and is one of them |
| Stats.MaxDrawdownBounds | api/index_0710_1.py:39-41 | mdd <= 0; with non-negative values mdd > -1 with EPS and mdd >= -1 without; also at api/index.py:22-24 |
| Stats.Ratio | api/index_0710_1.py:47-71 | a division is non-finite exactly when the divisor is zero, and otherwise inverts the multiplication |
| Simulation.Weights | api/index_0710_1.py:79 | weights are the percentages divided by 100 |
| Simulation.TargetShares | api/index_0710_1.py:87-95 | each share count times its (EPS-guarded or raw) price is the weight's part of the value; also at api/index.py:65 |
| Simulation.History | api/index_0710_1.py:83-93 | one point per date of the table, in order, with the first value the initial amount itself |
| Simulation.SharesAfter | api/index_0710_1.py:86-94 | the share counts held after day k: the initial allocation, recomputed on every rebalancing day and kept otherwise; one count per ticker; also at api/index.py:65-73 |
| Simulation.Basis | api/index_0710_1.py:91-94 | the value a rebalance distributes, as a definition: the previous day's prices in index_v0.py, the day's own elsewhere; `PreviousDayRebalanceBasis` and `SameDayRebalanceKeepsValue` state what follows; also at api/index_v0.py:115-124 |
| Simulation.ValueAt | api/index_0710_1.py:87-92 | the recorded value of day k, as a definition: the initial amount on day 0; `History`, `SimulateDay` and `ValueNonNegative` state its properties; also at api/index_v0.py:115-124 |
| Simulation.Simulate | api/index_0710_1.py:82 | no history exactly when the table is empty |
| Simulation.ValueOfHoldings | api/index_0710_1.py:92 | `(shares * prices).sum()` over the share array |
| Simulation.ResetShares | api/index_0710_1.py:95 | the share array becomes the target shares of the given value |
| Simulation.SimulateDay | api/index_0710_1.py:90-95 | one loop pass leaves the shares `SharesAfter` and the recorded value `ValueAt` give for that day; also at api/index_v1.py:112-121, api/index_v0.py:115-124, api/index.py:69-75 |
| Simulation.RunSimulation | api/index_0710_1.py:77-96 | the loop over dates produces exactly the specified history, or none for an empty table; also at api/index_v1.py:92-123, api/index_v0.py:99-126, api/index.py:53-77 |
| Simulation.RebalanceHitsTargetWeights | api/index_0710_1.py:94-95 | after a rebalance every holding is its weight's part of the basis value; also at api/index_v0.py:119-121 |
| Simulation.SharesCarryOver | api/index_0710_1.py:89-95 | on a day outside the calendar no share count changes |
| Simulation.SharesConstantWithoutRebalancing | api/index_0710_1.py:87-94 | without calendar dates the initial share counts are kept throughout |
| Simulation.NonPeriodicNeverRebalances | api/index_0710_1.py:102-107 | `never` and unknown periods never rebalance, in every revision; also at api/index.py:41 |
| Simulation.DotOfFractions | api/index_0710_1.py:92 | holdings each worth w[t] of v are together worth v times the weight sum |
| Simulation.UnguardedTargetValue | api/index.py:72 | without EPS, target shares are worth the distributed value times the weight sum at the prices they were bought at; also at api/index_v0.py:121 |
| Simulation.SameDayRebalanceKeepsValue | api/index.py:70-73 | index.py: the new shares are worth the recorded value (times the weight sum) at that day's prices |
| Simulation.PreviousDayRebalanceBasis | api/index_v0.py:119-122 | index_v0.py: the value recorded on a rebalancing day is the distributed basis times the weight sum |
| Simulation.PreviousDayRebalanceValue | api/index_v0.py:117-122 | index_v0.py: the value recorded on a rebalancing day is the old shares at the previous day's prices times the weight sum |
| Simulation.PreviousDayValueRepeats | api/index_v0.py:117-122 | index_v0.py, from the second day on: the previous day's recorded value is the old shares at the previous day's prices, and the rebalancing day's value is that same amount times the weight sum, so with weights summing to 1 the day repeats the previous value |
| Simulation.SingleTickerValue | api/index_0710_1.py:79-92 | one ticker at 100% never rebalanced is worth initial * price[k] / (price[0] [+ EPS]) |
| Simulation.DotNonNegative | api/index_0710_1.py:92 | non-negative holdings at non-negative prices have non-negative value |
| Simulation.TargetSharesNonNegative | api/index_0710_1.py:95 | a non-negative value buys non-negative share counts |
| Simulation.SharesNonNegative | api/index_0710_1.py:87-95 | with non-negative inputs every share count stays non-negative |
| Simulation.ValueNonNegative | api/index_0710_1.py:88-93 | with non-negative inputs every recorded value is non-negative |
| Simulation.PreviousDayValuationLosesMove | api/index_v0.py:119-122 | one ticker rising from 100 to 110 on a monthly rebalancing day: index_v0.py records 10000, index.py 11000 |
| Metrics.Lookup | api/index_0710_1.py:58 | a date is found exactly when the benchmark has a return on it |
| Metrics.LookupFound | api/index_0710_1.py:58 | a value the join finds is the value of a benchmark return on that very date |
| Metrics.Align | api/index_0710_1.py:58 | the inner join has at most one row per portfolio return |
| Metrics.AlignAppend | api/index_0710_1.py:58 | joining a concatenation joins each part in turn, so the join lists each matched return once, in portfolio order |
| Metrics.PeakColumn | api/index_0710_1.py:39 | the written peak column holds the running peak at every position |
| Metrics.DrawdownFromPeaks | api/index_0710_1.py:40 | from a correct peak column, the written drawdown column holds the drawdown at every position |
| Metrics.DrawdownColumns | api/index_0710_1.py:39-40 | the written `peak` and `drawdown` columns hold the running peak and drawdown at every position |
| Metrics.ColumnMin | api/index_0710_1.py:41 | the minimum of the drawdown column is the maximum drawdown |
| Metrics.ClampInPlace | api/index_0710_1.py:50 | the array is clamped in place: positives become 0, the rest is unchanged |
| Metrics.DownsideDeviation | api/index_0710_1.py:49-51 | the clamped array gives the annualised downside deviation |
| Metrics.MaxDrawdownOfColumns | api/index_0710_1.py:39-41 | the column writes give the maximum drawdown |
| Metrics.ComputeRatioFigures | api/index_0710_1.py:45-72 | volatility, normalised Sharpe over (std + EPS), and Sortino set only above EPS |
| Metrics.CalculateMetrics | api/index_0710_1.py:28-75 | the method returns `MetricsOf` on every branch |
| Metrics.DegenerateBranches | api/index_0710_1.py:29-44 | fewer than 2 points gives all zeros; a start below EPS gives cagr 0 and mdd -1; a single return keeps cagr and mdd with zero ratios and no beta or alpha |
| Metrics.MaxDrawdownRange | api/index_0710_1.py:33-41 | the reported mdd is <= 0; with non-negative values it is >= -1, and > -1 once the start reaches EPS |
| Metrics.AlignedRowsComeFromBoth | api/index_0710_1.py:58 | every joined row pairs a portfolio return with a benchmark return on the same date, each with its own value |
| Metrics.AlignComplete | api/index_0710_1.py:58 | the inner join keeps every portfolio return whose date the benchmark has, paired with the benchmark's value on that date |
| Metrics.MetricsOf | api/index_0710_1.py:28-75 | `calculate_metrics` branch for branch, as a definition; `DegenerateBranches`, `MaxDrawdownRange`, `BetaConditions` and `SortinoNeedsDownside` state its properties |
| Metrics.BetaAlpha | api/index_0710_1.py:55-70 | beta and alpha against the benchmark, as a definition; `BetaConditions`, `BetaAlphaOfIdenticalColumns` and `BenchmarkItself` state its properties |
| Metrics.BetaConditions | api/index_0710_1.py:55-74 | beta is set iff a non-empty benchmark, more than one aligned pair and variance > EPS; alpha iff beta |
| Metrics.SortinoNeedsDownside | api/index_0710_1.py:52-54 | Sortino is non-zero only when the downside deviation exceeds EPS |
| Metrics.LookupDistinct | api/index_0710_1.py:58 | with distinct dates the join finds the very point on that date |
| Metrics.AlignWithItself | api/index_0710_1.py:58 | a series joined with itself pairs every return with itself |
| Metrics.ReturnsDatesDistinct | api/index_0710_1.py:42 | returns keep the distinct dates of the series |
| Metrics.BetaAlphaOfIdenticalColumns | api/index_0710_1.py:61-70 | identical aligned columns give beta 1 and alpha = cagr - benchmark cagr |
| Metrics.BenchmarkItself | api/index_0710_1.py:55-70 | a portfolio measured against itself has beta 1 and alpha 0 |
| MetricsVariants.MonthEnds | api/index_v1.py:42 | month-end points are no more than the points and end with the last point |
| MetricsVariants.MonthEndsAreLastOfMonth | api/index_v1.py:42 | every month-end point is a history point that is the last of its month; also at api/index_v0.py:39 |
| MetricsVariants.MonthEndsAreLastsOfMonths | api/index_v1.py:42 | the month-end points are exactly the points that end their month, in index order; also at api/index_v0.py:39 |
| MetricsVariants.LastOfMonthIsMonthEnd | api/index_v1.py:42 | every point that ends its month is a month-end point; also at api/index_v0.py:39 |
| MetricsVariants.MonthlyMetricsOf | api/index_v1.py:18-76 | the month-end `calculate_metrics` branch for branch, as a definition; `MonthlyDegenerateBranches`, `MonthlySharpeNeedsDeviation` and `MonthlySortinoInfinityIsZeroed` state its properties; also at api/index_v0.py:11-82 |
| MetricsVariants.MonthlyDownsideDeviation | api/index_v1.py:59-61 | the in-place clamp gives the root of the sum of squares over the number of returns; also at api/index_v0.py:59-63 |
| MetricsVariants.ComputeMonthlyRatios | api/index_v1.py:48-71 | Sharpe and Sortino as `MonthlyRatios` computes them; also at api/index_v0.py:46-75 |
| MetricsVariants.CalculateMonthlyMetrics | api/index_v1.py:18-76 | the method returns `MonthlyMetricsOf`, the month-end metrics; also at api/index_v0.py:11-82 |
| MetricsVariants.MonthlyDegenerateBranches | api/index_v1.py:22-45 | fewer than 2 points gives zeros; start < EPS gives (0, -1, 0, 0); fewer than 2 monthly returns keeps cagr and mdd with zero ratios |
| MetricsVariants.MonthlySharpeNeedsDeviation | api/index_v1.py:54-56 | Sharpe is non-zero only when the excess-return std exceeds EPS; also at api/index_v0.py:52-55 |
| MetricsVariants.MonthlySortinoInfinityIsZeroed | api/index_v1.py:63-71 | no downside deviation and a positive mean make Sortino infinite, and normalisation returns 0; also at api/index_v0.py:65-75 |
| MetricsVariants.RatioOrInfinity | api/index.py:32-36 | a division is `inf` exactly when the divisor is 0 |
| MetricsVariants.CalculateDailyMetrics | api/index.py:11-38 | the method returns `DailyMetricsOf`, the daily metrics |
| MetricsVariants.DailyMetricsOf | api/index.py:11-38 | the daily `calculate_metrics` branch for branch, as a definition; `DailyTooFewReturns`, `DailyInfinities` and `DailyDrawdownRange` state its properties |
| MetricsVariants.DailyTooFewReturns | api/index.py:12-29 | a single return gives infinite ratios, with cagr and mdd still computed |
| MetricsVariants.DailyInfinities | api/index.py:31-36 | Sharpe is infinite iff the std is 0; Sortino is infinite when fewer than 2 returns are negative |
| MetricsVariants.DailyDrawdownRange | api/index.py:22-24 | without EPS the mdd of non-negative values still lies in [-1, 0] |
| Completeness.FirstValidIndex | api/utils/data_handler.py:65 | no index exactly when every value is missing; otherwise the first present position |
| Completeness.LateTickers | api/utils/data_handler.py:57-68 | the list `validate_data_completeness` builds, as a reference definition; `EntriesAreLateTickers` and `LateTickersAreReported` state what it holds |
| Completeness.ValidateDataCompleteness | api/utils/data_handler.py:57-68 | the loop produces exactly the reference list of late tickers; also at api/index_0710_1.py:110-117 |
| Completeness.InlineCompletenessCheck | api/index_v0.py:158-163 | the inline loop over columns produces the same list |
| Completeness.LateTickersAppend | api/utils/data_handler.py:62-68 | the list keeps request order: it distributes over concatenation |
| Completeness.EntriesAreLateTickers | api/utils/data_handler.py:63-67 | every entry is a requested column with data, starting strictly after start + BDay(5), dated at its first valid date |
| Completeness.LateTickersAreReported | api/utils/data_handler.py:63-67 | every requested column that starts late is reported with its first valid date |
| Completeness.AbsentOrEmptyNeverReported | api/utils/data_handler.py:63-66 | a ticker that is not a column, or has no valid value, is never reported |
| Completeness.NoMoreEntriesThanTickers | api/utils/data_handler.py:62-68 | no more entries than requested tickers |
| Screener.Numeric | api/routes/scan_route.py:105 | a value is numeric exactly when it is a number or a boolean |
| Screener.FilterMembership | api/index_0710_1.py:231-237 | a list comprehension keeps exactly the elements that pass |
| Screener.FilterAppend | api/routes/scan_route.py:117-118 | filtering keeps input order |
| Screener.FilterAll | api/routes/scan_route.py:98-118 | a test every element passes removes nothing |
| Screener.ScreenByMarketCap | api/index_0710_1.py:220-246 | the 0710_1 loop produces exactly the reference screening |
| Screener.Pool0710 | api/index_0710_1.py:230-237 | the 0710_1 base pool, as a definition; `Pool0710Membership` states what it holds |
| Screener.Pool0710Membership | api/index_0710_1.py:230-237 | a stock is in the pool iff it is in the catalogue and, for sp500, nasdaq100 and russell3000, carries that flag; any other index keeps every stock |
| Screener.MarketCap | api/index_0710_1.py:241 | `stock.get('marketCap', 0)` as a definition: missing is 0, and a null or a string cannot be compared |
| Screener.Screen0710 | api/index_0710_1.py:239-246 | the reference definition of the 0710_1 loop; `Screen0710Meaning` states what it returns |
| Screener.EarlyErrorPersists | api/index_0710_1.py:240-241 | a market-cap comparison error aborts the whole screening |
| Screener.Screen0710Meaning | api/index_0710_1.py:230-246 | the screening fails iff some pool stock has an unorderable market cap; otherwise it lists, in pool order, the stocks with cap >= min (missing counts as 0) and a matching sector |
| Screener.MatchesFilters | api/routes/scan_route.py:102-115 | the inner loop with `break` accepts exactly when every filter passes |
| Screener.ScreenStocks | api/routes/scan_route.py:79-121 | the handler returns the tickers of the admitted pool stocks, in pool order |
| Screener.PoolMembership | api/routes/scan_route.py:89-95 | `nasdaq100` uses its flag; every other index, unknown included, the S&P 500 flag |
| Screener.PoolOf | api/routes/scan_route.py:89-95 | the scan-route pool, as a definition; `PoolMembership` states what it holds |
| Screener.Passes | api/routes/scan_route.py:104-115 | one filter test, as a definition: numeric and within each bound given; `BoundsInclusive` and `NonNumericExcludes` state its edge cases |
| Screener.ScreenMembership | api/routes/scan_route.py:99-115 | a pool stock survives iff its sector matches (or is `any`) and every filter attribute is numeric and within bounds |
| Screener.BoundsInclusive | api/routes/scan_route.py:109-115 | a value equal to both bounds passes |
| Screener.NonNumericExcludes | api/routes/scan_route.py:104-107 | a missing or non-numeric attribute fails its filter |
| Screener.NoFiltersKeepPool | api/routes/scan_route.py:98-118 | no filters and sector `any` return the whole pool |
| Scan.PresentPointsEmpty | api/routes/scan_route.py:53 | the series is empty exactly when every value is missing |
| Scan.PresentPointsStart | api/routes/scan_route.py:57-60 | the series starts at the column's first valid date |
| Scan.SingleColumnCheck | api/routes/scan_route.py:60 | the check on the single column reports just that ticker's entry, if any |
| Scan.ScanHandler | api/routes/scan_route.py:26-70 | the handler returns `ScanAll`, one classification per ticker |
| Scan.Classify | api/routes/scan_route.py:48-66 | one pass of the per-ticker loop, as a definition; `ClassifyCases` and `UnknownBeforeNoData` state its cases |
| Scan.ScanAll | api/routes/scan_route.py:26-70 | the handler's answer, as a reference definition; `OneResultPerTicker` states its shape |
| Scan.OneResultPerTicker | api/routes/scan_route.py:26-70 | an empty request is the error; otherwise one result per ticker, in request order |
| Scan.ClassifyCases | api/routes/scan_route.py:49-62 | unknown iff not in the catalogue; no data iff known and the column is absent or empty; a scanned series is non-empty and noted iff it starts late |
| Scan.UnknownBeforeNoData | api/routes/scan_route.py:49-55 | the catalogue check comes before the data check |

## Left out

- Flask routing, request parsing, `jsonify` and HTTP status codes are left out. They are transport glue. The scan's empty-request error is modelled as a value.
- `api/routes/backtest_route.py`, the `backtest_handler`s and the 0710_1 `scan_handler` are left out. They orchestrate the modelled functions around downloads.
- Downloads and caching are left out: yfinance, the Gist catalogue fetch, `read_price_data_from_repo`, `TTLCache` and stdout redirection. These are I/O. The scan takes the catalogue and the price table as parameters.
- `update_data.py`, `functions/update_data_worker.py`, the `public/js` UI, the Next.js configuration and the debug endpoints are left out. They are network scraping, the user interface, empty configuration and introspection.
- `utils.calculations.calculate_metrics`, which the scan route calls, is not part of this model. A scanned result carries the price series handed to it. Whether that call raises is the parameter `raises`.
- Floating point is modelled as exact real arithmetic, with no rounding.
- The fractional power and `np.sqrt` are opaque parameters (`Stats.Analytic`). No numeric property of them is assumed.
- Stats.PctChange: a zero denominator, which numpy turns into an infinity or NaN, is excluded by requires. `Metrics.Admissible`, `MetricsVariants.MonthlyAdmissible` and `MetricsVariants.DailyAdmissible` collect these requires.
- Simulation.WellFormed: price rows that a share count divides by must have no zero divisor. This matters for index_v0.py and index.py, which divide by the raw price. The dates must be distinct, matching a pandas index without duplicates.
- MetricsVariants.DailyMetricsOf: index.py divides by the start value and by the running peak without a guard, so the model requires a positive start value.
- MetricsVariants.MonthEnds: months without any trading date are not modelled. `resample('M')` would give them empty rows.
- Metrics.BetaAlpha: the normalisation of a non-finite beta or alpha to `None` (api/index_0710_1.py:73-74) is not modelled. Reals have no infinity, and under `Admissible` every benchmark value that `pct_change` or the benchmark CAGR divides by is non-zero. So beta and alpha are always finite there.
- Completeness.InlineCompletenessCheck: the warning is formatted as a string in index_v0.py. The model keeps the ticker and its start date.
- Screener.ScreenStocks: `stock['ticker']` raising for a record without a ticker is not modelled, because every record has one. Filter bounds are numbers, so the `TypeError` of a non-numeric `min`/`max` is not modelled.
- The outer `except` branches returning HTTP 500 are left out, along with the `ValueError` from a missing environment variable.
- Dates are calendar days. Times of day and time zones are not modelled.

## Findings

| source | as written | input that shows it | evidently intended | confidence | as-written member | corrected member |
|---|---|---|---|---|---|---|
| api/index_v0.py:119-122 | on a rebalancing day the old shares are valued at the previous day's prices, new shares are bought at today's prices with that value, and today's recorded value equals the previous value, so the day's price move of the old holdings is lost | one ticker at 100%, 2024-01-31 at 100, 2024-02-01 at 110, monthly rebalancing, 10000 invested: 10000 is recorded for 2024-02-01 instead of 11000 | the holdings entering the day are valued at the day's prices, as index.py and later revisions do, and the rebalance keeps that value | medium, not executed | Simulation.PreviousDayValueRepeats, Simulation.PreviousDayValuationLosesMove | Simulation.SameDayRebalanceKeepsValue |
