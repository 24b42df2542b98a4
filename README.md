# IronCore quantitative core, modelled in Dafny

This project models three parts of the IronCore trading and risk tools.

- **The volatility-trigger backtest** (`strategy_lab/backtest.go`), which runs in four steps:
  - It groups the price history by ticker and sorts each group by date.
  - It scans the DXY benchmark's daily returns for a move above 1.5 times its 20-day sample standard deviation.
  - On each such trigger it ranks a fixed pool of five China power-grid assets by their 30-return correlation with the benchmark, lowest first.
  - It opens a 5-day trade in the first three picks, with a 0.15% friction cost. The trades are then summarised in a report: trade count, mean return, win rate, annualised Sharpe ratio and maximum drawdown.
- **The rule helpers of the IronCore auditor** (`sentinel/ironcore/main.go`):
  - the China/global classification of a symbol by its `.SS`/`.SZ` suffix;
  - the date-keyed join of an asset's returns with the DXY or HS300 returns;
  - the 6-month and 30-day DXY correlations;
  - the 3-sigma breach of the latest return against the last 30;
  - the HS300 market status thresholds;
  - the VIX/DXY liquidity warning;
  - the silent half hour after 9:00 Beijing time;
  - the alert decision;
  - the auditor's memory of last audit's 30-day correlations, from which it reports their change (the "correlation acceleration").
- **The volume-price divergence rule** (`risk_sentinel/whale_tracker.go`). It flags a last-day volume above 150% of the previous five days' integer average, on a close within 2% of the day before.

The modules follow the source structure:

| module | file | models |
|---|---|---|
| `Common` | `common.dfy` | the library routines (gonum `stat`, `math.Sqrt`, NaN/Inf filter) as a `Statistics` value; sums, means, `math.Abs`; `sort.Slice` as an in-place sort of an array |
| `Prices` | `prices.dfy` | price records, date order, daily returns, date search, price slices, grouping and sorting |
| `Engine` | `engine.dfy` | trigger, correlation ranking, picks, trades, `runBacktest` |
| `Metrics` | `metrics.dfy` | Sharpe ratio, maximum drawdown, the report, the whole pipeline of `main` |
| `IronCore` | `ironcore.dfy` | the auditor's rule helpers and the `Auditor` class holding `lastCorrMap` and `globalStatus` |
| `WhaleTracker` | `whale.dfy` | `detectVPD` and `abs` |

Imperative source code stays imperative here.
- Each loop that appends to a slice or accumulates a value is a method with a loop. The method is proved equal to a specification function, and the properties are lemmas about that function.
- `sort.Slice` is an in-place insertion sort on an array. It is specified only as "sorted and a permutation", because Go's sort is not stable.
- The auditor's package-level `lastCorrMap` and `globalStatus` are fields of a class, and the methods that update them say how.

Floating-point numbers are modelled as `real`. Go's `int` is modelled as `int`, and its truncating division is written out (`WhaleTracker.GoDiv`). A division by zero that yields Inf/NaN in Go becomes `Common.Quotient`, which yields 0. The shopspring decimal division by zero, which panics, becomes an outcome of its own.

## Model

| member | source | states |
|---|---|---|
| `Common.Abs` | risk_sentinel/whale_tracker.go:90-95 | the size of a real: its negation when negative, itself otherwise (`math.Abs` in the auditor as well) |
| `Common.AbsSpec` | risk_sentinel/whale_tracker.go:90-95 | `abs(x)` is non-negative, equals `x` or `-x`, and is symmetric |
| `Common.AbsBelow` | risk_sentinel/whale_tracker.go:90-95 | `abs(x) < b` exactly when `-b < x < b` |
| `Common.SortBy` | strategy_lab/backtest.go:75-77 | in-place sort of an array under a strict weak order: the result is sorted and a permutation of the input |
| `Common.SortedCopy` | strategy_lab/backtest.go:220-222 | `sort.Slice` applied to a slice: a sorted permutation |
| `Prices.DateLessAsymmetric` | strategy_lab/backtest.go:76 | the string `<` on dates is asymmetric |
| `Prices.DateNotLessTransitive` | strategy_lab/backtest.go:76 | not-less on dates is transitive |
| `Prices.ByDateIsStrictWeakOrder` | strategy_lab/backtest.go:75-77 | the date comparison is a valid comparison for `sort.Slice` |
| `Prices.GetDailyReturns` | strategy_lab/backtest.go:342-352 | one return per consecutive pair of prices, `next/prev - 1`, and 0 after a zero close |
| `Prices.ReturnsCompound` | strategy_lab/backtest.go:342-352 | compounding a return onto its non-zero close gives the next close (the returns invert the prices) |
| `Prices.ReturnsOfSlice` | strategy_lab/backtest.go:342-352 | the returns of a price slice are the matching slice of the returns |
| `Prices.IndexOfDate` | strategy_lab/backtest.go:354-361 | the date index is -1 or a position of the series |
| `Prices.IndexOfDateIsFirst` | strategy_lab/backtest.go:354-361 | the date index is the first position holding the date, or -1 when none does |
| `Prices.FirstIndexUnique` | strategy_lab/backtest.go:354-361 | the first position of a date is unique |
| `Prices.IndexOfOwnDate` | strategy_lab/backtest.go:354-361 | with distinct dates, the date stored at `k` is found at `k` |
| `Prices.FindDateIndex` | strategy_lab/backtest.go:354-361 | the search loop returns -1 exactly when the date is absent, else the first position holding it |
| `Prices.PriceSlice` | strategy_lab/backtest.go:363-369 | the records from the first position of the start date to the first position of the end date, or none when either is missing or they are out of order |
| `Prices.PriceSliceBounds` | strategy_lab/backtest.go:363-369 | the slice is empty exactly when a date is missing or the dates are out of order; otherwise it runs from the first start date to the first end date, both included |
| `Prices.PriceSliceOfDistinctDates` | strategy_lab/backtest.go:363-369 | with distinct dates, slicing between the dates at `a` and `b` gives positions `a..b` |
| `Prices.GroupByTicker` | strategy_lab/backtest.go:70-73 | one group per ticker present, holding that ticker's records in input order |
| `Prices.RecordsOfTicker` | strategy_lab/backtest.go:70-73 | a group holds only records of its ticker, each taken from the input |
| `Prices.SortByDate` | strategy_lab/backtest.go:75-77 | one group sorted by date: a date-ordered permutation |
| `Prices.SortGroups` | strategy_lab/backtest.go:74-78 | every group sorted by date, and no group added or lost |
| `Prices.GroupAndSort` | strategy_lab/backtest.go:70-78 | each ticker's records as a date-ordered permutation, keyed by exactly the tickers present |
| `Engine.AssetPoolDistinct` | strategy_lab/backtest.go:34 | the asset pool has no ticker twice |
| `Engine.IsTrigger` | strategy_lab/backtest.go:204-211 | a return index from 20 on whose benchmark return exceeds 1.5 times the sample deviation of the 20 returns before it |
| `Engine.TriggerIsRise` | strategy_lab/backtest.go:204-213 | only a rise can trigger, and the return index has a price after it to date the trigger |
| `Engine.BenchmarkWindowAt` | strategy_lab/backtest.go:266-272 | a found trigger date with 30 prices before it has the price window from 30 positions earlier to the date |
| `Engine.CalculateCorrelations` | strategy_lab/backtest.go:264-287 | the ranking loop returns nothing for a trigger date with fewer than 30 prices before it, and otherwise the kept pool tickers with their correlations |
| `Engine.ScoresInPoolOrder` | strategy_lab/backtest.go:274-285 | the list holds, in pool order, exactly the kept pool tickers, each with its own correlation |
| `Engine.CorrelationsSpec` | strategy_lab/backtest.go:264-287 | the ranking is empty before 30 prices; otherwise its tickers are distinct pool tickers with at least 30 prices in the window, exactly as many returns as the benchmark, and their correlation as value |
| `Engine.WindowOfDistinctDates` | strategy_lab/backtest.go:266-272 | with distinct benchmark dates, the window of the date at price `e` is the 31 prices ending there, with 30 returns |
| `Engine.KeptSliceLength` | strategy_lab/backtest.go:276-281 | a kept ticker of a 30-return window has exactly 31 prices in it |
| `Engine.TriggerTooEarly` | strategy_lab/backtest.go:266-269 | a trigger dated before the 31st benchmark price ranks nothing |
| `Engine.RankedSliceLengths` | strategy_lab/backtest.go:276-283 | every ranked ticker has the 31 prices of a 30-return window |
| `Engine.TriggerWindow` | strategy_lab/backtest.go:211-217 | the ranking of a trigger at return index `i` uses the 31 benchmark prices ending at price `i + 1`, or is empty when `i + 1 < 30` |
| `Engine.ByValueIsStrictWeakOrder` | strategy_lab/backtest.go:220-222 | the correlation comparison is a valid comparison for `sort.Slice` |
| `Engine.SortByValue` | strategy_lab/backtest.go:220-222 | the ranking is a permutation of the correlations in ascending order |
| `Engine.PicksAreLowest` | strategy_lab/backtest.go:225-226 | the picks are `min(3, n)` entries of the ranking, and no entry left out has a lower correlation than a pick |
| `Engine.TradeFor` | strategy_lab/backtest.go:226-251 | the trade of one pick: none when its series lacks the date or has no price five positions later; otherwise entry at the first position of the date, exit five later, return `exit/entry - 1 - 0.0015` |
| `Engine.TradeForSpec` | strategy_lab/backtest.go:230-251 | a pick trades exactly when its series holds the trigger date and runs five more positions; the trade then enters at the first such position and exits five later |
| `Engine.TradesOfAppend` | strategy_lab/backtest.go:244-251 | the trades of two batches in sequence are the trades of each, appended |
| `Engine.PickTrade` | strategy_lab/backtest.go:226-252 | one pick's trade, as the specification function gives it |
| `Engine.TradePicks` | strategy_lab/backtest.go:225-253 | the execution loop emits, in rank order, the trades of the first `min(3, n)` picks that have data |
| `Engine.EmittedStep` | strategy_lab/backtest.go:204-255 | one more day of the scan appends that day's batch to the run's trades |
| `Engine.RankingsAreSortsStep` | strategy_lab/backtest.go:217-222 | a new ranking that sorts its day's correlations keeps every ranking a sort |
| `Engine.ScanDay` | strategy_lab/backtest.go:205-254 | one day of the scan: when it triggers, a sorted ranking and its picks' trades; otherwise nothing |
| `Engine.RunBacktest` | strategy_lab/backtest.go:195-257 | one ranking per benchmark return, each a sort of that day's correlations when the day triggers, and the trades are exactly those of the run in order |
| `Engine.BatchSpec` | strategy_lab/backtest.go:225-253 | a trigger's batch is tagged with the trigger and strictly increasing ranks, each a trade of its pick |
| `Engine.DayBatchFromPicks` | strategy_lab/backtest.go:211-254 | a trigger's trades come from that trigger's picks, in ascending rank |
| `Engine.EmittedSpec` | strategy_lab/backtest.go:204-255 | every trade of a run comes from a trigger and one of its picks, in ascending trigger, then rank |
| `Engine.BatchComplete` | strategy_lab/backtest.go:225-252 | every one of the first `k` picks that has data is traded in the batch, tagged with its rank |
| `Engine.DayBatchComplete` | strategy_lab/backtest.go:211-252 | on a trigger day, every one of the first `min(3, n)` picks that has data is traded |
| `Engine.EmittedComplete` | strategy_lab/backtest.go:204-255 | every pick with data of every trigger of the run is traded in the run |
| `Engine.EmittedExactly` | strategy_lab/backtest.go:204-255 | the run emits a tagged trade exactly when it is the trade of one of the first `min(3, n)` picks of a trigger |
| `Engine.RankedIsKept` | strategy_lab/backtest.go:274-285 | an entry of a sorted ranking is a pool ticker kept for that window |
| `Engine.TradeForSome` | strategy_lab/backtest.go:236-251 | a trade is dated by the trigger, enters at the first position of that date and exits five positions later |
| `Engine.BacktestTrades` | strategy_lab/backtest.go:195-257 | every emitted trade: its day triggered, it is dated by benchmark price `i + 1`, its ticker is a kept pool ticker among that day's lowest-correlation picks, and it enters and exits as the source does |
| `Metrics.WinsBounds` | strategy_lab/backtest.go:294-298 | the winning count is at most the trade count, equals it exactly when every return is positive, and is 0 exactly when none is |
| `Metrics.SumAtLeast` | strategy_lab/backtest.go:294-295 | returns all at least `lo` sum to at least `n * lo` |
| `Metrics.SumAtMost` | strategy_lab/backtest.go:294-295 | returns all at most `hi` sum to at most `n * hi` |
| `Metrics.SharpeRatio` | strategy_lab/backtest.go:315-324 | the annualised Sharpe ratio: mean over sample deviation times `sqrt(252)`, or 0 below two returns or at zero deviation |
| `Metrics.SharpeSign` | strategy_lab/backtest.go:315-324 | the Sharpe ratio is 0 below two returns or at zero deviation, and otherwise has the sign of the total return |
| `Metrics.MaxDrawdown` | strategy_lab/backtest.go:326-339 | the negated largest relative fall of the compounded value (starting at 1) from its running peak |
| `Metrics.CurveWellFormed` | strategy_lab/backtest.go:326-337 | the peak never falls below 1 or below the value, and the largest drawdown is never negative |
| `Metrics.MaxDrawdownNotPositive` | strategy_lab/backtest.go:338 | the reported drawdown is at most 0 |
| `Metrics.StepMaxDrawdown` | strategy_lab/backtest.go:329-336 | one step keeps the largest drawdown or raises it to the new fall from the peak |
| `Metrics.MaxDrawdownIsMaximum` | strategy_lab/backtest.go:326-339 | the largest drawdown is the maximum, over all prefixes of the returns, of the fall from the peak, and some prefix attains it |
| `Metrics.CurveValueNonNegative` | strategy_lab/backtest.go:326-337 | if no return is below -100%, the value stays non-negative and the drawdown is at most 100% |
| `Metrics.MaxDrawdownAtLeastTotalLoss` | strategy_lab/backtest.go:338 | if no return is below -100%, the reported drawdown is at least -1 |
| `Metrics.NoLossNoDrawdown` | strategy_lab/backtest.go:326-339 | with no losing return, the value stays at its peak and the drawdown is 0 |
| `Metrics.UpdateCurve` | strategy_lab/backtest.go:329-336 | the loop body compounds one return into peak, value and largest drawdown |
| `Metrics.CalculateMaxDrawdown` | strategy_lab/backtest.go:326-339 | the loop computes the negated largest drawdown of the compounded curve |
| `Metrics.ComputeReport` | strategy_lab/backtest.go:290-304 | the report loop's figures for a non-empty trade list |
| `Metrics.WinRateBounds` | strategy_lab/backtest.go:302 | the win rate lies in [0, 1]; it is 1 exactly when every trade gained and 0 exactly when none did |
| `Metrics.MeanReturnBetween` | strategy_lab/backtest.go:301 | the mean return lies between any lower and upper bound of the trade returns |
| `Metrics.ReportDrawdownBounds` | strategy_lab/backtest.go:304 | the reported drawdown lies in [-1, 0] when no trade lost more than its stake, and is 0 when no trade lost |
| `Metrics.RunPipeline` | strategy_lab/backtest.go:70-90 | main's pipeline: date-sorted groups per ticker, the backtest's trades, and a report exactly when there are trades |
| `IronCore.HasSuffixIff` | sentinel/ironcore/main.go:416 | `strings.HasSuffix` holds exactly when the string is some prefix followed by the suffix |
| `IronCore.AssetTypeOf` | sentinel/ironcore/main.go:416-420 | "china" for a `.SS` or `.SZ` symbol, "global" for any other |
| `IronCore.AssetTypeBySuffix` | sentinel/ironcore/main.go:416-420 | a symbol is "china" exactly when it ends in `.SS` or `.SZ`, and "global" otherwise |
| `IronCore.BuildDateMap` | sentinel/ironcore/main.go:309-314 | the date map built by the loop, empty for a failed fetch |
| `IronCore.DateMapKeys` | sentinel/ironcore/main.go:309-314 | the map's dates are exactly the dates of the series |
| `IronCore.DateMapLast` | sentinel/ironcore/main.go:309-314 | a date maps to the return of its last occurrence |
| `IronCore.Aligned` | sentinel/ironcore/main.go:450-460 | the join yields two equally long lists, no longer than the series |
| `IronCore.AlignedSpec` | sentinel/ironcore/main.go:450-460 | the join keeps, in order, exactly the days whose date is in the other map and whose two returns are finite, pairing each with the other map's return |
| `IronCore.Align` | sentinel/ironcore/main.go:450-460 | the alignment loop computes the join |
| `IronCore.HasZeroVariance` | sentinel/ironcore/main.go:795-806 | true exactly when there are fewer than two values or all equal the first |
| `IronCore.Moments` | sentinel/ironcore/main.go:469-482 | the two loops compute the mean and the population sigma of the last 30 returns |
| `IronCore.SquaredDeviationsOfMean` | sentinel/ironcore/main.go:477-481 | equal values have no squared deviation from their common value |
| `IronCore.SumOfConstant` | sentinel/ironcore/main.go:471-474 | `n` equal values sum to `n` times the value |
| `IronCore.FlatSigmaZero` | sentinel/ironcore/main.go:469-482 | equal returns have their common value as mean and a sigma of 0 |
| `IronCore.DxyCorrelations` | sentinel/ironcore/main.go:450-467 | the DXY correlations: over all joined days from 20 on, over the last 30 from 30 on |
| `IronCore.ThreeSigma` | sentinel/ironcore/main.go:469-493 | mean, sigma and the 3-sigma z-score, as specified |
| `IronCore.CalculateAssetStatus` | sentinel/ironcore/main.go:415-497 | the status of one asset, as the specification function gives it |
| `IronCore.CriticalRule` | sentinel/ironcore/main.go:484-492 | an asset is critical exactly when it has 30 returns, a positive sigma, a z-score beyond 3 in size, and the clock is outside the silent period; the alert then carries exactly that z-score, the latest return's distance from the mean in sigmas |
| `IronCore.FlatReturnsNotCritical` | sentinel/ironcore/main.go:469-493 | thirty equal latest returns never make an asset critical |
| `IronCore.StatusFields` | sentinel/ironcore/main.go:415-467 | symbol, name and type come from the symbol; a failed fetch leaves the initial status; the 6-month correlation is 0 below 20 joined days and the correlation of all of them from 20 on; the 30-day one is 0 below 30 joined days and the correlation of the last 30 from 30 on |
| `IronCore.CalculateHS300Corr` | sentinel/ironcore/main.go:499-520 | the HS300 correlation loop, as specified |
| `IronCore.HS300NeedsOverlap` | sentinel/ironcore/main.go:499-520 | a failed fetch or fewer than 20 joined days give a correlation of 0 |
| `IronCore.MarketStatusOf` | sentinel/ironcore/main.go:365-371 | the HS300 band of a correlation: follows the market above 0.6, independently strong below 0.3, weakly follows in between |
| `IronCore.MarketStatusThresholds` | sentinel/ironcore/main.go:365-371 | "follows the market" exactly above 0.6, "independently strong" exactly below 0.3, "weakly follows" exactly in between |
| `IronCore.CheckVixDxy` | sentinel/ironcore/main.go:324-350 | the VIX/DXY correlation and warning, as specified |
| `IronCore.VixWarningConditions` | sentinel/ironcore/main.go:345-348 | the warning is raised exactly when both fetches succeeded, the correlation exceeds 0.5 and the latest DXY return is positive, which needs 30 joined days |
| `IronCore.IsSilentPeriod` | sentinel/ironcore/main.go:534-546 | the Beijing clock reads 9 hours and fewer than 30 minutes |
| `IronCore.SilentPeriodWindow` | sentinel/ironcore/main.go:534-546 | the silent period is exactly the minutes 9:00 to 9:29 |
| `IronCore.CheckAndSendAlert` | sentinel/ironcore/main.go:548-566 | mail goes out exactly outside the silent period, on a VIX warning or a critical asset, with both SMTP credentials set |
| `IronCore.RememberedKeys` | sentinel/ironcore/main.go:522-532 | afterwards the memory holds the old symbols and the audited ones |
| `IronCore.RememberedUnaudited` | sentinel/ironcore/main.go:522-532 | a symbol not audited keeps its remembered correlation |
| `IronCore.RememberedLastOccurrence` | sentinel/ironcore/main.go:529 | an audited symbol holds the 30-day correlation of its last occurrence |
| `IronCore.AccelerationKeys` | sentinel/ironcore/main.go:525-528 | with distinct symbols, a change is recorded exactly for the audited symbols that were remembered |
| `IronCore.AccelerationValue` | sentinel/ironcore/main.go:525-528 | the recorded change is the new 30-day correlation minus the remembered one |
| `IronCore.StatusesOf` | sentinel/ironcore/main.go:356-373 | one status per symbol, in the order given |
| `IronCore.AuditedSymbolsDistinct` | sentinel/ironcore/main.go:303-304 | the ten audited symbols are distinct |
| `IronCore.ChinaStatusKeeps` | sentinel/ironcore/main.go:361-373 | the HS300 step keeps the symbol and the 3-sigma verdict |
| `IronCore.AuditSymbols` | sentinel/ironcore/main.go:356-373 | an audit reports the ten symbols in order, each once |
| `IronCore.SilentAuditHasNoCritical` | sentinel/ironcore/main.go:352-373 | no asset is critical in an audit during the silent period |
| `IronCore.AuditAcceleration` | sentinel/ironcore/main.go:375-384 | the published acceleration has an entry for an audited symbol exactly when it was remembered, holding its change since then |
| `IronCore.AuditAccelerationOnlyAudited` | sentinel/ironcore/main.go:375-384 | symbols outside the audit never get an acceleration entry |
| `IronCore.Auditor.constructor` | sentinel/ironcore/main.go:265-270 | the auditor starts with no remembered correlations and an empty status |
| `IronCore.Auditor.CalculateCorrelationAcceleration` | sentinel/ironcore/main.go:522-532 | the loop records each change against memory and remembers each new correlation, leaving the status alone |
| `IronCore.Auditor.PerformAudit` | sentinel/ironcore/main.go:300-386 | one audit publishes the specified status, remembers the new correlations, and mails exactly when the alert is due |
| `IronCore.Survey` | sentinel/ironcore/main.go:309-373 | the date maps and the status of every asset, global ones first |
| `IronCore.CollectGlobal` | sentinel/ironcore/main.go:356-359 | the global loop's statuses, in order |
| `IronCore.CollectChina` | sentinel/ironcore/main.go:361-373 | the China loop's statuses, in order |
| `IronCore.ChinaAssetStatus` | sentinel/ironcore/main.go:361-373 | a China asset's status with the HS300 correlation and market status, when the HS300 map is not empty |
| `WhaleTracker.GoDivSpec` | risk_sentinel/whale_tracker.go:60 | Go's integer division truncates: the remainder is smaller than the divisor and has the sign of the dividend |
| `WhaleTracker.VPDOf` | risk_sentinel/whale_tracker.go:24-88 | the outcome of detectVPD on a chart |
| `WhaleTracker.DetectVPD` | risk_sentinel/whale_tracker.go:24-88 | the collection and averaging loops compute the specified outcome |
| `WhaleTracker.QuietCases` | risk_sentinel/whale_tracker.go:44-53 | a failed chart or fewer than six bars gives a result with only the ticker set |
| `WhaleTracker.DetectedCases` | risk_sentinel/whale_tracker.go:55-87 | otherwise the call panics exactly on a zero previous close; the alert is exactly a spike on a stagnant price |
| `WhaleTracker.LastSixBars` | risk_sentinel/whale_tracker.go:56-73 | only the last six bars decide the result |
| `WhaleTracker.SpikeInIntegers` | risk_sentinel/whale_tracker.go:68 | a spike means twice the last volume exceeds three times the integer average |
| `WhaleTracker.StagnantAsMove` | risk_sentinel/whale_tracker.go:71-73 | a stagnant price means the last move is under 2% of the previous close's size |
| `WhaleTracker.RelativeMove` | risk_sentinel/whale_tracker.go:71-73 | a relative change under 2% is an absolute move under 2% of the base |
| `WhaleTracker.SumIntBounds` | risk_sentinel/whale_tracker.go:56-59 | volumes within bounds sum to within `n` times the bounds |
| `WhaleTracker.AverageVolumeBounds` | risk_sentinel/whale_tracker.go:56-60 | non-negative volumes within `[lo, hi]` have an integer average within `[lo, hi]` |

## Left out

- Data acquisition is not part of this model: the SQLite database, the Python fetcher scripts, the Yahoo chart API, the retry loop of `getReturnsWithRetry` and its 1-minute fallback. A fetch is a parameter: a chart value, or a function from symbol to an optional return series.
- Not modelled: the HTTP dashboard, login, plotting, logging, printing and the e-mail body. `checkAndSendAlert` returns whether it would send.
- Clocks are inputs rather than calls. `isSilentPeriod` takes the Beijing hour and minute. One audit reads the clock once and sees the same reading in `calculateAssetStatus` and `checkAndSendAlert`. The `Timestamp` fields, the `LastAlertTime` that `checkAndSendAlert` stamps after sending (main.go:586) and the audit loop's ticker are not modelled.
- Audits are modelled one at a time. `handleTriggerAudit` (main.go:605) starts `performAudit` in a goroutine beside the audit loop; two audits running at once, and their races on `lastCorrMap` and `globalStatus`, are not modelled.
- `getReturnsWithRetry` is modelled as returning the same data each time it is called for a symbol within one audit.
- Floating point: values are exact reals, and IEEE rounding is not modelled.
  - NaN and Inf appear only through the abstract `isFinite` filter.
  - A trade whose entry price is 0 yields return -1.0015 rather than Inf/NaN: `Common.Quotient`. The daily returns after a zero close are 0 in the source as well.
  - gonum's `StdDev` and `Correlation` and `math.Sqrt` are functions the model knows only by `Statistics.Valid()`: a non-negative deviation, `sqrt(0) = 0` and a positive `sqrt` of a positive value.
- shopspring decimals are exact reals. The rounding of `Div` to 16 digits and of `Float64()` is not modelled.
- Go's 64-bit `int` overflow in `avgVolume` is not modelled.
- `AssetStatus.AlertMessage` is modelled as the z-score `alertZ` it formats. The `Volume` field is never set by the source and stays 0.
- `calculateAssetStatus` takes an `assetType` argument and overwrites it at once. The model keeps the argument and ignores it.
- The logging in `detectVPD` (whale_tracker.go:45 and :51) and its `fmt.Printf` of an alert (whale_tracker.go:79) are not modelled. The returned result, `Alert` included, is.
- IronCore.FlatSigmaZero: proves only that equal returns give sigma 0, not the converse. The converse (varied returns give a positive sigma) needs the positivity of a sum of squares, which is not proved.
- Common.SortBy: the result is any sorted permutation. The particular order of equal keys that Go's unstable `sort.Slice` produces is not modelled.

Points where the code's behaviour may be unexpected:
- The correlation window is 31 prices (30 returns) ending at the trigger date.
- A ticker needs at least 30 prices in the window, not 30 returns, and exactly as many returns as the benchmark.
- Zero-variance tickers are not skipped before the correlation. `hasZeroVariance` is modelled, but nothing in the audit or the backtest calls it. gonum returns NaN for such a window, and Go's `<` on a NaN is not a strict weak order, so the source's ranking and picks are then unspecified. The ranking lemmas (`Engine.ByValueIsStrictWeakOrder`, `Engine.SortByValue`, `Engine.PicksAreLowest`) assume that every kept ticker has a finite correlation.
- Prices are paired by position within a window, not by a date-keyed join.
