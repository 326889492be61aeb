# Crypto momentum analyzer — a Dafny model of the scoring pipeline

This project models the core of `crypto-momentum-analyzer`, a service that
ranks USDT futures pairs of one exchange by a "momentum score". It fetches
candles for five resolutions (15, 30, 60 and 240 minutes and one day). For
each resolution it computes three indicators:

- a relative strength reading;
- a volume surge ratio;
- the recent price change.

It turns the indicators into banded sub-scores. It averages the resolution
scores with fixed resolution weights, renormalised over the resolutions that
produced indicators. It ranks the pairs by descending score and derives a
text report and a CSV export from the ranking. A scheduler repeats the whole
run at every quarter hour.

The modules follow the program's structure:

| module | file | what it models |
|---|---|---|
| `Wrappers` | wrappers.dfy | `Option` |
| `Seqs` | seqs.dfy | list comprehensions with a condition (`Filter`), slicing (`Take`), subsequences |
| `Strings` | strings.dfy | Python's `t in s` and `s.replace(pat, sub)`, and the pair label built from them |
| `Timeframes` | timeframes.dfy | the resolution table and its weights, the sub-score weights |
| `Indicators` | indicators.dfy | `calculate_technical_indicators` |
| `Scoring` | scoring.dfy | the sub-score bands and `calculate_momentum_score` (a method with its loop) |
| `Ranking` | ranking.dfy | `sort(key=score, reverse=True)` as the unique stable descending order |
| `DataFetcher` | data_fetcher.dfy | the request window and query, response acceptance, the instrument filter |
| `Analysis` | analysis.dfy | the analyzer class: `analyze_pair` and `run_analysis` (methods updating `results`) |
| `ReportGenerator` | report_generator.dfy | the content of the insights report |
| `FileManager` | file_manager.dfy | the rows of the CSV export (methods with their loops) |
| `Scheduler` | scheduler.dfy | the next-run arithmetic of the scheduler loop |

Reals are exact (Dafny `real`), so the model says nothing about floating-point
rounding. The network, the `ta` library's relative strength computation and
the clock are inputs:

- A fetch is a function from pair and resolution to an optional candle
  series. `DataFetcher.FetchCandlestickData` says how an HTTP response becomes
  that value.
- The relative strength reading is a function from a series to a reading.
- The current time is a parameter.

Three behaviours of the code are worth knowing before reading the model:

- A pair for which some resolution returned bars is reported even when all
  its fetched series have fewer than 30 bars and so yield no indicators; it
  is reported with score 0 rather than dropped
  (`Analysis.ShortSeriesStillReported`).
- The pair label comes from `str.replace`, which makes one left-to-right
  pass. For the usual symbols it removes the leading "B-"
  (`Strings.PairLabelOfFuturesSymbol`), but the characters around a removed
  "B-" can form a new one that stays (`Strings.SinglePassKeepsNewOccurrence`).
  The "_USDT" rewrite has no such gap: no "_USDT" is left in any label
  (`Strings.LabelHasNoUnderscoreQuote`).
- The `len(df) >= 20` fallback of the price change at
  src/crypto_analyzer.py:55 can never run, because a series shorter than 30
  bars has no indicators at all. The model keeps the branch as written.

## Model

| member | source | states |
|---|---|---|
| Strings.Replace | src/report_generator.py:33 | a replacement no longer than the pattern never lengthens the string, and one no shorter never shortens it |
| Strings.PairLabel | src/report_generator.py:33 | the label is never longer than the symbol; `Strings.LabelHasNoUnderscoreQuote` shows that no "_USDT" survives for any symbol, and `Strings.PairLabelOfFuturesSymbol` gives the label's value for the usual symbols |
| Strings.ReplaceAbsent | src/report_generator.py:33 | `replace` leaves a string without the pattern unchanged |
| Strings.RemoveTagWithoutDash | src/report_generator.py:33 | removing "B-" changes nothing in a string without '-' |
| Strings.RemoveLeadingTag | src/report_generator.py:33 | a leading "B-" is removed and the scan resumes right after it |
| Strings.RewriteQuote | src/report_generator.py:33 | a trailing "_USDT" after a base without '_' becomes "/USDT" |
| Strings.PairLabelOfFuturesSymbol | src/report_generator.py:33 | the label of `B-<base>_USDT` is `<base>/USDT` when the base holds neither '-' nor '_' |
| Strings.SinglePassKeepsNewOccurrence | src/report_generator.py:33 | the single-pass replace turns "BB--" into "B-", so not every "B-" disappears |
| Strings.NoQuoteLeft | src/report_generator.py:33 | after replacing "_USDT" by "/USDT", no "_USDT" is left in any string: the replacement text holds no '_', and no new occurrence forms across a replaced one |
| Strings.LabelHasNoUnderscoreQuote | src/report_generator.py:33 | for every symbol, the label holds no "_USDT", so every one has become "/USDT" |
| Timeframes.Weight | src/crypto_analyzer.py:25-31 | every resolution weight lies strictly between 0 and 1 |
| Timeframes.TableListsEachTimeframeOnce | src/crypto_analyzer.py:25-31 | the table lists every resolution, each exactly once |
| Timeframes.CodesAreDistinct | src/crypto_analyzer.py:25-31 | different resolutions have different table keys |
| Timeframes.TimeframeWeightsSumToOne | src/crypto_analyzer.py:25-31 | the resolution weights add up to 1 |
| Timeframes.ScoringWeight | src/crypto_analyzer.py:33-38 | every sub-score weight lies strictly between 0 and 1 |
| Timeframes.ScoringWeightsSumToOne | src/crypto_analyzer.py:33-38 | the four sub-score weights add up to 1 |
| Indicators.Volumes | src/crypto_analyzer.py:51-52 | the volume column has one entry per bar, equal to that bar's volume |
| Indicators.CalculateTechnicalIndicators | src/crypto_analyzer.py:43-67 | no record exactly when there are fewer than 30 bars; otherwise the strength is the reading when there is one and 50 when undefined, so it lies in [0, 100], the recent volume is the mean of the last 5 volumes, the volume ratio is that mean over the mean of all volumes and exactly 1 when the latter is not positive, the price is the last close, the change is (last close − close 20 bars back) / close 20 bars back × 100, and, when that earlier close is positive, the change is positive (zero) exactly when the last close is above (equal to) it |
| Indicators.MeanOfConstant | src/crypto_analyzer.py:51-52 | the mean of a constant column is that constant |
| Indicators.ConstantVolumeGivesUnitRatio | src/crypto_analyzer.py:51-53 | a constant positive volume gives volume ratio 1 |
| Indicators.VolumeRatioNonNegative | src/crypto_analyzer.py:51-53 | non-negative volumes give a non-negative volume ratio |
| Scoring.RsiScore | src/crypto_analyzer.py:80-90 | each band value is produced exactly on its band: 0.8 on [50,70], 0.6 on (70,80], 0.3 above 80, 0.4 on [40,50), 0.2 below 40 |
| Scoring.RsiBandBoundaries | src/crypto_analyzer.py:81-90 | 40, 50, 70 and 80 and their neighbours fall in the bands the comparisons give |
| Scoring.VolumeScore | src/crypto_analyzer.py:92-93 | both branches compute min(ratio/1.5, 1); the score is 1 exactly from 1.5 on, and lies in [0, 1] for non-negative ratios |
| Scoring.PriceScore | src/crypto_analyzer.py:95-96 | the score lies in [0, 1], is 0.5 for no change, 0 exactly from -5% down and 1 exactly from +5% up |
| Scoring.PriceScoreMonotone | src/crypto_analyzer.py:95-96 | a larger price change never gives a smaller price score |
| Scoring.TimeframeScore | src/crypto_analyzer.py:98-101 | with a non-negative volume ratio, a resolution score lies in [0.24, 0.76] |
| Scoring.CalculateMomentumScore | src/crypto_analyzer.py:69-106 | the loop computes the weighted average of the resolution scores over the resolutions with indicators, 0 when there is none |
| Scoring.PresentWeightPositive | src/crypto_analyzer.py:103-106 | one resolution with indicators makes the accumulated weight positive, so the division happens |
| Scoring.MomentumWithoutIndicators | src/crypto_analyzer.py:106 | a pair with no indicators anywhere scores 0 |
| Scoring.MomentumWithinBounds | src/crypto_analyzer.py:69-106 | with some indicators and non-negative volume ratios the momentum score lies in [0.24, 0.76] |
| Scoring.SumsOfSingleTimeframe | src/crypto_analyzer.py:73-104 | when only one resolution has indicators, each accumulated sum is that resolution's contribution alone |
| Scoring.MomentumOfSingleTimeframe | src/crypto_analyzer.py:69-106 | renormalisation: a pair with indicators in exactly one resolution gets that resolution's score |
| Scoring.MomentumDependsOnIndicatorsOnly | src/crypto_analyzer.py:73-106 | two pairs with the same indicator records score the same, whatever their candles |
| Scoring.RisingSeriesScore | src/crypto_analyzer.py:51-101 | 30 bars rising from 100 to 129, with volume 1000 then 2000 for the last 5 and strength 100, give volume ratio 12/7, change 1900/110 % and resolution score 0.66 |
| Ranking.Insert | src/crypto_analyzer.py:159 | inserting into a descending list keeps it descending and adds exactly the new element |
| Ranking.SortByScore | src/crypto_analyzer.py:159 | the result is descending by score and a permutation of the input |
| Ranking.SortKeepsMembers | src/crypto_analyzer.py:159 | sorting keeps the length and the members |
| Ranking.SortIsStable | src/crypto_analyzer.py:159 | results with equal scores keep their relative order |
| Ranking.SortIsUnique | src/crypto_analyzer.py:159 | any descending, stable rearrangement equals the model's sort, so the model is the order `list.sort` produces |
| Ranking.EqualScoresKeepOrder | src/crypto_analyzer.py:159 | two results with the same score come out in their input order |
| Ranking.HeadIsTop | src/crypto_analyzer.py:159 | the first result of a descending list scores at least as high as any other |
| DataFetcher.Minutes | src/data_fetcher.py:37-38 | "15", "30", "60" and "240" are 15, 30, 60 and 240 minutes |
| DataFetcher.BarSeconds | src/data_fetcher.py:35-41 | a bar lasts a day for "1D", its minutes times 60 for a minute resolution, an hour for an unknown resolution, and always a positive time |
| DataFetcher.WindowStart | src/data_fetcher.py:33-41 | the window spans exactly `periods` bars before the end time |
| DataFetcher.DefaultQuarterHourWindow | src/data_fetcher.py:30-39 | the default 15-minute request spans 90000 seconds |
| DataFetcher.WindowNotInverted | src/data_fetcher.py:35-41 | a non-negative number of bars never starts the window after its end |
| DataFetcher.WindowGrowsWithPeriods | src/data_fetcher.py:35-41 | more bars move the window start back, never forward |
| DataFetcher.BuildQuery | src/data_fetcher.py:43-49 | the query names the pair, the resolution and provider "f", ends now and spans the window |
| DataFetcher.InsertByTime | src/data_fetcher.py:57 | inserting into a time-ordered series keeps it ordered and adds exactly the bar |
| DataFetcher.SortByTime | src/data_fetcher.py:57 | the bars come out ascending by timestamp and are a permutation of the response's bars |
| DataFetcher.Accepted | src/data_fetcher.py:51-61 | a transport failure, a status other than 200, an undecodable body, an `s` other than "ok", and missing or empty data are each rejected |
| DataFetcher.FetchCandlestickData | src/data_fetcher.py:51-61 | a series is returned exactly for status 200 with `s == "ok"` and non-empty data; it is non-empty, time-ordered and a permutation of the data |
| DataFetcher.UsdtSymbols | src/data_fetcher.py:19 | a name is kept exactly when it is a string element of the catalog containing "USDT" |
| DataFetcher.UsdtSymbolsAreFilter | src/data_fetcher.py:19 | the kept names are the catalog filtered by that condition, element for element |
| DataFetcher.UsdtSymbolsInCatalogOrder | src/data_fetcher.py:19 | the kept names keep the catalog's order |
| DataFetcher.GetActiveInstruments | src/data_fetcher.py:13-27 | no instruments unless the status is 200; otherwise exactly the USDT string elements |
| Analysis.AnalyzeAll | src/crypto_analyzer.py:148-149 | one outcome per instrument, in instrument order, each the pair's analysis |
| Analysis.AnalyzeAllStep | src/crypto_analyzer.py:148-149 | analysing one more instrument appends its outcome |
| Analysis.Successes | src/crypto_analyzer.py:153 | the valid results are the present outcomes, each once and in outcome order |
| Analysis.CryptoMomentumAnalyzer.constructor | src/crypto_analyzer.py:40 | a new analyzer holds no results |
| Analysis.CryptoMomentumAnalyzer.AnalyzePair | src/crypto_analyzer.py:108-132 | the loop collects exactly the fetched resolutions with their indicators; a result is returned exactly when one was collected, scored by the momentum score |
| Analysis.CryptoMomentumAnalyzer.RunAnalysis | src/crypto_analyzer.py:134-168 | returns the valid results ranked by descending score, stores them in `results`, and leaves `results` unchanged when there are no instruments or no valid result |
| Analysis.PairOmittedIffNothingFetched | src/crypto_analyzer.py:112-132 | a pair has no result exactly when no resolution returned bars |
| Analysis.ShortSeriesStillReported | src/crypto_analyzer.py:108-132 | a pair whose fetched series are all shorter than 30 bars is still reported, with score 0 |
| Analysis.PairScoreBounds | src/crypto_analyzer.py:69-132 | a pair with one series of 30 bars or more and non-negative volumes scores in [0.24, 0.76] |
| Analysis.BatchIffSomethingFetched | src/crypto_analyzer.py:148-160 | a run produces a batch exactly when some instrument had some resolution fetched |
| Analysis.BatchMembers | src/crypto_analyzer.py:148-160 | the batch holds exactly the results produced for the instruments, at most one per instrument |
| Analysis.BatchOrder | src/crypto_analyzer.py:153-160 | the batch is descending by score, and equal scores stay in instrument order |
| ReportGenerator.PriceOf | src/report_generator.py:36-38 | a price is shown exactly when the 15-minute resolution has indicators, and it is that resolution's last price |
| ReportGenerator.TopEntries | src/report_generator.py:32-40 | the top list shows the first min(10, n) results, numbered from 1, with their label, score and price |
| ReportGenerator.Signals | src/report_generator.py:75-85 | a signal list shows the first min(5, n) of its results with label and score |
| ReportGenerator.TimeframeName | src/report_generator.py:64 | the name is "1Day" exactly for the daily resolution |
| ReportGenerator.TimeframeLines | src/report_generator.py:63-65 | one line per resolution, in table order, with its name and its weight in percent |
| ReportGenerator.TimeframeSection | src/report_generator.py:63-65 | the section reads 15min 35, 30min 25, 60min 20, 240min 15, 1Day 5 |
| ReportGenerator.GenerateInsightsReport | src/report_generator.py:15-88 | no report exactly for no results; otherwise the total, the top list, the resolution lines, the numbers of scores above 0.6, in [0.4, 0.6] and below 0.4 (which add up to the total), the first five results above 0.7 and in (0.6, 0.7] as the two signal lists, and the no-signals note exactly when both lists are empty, which is exactly when nothing is bullish |
| ReportGenerator.SentimentPartition | src/report_generator.py:51-53 | every score is bullish, neutral or bearish and only one of them, so the counts add up to the number of results |
| ReportGenerator.NoSignalsIffNoBullish | src/report_generator.py:70-87 | both signal lists are empty exactly when no result is bullish |
| ReportGenerator.SignalsAreDisjointBullishSublists | src/report_generator.py:70-71 | strong-buy and buy share no result, and each is the bullish results narrowed further, in ranking order |
| ReportGenerator.TopAreHighest | src/report_generator.py:32 | for a ranked batch, no result left out of the top list scores higher than one in it |
| ReportGenerator.DisplayedPriceIsQuarterHourClose | src/report_generator.py:36-38 | for an analysed pair the price shown is the last close of its 15-minute series when that has 30 bars or more, else "N/A" |
| FileManager.AddTimeframeCells | src/utils/file_manager.py:32-41 | one resolution adds exactly its three indicator columns to a row |
| FileManager.PartialRowStep | src/utils/file_manager.py:32-41 | each pass of the inner loop extends the row by the next resolution's cells as the export defines them |
| FileManager.BuildRow | src/utils/file_manager.py:23-43 | the inner loop builds exactly the result's row: label, score, rank and three cells per resolution |
| FileManager.ExportToCsv | src/utils/file_manager.py:15-43 | nothing for no results; otherwise one row per result, in order, the k-th ranked k+1 |
| FileManager.EveryColumnExported | src/utils/file_manager.py:32-41 | every row has every column |
| FileManager.ColumnNamesDistinct | src/utils/file_manager.py:32-41 | different columns have different headers, so no cell overwrites another |
| FileManager.RanksFollowScores | src/utils/file_manager.py:29 | in the export of a ranked batch, row k has rank k+1 and a smaller rank never has a lower score |
| FileManager.IndicatorCellsEmptyTogether | src/utils/file_manager.py:32-41 | a resolution's three cells are empty together, exactly when the result has no indicators there |
| Scheduler.MicrosOfDay | main.py:20-21 | a valid time of day lies within one day |
| Scheduler.NextMinute | main.py:23-24 | the next minute is a multiple of 15, after the current minute and at most 15 minutes on |
| Scheduler.NextRunAsWritten | main.py:20-28 | the next run fails exactly at 23:45 and later; otherwise it is a valid time on a quarter hour with zero seconds |
| Scheduler.GapWithinInterval | main.py:20-30 | when the next run is computed, the sleep lies in (0, 900] seconds |
| Scheduler.DelayAsWritten | main.py:30-39 | the loop sleeps 60 seconds whenever the next run cannot be computed (23:45 and later), and otherwise between 0 and 900 seconds, never 0 |
| Scheduler.NextRun | main.py:20-28 | the corrected next run is a quarter hour with zero seconds, today or tomorrow |
| Scheduler.NextRunAgreesWhereDefined | main.py:20-28 | the corrected next run equals the written one wherever that succeeds, and is midnight otherwise |
| Scheduler.NextRunWithinInterval | main.py:20-30 | the corrected next run is always after now and at most 15 minutes away |
| Scheduler.QuarterOfDay | main.py:23-24 | each time of day lies in one of the 96 quarter hours |
| Scheduler.NextRunStartsNextQuarter | main.py:20-28 | the corrected next run is the start of the following quarter hour |
| Scheduler.NextRunIsFirstBoundary | main.py:20-28 | no quarter-hour boundary lies between now and the corrected next run |
| Scheduler.Delay | main.py:30-32 | the corrected sleep lies in (0, 900] seconds |
| Scheduler.LateEveningRunRepeatsAfterAMinute | main.py:26 | at 23:50 the next run as written fails and the loop sleeps 60 seconds; the corrected sleep is 600 seconds |

## Left out

- The HTTP calls, the semaphore bounding concurrency, `asyncio.gather`'s concurrency and the exceptions it collects: the model analyses the instruments one after another, and an exception surfaces as an absent result.
- The relative strength index of the `ta` library: it is an input reading (NaN or a value in [0, 100]).
- Writing the report and the CSV file, the directories, timestamps in file names, `print` output and the progress bar.
- The report's statistics (mean, median, standard deviation, maximum, minimum): numpy floating-point summaries.
- The text layout of the report: the model records what each section shows, not how it is printed.
- The visualizer: it only draws charts of the results.
- The scheduler's `while True` loop, `KeyboardInterrupt` and the sleep itself: the model computes what one iteration sleeps.
- FileManager.ExportToCsv: the source's row dictionaries fix the CSV column order (Pair, Momentum_Score, Rank, then RSI, Volume_Ratio and Price_Change per resolution in table order); a `Row` here is an unordered map, so the model gives each row's columns and cells but not their order in the file.
- The 0.1-second pause before a rejected candle response returns None: a delay with no effect on the result.
- Floating-point rounding, infinities and NaN: reals are exact.
- A catalog body that is not a JSON list, and a candle body whose `data` is not a list of bars: the model treats both as a failure. This is a choice of the model; for a JSON object with status 200, the comprehension at src/data_fetcher.py:19 would walk the object's keys and keep those containing "USDT".
- Indicators.CalculateTechnicalIndicators: requires the close 20 bars from the end to be non-zero, where the source would divide by zero and produce an infinite or NaN change.
- Analysis.CryptoMomentumAnalyzer.RunAnalysis: requires the same non-zero reference close for every fetched series, for the same reason.
- Analysis.CryptoMomentumAnalyzer.AnalyzePair: requires the same non-zero reference close, for the same reason.
- DataFetcher.SortByTime: pandas' default sort is not stable, so bars with equal timestamps may come out in any order; the model proves ordering and permutation only, and picks one such order.
- Analysis.CryptoMomentumAnalyzer.constructor: `results` starts as an empty dictionary in the source and as an empty list here; both are falsy and neither is read before a run.
- Ranking.SortByScore: `list.sort` works in place; the model returns the sorted list, and `Ranking.SortIsUnique` shows it is the only order a stable descending sort can produce.
- Running the report and the export at the end of `run_analysis`: they are modelled as `ReportGenerator.GenerateInsightsReport` and `FileManager.ExportToCsv` applied to the ranked batch.

## Findings

| source | as written | input that shows it | evidently intended | confidence | as-written member | corrected member |
|---|---|---|---|---|---|---|
| main.py:26 | from 23:45 on, the next run sets the hour to 24, which `datetime.replace` rejects; the error handler sleeps 60 seconds and the analysis runs again a minute later | a run ending at 23:50 | the next run at midnight of the next day, 10 minutes later | not executed | Scheduler.LateEveningRunRepeatsAfterAMinute | Scheduler.NextRunWithinInterval |
