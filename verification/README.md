# Stonx analytics core in Dafny

Stonx is a stock-group analysis tool with a TypeScript server and a React client. This project models the parts of it that compute things:

- **Metrics engine** (`Metrics`): turns daily price bars into an eleven-field record of nullable numbers:
  - one-day, five-day, one-month and three-month returns;
  - annualised volatility and maximum drawdown;
  - 20- and 50-day moving averages;
  - Wilder's 14-day RSI and the volume z-score.

  It also turns that record into at most two signal codes.
- **Per-symbol classifier** (`Insights`): trend, momentum and risk labels, an ordered anomaly list and a summary sentence.
- **Group aggregator** (`Analyze`): averages, dispersion, momentum breadth, top and bottom performer, a clamped 0–100 score and a summary. It also chains metrics, signals and insights the way an analyze run does.
- **Price cache planning** (`Cache`): finds the maximal runs of missing trading days and derives the single fetch window. The end date is clamped to today.
- **Stooq provider parsing** (`Stooq`):
  - reads the CSV body with English or Polish column names;
  - a body mentioning "limit" sends the provider to Yahoo;
  - zips Yahoo's parallel chart arrays into bars.
- **Group helpers** (`Groups`): the id slug made from a group name, the returned member list, and the de-duplicated symbol list.
- **Fundamentals sync helpers** (`Fundamentals`):
  - the quarter of a month, and the quarter named in a string;
  - the per-date series map;
  - the trailing-twelve-month EPS window with null poisoning;
  - the P/E guard.
- **Client helpers** (`Client`):
  - parsing, merging and saving symbols;
  - year-over-year change and margin;
  - the 20-quarter trend series and the moving average;
  - the chart event thinning;
  - the rolling-baseline volume-spike detector.
- **Shared helpers** (`Common`): sums, means, rounding, ASCII case mapping and trimming, split and join, first-occurrence de-duplication, stable sorting by a key, and symbol normalisation.

## How the model represents the source

- **Numbers:** JavaScript numbers are `real`s.
  - `toFixed` rounding is `Common.Round`, rounding half away from zero on the exact value.
  - `Math.sqrt` and `Math.log` are function parameters. The proofs assume only that the square root is non-negative, and positive on positive arguments (`SqrtSound`).
  - `Number(...)` followed by the finiteness check is the parameter `num: string -> Option<real>`.
- **Dates:** dates are whole UTC days counted from 1970-01-01, which was a Thursday.
  - `getUTCDay` is `(day + 4) % 7`.
  - `addDays` is addition.
  - The order of ISO date strings is the order of the integers.
  - Millisecond timestamps, such as a period end, are plain integers.
- **Nullable values:** `null` and `undefined` are `Option.None`. `-Infinity` as "no last index yet" is `None` too.
- **Loops:** the loops of the source are methods with invariants. Each is proved equal to a specification function, and the properties are proved about that function.
  - Loops: the drawdown, RSI and log-return loops; the signal pushes; the missing-range scan; the CSV and Yahoo row loops; the series-map and TTM loops; the moving average; the event thinning; and the volume-spike counters.
- **Where the code and its documentation disagree:** the model follows the code.
  - `bottomPerformer` is the *last* row among equal lowest returns. It is the final element of a stable descending sort, not the first occurrence.
  - `buildSignals` emits `MOMENTUM_NEG`, while the classifier only reacts to `MOMENTUM_NEG_LAST_MONTH`. So in an analyze run that anomaly never appears (`Insights.NoMomentumAnomalyFromBuiltSignals`, `Analyze.AnalyzeSymbol`).

## Model

| member | source | states |
|---|---|---|
| Metrics.RoundOpt | server/src/analytics/metrics.ts:17-18 | rounding keeps null as null and a value as a value, and keeps the sign of the value |
| Metrics.PercentChange | server/src/analytics/metrics.ts:20 | the change is positive iff the price rose, negative iff it fell, and above -100 for a positive price |
| Metrics.ComputeReturn | server/src/analytics/metrics.ts:22-29 | a lookback return exists iff there are more closes than the lookback; it is the percent change from the close `lookback` days back to the last one, and is above -100 |
| Metrics.ComputeSma | server/src/analytics/metrics.ts:31-37 | the moving average exists iff there are at least `window` closes, and lies between the minimum and maximum of the last `window` closes |
| Metrics.PeakIsHighest | server/src/analytics/metrics.ts:42-44 | the running peak after close `i` is at least every close so far and equals one of them |
| Metrics.WorstDrawdownIsMinimum | server/src/analytics/metrics.ts:43-49 | the worst drawdown is at most the drawdown of every visited close, and is 0 or attained at one of them |
| Metrics.DrawdownAtPeak | server/src/analytics/metrics.ts:45 | a close that is the running peak has drawdown 0 |
| Metrics.MaxDrawdownOf | server/src/analytics/metrics.ts:39-51 | the max drawdown exists iff there are at least two closes, and lies in (-100, 0] |
| Metrics.MaxDrawdownOfNonDecreasing | server/src/analytics/metrics.ts:39-51 | a non-decreasing series has max drawdown exactly 0 |
| Metrics.ComputeMaxDrawdown | server/src/analytics/metrics.ts:39-51 | the peak/worst loop computes the specified max drawdown |
| Metrics.LogReturns | server/src/analytics/metrics.ts:92-95 | the loop pushes one log return per consecutive pair of closes, in order |
| Metrics.VolAnnOf | server/src/analytics/metrics.ts:102-108 | the volatility exists iff there are at least three closes, and is not negative |
| Metrics.SumsZero | server/src/analytics/metrics.ts:120-126 | the summed gains are 0 iff no delta is positive; the summed losses are 0 iff no delta is negative |
| Metrics.SmoothedStep | server/src/analytics/metrics.ts:129-135 | each later delta updates the averages as (13·avg + gain or loss) / 14 |
| Metrics.SmoothedZero | server/src/analytics/metrics.ts:127-135 | after smoothing, the average gain is 0 iff no delta was positive, and the average loss is 0 iff no delta was negative |
| Metrics.RsiFromAverages | server/src/analytics/metrics.ts:136-143 | RSI lies in [0, 100]; it is above 50 iff the average gain exceeds the average loss; it is 50 when both are 0 and 100 when only losses are 0 |
| Metrics.RsiOf | server/src/analytics/metrics.ts:114-144 | RSI exists iff there are at least 15 closes, and lies in [0, 100] |
| Metrics.RsiOfFlat | server/src/analytics/metrics.ts:114-144 | a flat series has RSI 50 |
| Metrics.RsiOfRising | server/src/analytics/metrics.ts:114-144 | a non-decreasing series with at least one rise has RSI 100 |
| Metrics.ComputeDeltas | server/src/analytics/metrics.ts:116-119 | the loop pushes the differences of consecutive closes |
| Metrics.SeedAverages | server/src/analytics/metrics.ts:120-128 | the first loop gives the plain average gain and loss of the first 14 deltas |
| Metrics.SmoothAverages | server/src/analytics/metrics.ts:129-135 | the smoothing loop ends at Wilder's averages over all deltas |
| Metrics.ComputeRsi | server/src/analytics/metrics.ts:114-144 | the RSI block computes the specified RSI |
| Metrics.VolumeZScore | server/src/analytics/metrics.ts:53-69 | the z-score exists iff at least two bars carry a volume; it is positive only when the latest volume is above the mean of the last (up to) 20 volumes, and negative only when it is below |
| Metrics.VolumeZScoreOfConstant | server/src/analytics/metrics.ts:63-67 | equal volumes in the window give a z-score of exactly 0 |
| Metrics.SortedByDate | server/src/analytics/metrics.ts:88 | the bars are reordered by ascending date, same bars |
| Metrics.SortedClosesPositive | server/src/analytics/metrics.ts:88-89 | sorting keeps every close positive |
| Metrics.VolumeCountPermutation | server/src/analytics/metrics.ts:54 | reordering the bars keeps the number of bars that carry a volume, so sorting by date cannot change whether the z-score exists |
| Metrics.MetricsOf | server/src/analytics/metrics.ts:71-161 | no bars give the all-null record; each field is non-null exactly at its data threshold (1, >1, >5, >21, >63 closes; 3 for volatility, 2 for drawdown, 20 and 50 for the averages, 15 for RSI, two volumes for the z-score) |
| Metrics.MetricsInRange | server/src/analytics/metrics.ts:148-160 | after rounding, the price and volatility are not negative, the drawdown lies in [-100, 0] and RSI in [0, 100] |
| Metrics.MetricsPermutationInvariant | server/src/analytics/metrics.ts:88-89 | reordering bars with distinct dates gives the same record |
| Metrics.ComputeMetrics | server/src/analytics/metrics.ts:71-161 | the imperative pipeline computes the specified record |
| Metrics.Signals | server/src/analytics/metrics.ts:163-174 | at most two codes, no duplicates, an RSI code first; each code is present iff its threshold holds (RSI ≥ 70, RSI ≤ 30, one-month return ≥ 5, ≤ -5) |
| Metrics.BuildSignals | server/src/analytics/metrics.ts:163-174 | the pushes give the specified codes |
| Insights.HasAll | server/src/analytics/insights.ts:15 | true iff every value is present |
| Insights.ClassifyTrend | server/src/analytics/insights.ts:30-50 | Bullish iff price > sma20 > sma50, or that rule gave nothing and price > sma50 with a positive three-month return; Bearish symmetrically |
| Insights.ClassifyMomentum | server/src/analytics/insights.ts:52-59 | Strong iff both returns are positive and RSI ≥ 55; Weak iff both are negative and RSI ≤ 45; all three present |
| Insights.ClassifyRisk | server/src/analytics/insights.ts:61-68 | High iff volatility ≥ 45 or drawdown ≤ -35; Low iff not High, volatility ≤ 25 and drawdown ≥ -20; both present |
| Insights.Anomalies | server/src/analytics/insights.ts:70-80 | at most four codes, listed in the fixed check order |
| Insights.AnomaliesMembers | server/src/analytics/insights.ts:70-80 | each of the six codes is present exactly when its condition holds: z-score at least 2 or at most -2, RSI at least 70 or at most 30, drawdown at most -35, and the momentum code exactly when the signals carry it |
| Insights.AnomaliesDistinct | server/src/analytics/insights.ts:70-80 | no duplicates; never both volume codes, never both RSI codes |
| Insights.ToWords | server/src/analytics/insights.ts:21 | same length, no underscore and no upper-case letter left |
| Insights.HeadlineHasNoColon | server/src/analytics/insights.ts:18-19 | the label sentence is non-empty, starts with the trend name, ends in a full stop and contains no colon |
| Insights.BuildSummary | server/src/analytics/insights.ts:17-25 | the summary starts with the label sentence and ends in '.'; "Notable: " and the first anomaly in words are appended exactly when there are anomalies |
| Insights.ComputeSymbolInsights | server/src/analytics/insights.ts:27-85 | the labels and anomalies are the classified ones, and the summary has a note iff anomalies exist |
| Insights.DeepDrawdownIsHighRisk | server/src/analytics/insights.ts:63-64 | a drawdown ≤ -35 with volatility present is High risk and lists DRAWDOWN_ELEVATED |
| Insights.NoMomentumAnomalyFromBuiltSignals | server/src/analytics/insights.ts:80 | fed the output of `buildSignals`, the anomalies never contain MOMENTUM_NEG_LAST_MONTH |
| Insights.BullishHighRiskScenario | server/src/analytics/insights.test.ts:23-42 | the test's bullish case is Bullish, Strong and High, and its summary names the trend |
| Insights.BearishLowRiskScenario | server/src/analytics/insights.test.ts:44-61 | the test's bearish case is Bearish, Weak and Low |
| Insights.VolumeSpikeScenario | server/src/analytics/insights.test.ts:63-76 | the test's case lists VOLUME_SPIKE and MOMENTUM_NEG_LAST_MONTH and gets a "Notable" summary |
| Analyze.Clamp | server/src/routes/analyze.ts:64 | the result lies in [lo, hi] when lo ≤ hi, and is the value when it is already in range |
| Analyze.ClampMonotone | server/src/routes/analyze.ts:64 | clamping is monotone |
| Analyze.StdDev | server/src/routes/analyze.ts:66-72 | 0 below two values, never negative |
| Analyze.StdDevOfConstant | server/src/routes/analyze.ts:66-72 | equal values have deviation 0 |
| Analyze.AverageOrZero | server/src/routes/analyze.ts:112-113 | 0 for no values, otherwise between their minimum and maximum |
| Analyze.CountAboveAll | server/src/routes/analyze.ts:119 | no value above the threshold iff the count is 0; all above iff the count is the length |
| Analyze.Breadth | server/src/routes/analyze.ts:116-119 | in [0, 100]; 0 without RSI values, otherwise 100 times the share above 50 |
| Analyze.WithReturn | server/src/routes/analyze.ts:124-125 | exactly the rows with a one-month return |
| Analyze.WithReturnCount | server/src/routes/analyze.ts:123-125 | as many rows with a return as usable returns, so the filter is non-empty iff some row has one |
| Analyze.PerformersPresent | server/src/routes/analyze.ts:121-129 | top and bottom performer exist iff some row has a one-month return |
| Analyze.TopPerformerIsBest | server/src/routes/analyze.ts:124-127 | the top performer has the highest return and is the first row with it |
| Analyze.BottomPerformerIsWorst | server/src/routes/analyze.ts:124-128 | the bottom performer has the lowest return and is the last row with it |
| Analyze.Score | server/src/routes/analyze.ts:131-138 | the score lies in [0, 100] |
| Analyze.ScoreMonotone | server/src/routes/analyze.ts:132-138 | the score never falls when return or breadth rises, or volatility or dispersion falls |
| Analyze.NeutralScore | server/src/routes/analyze.ts:137-138 | all-zero figures score exactly 50 |
| Analyze.BuildGroupSummary | server/src/routes/analyze.ts:74-94 | the summary is one threshold phrase each for return (above 5, above 0), breadth (60, 30), volatility (40, 20) and dispersion (10, 5), in that order, joined by ", " and ending in "." |
| Analyze.GroupInsightsOf | server/src/routes/analyze.ts:96-153 | score and breadth in [0, 100], dispersion not negative, top present iff bottom present, and the summary written from the rounded figures; with no usable values, all figures are 0, the score is 50 and no performer is named |
| Analyze.ComputeGroupInsights | server/src/routes/analyze.ts:96-153 | the step-by-step construction computes the specified insights |
| Analyze.AnalyzeSymbol | server/src/routes/analyze.ts:250-252 | per symbol: metrics, then signals, then insights, and never the MOMENTUM_NEG_LAST_MONTH anomaly |
| Analyze.GroupFigures | server/src/routes/analyze.ts:96-153 | score and breadth stay within 0..100, dispersion is never negative, top and bottom performer exist together, and a group with no figures gets score 50, zero averages and no performers |
| Analyze.AppendRow | server/src/routes/analyze.ts:249-262 | one loop step adds the next symbol's row, so the rows are those of the first `i + 1` symbols |
| Analyze.AnalyzeRows | server/src/routes/analyze.ts:248-263 | the loop yields one row per symbol, in order, each holding that symbol's metrics |
| Analyze.AnalyzeGroup | server/src/routes/analyze.ts:248-265 | one row per symbol in order, each with its metrics, then the group insights over all rows |
| Cache.Weekday | server/src/marketData/cache.ts:21 | the UTC weekday is in 0..6 |
| Cache.TradingWeek | server/src/marketData/cache.ts:20-23 | trading days are exactly Monday to Friday; the pattern repeats weekly, and 1970-01-03/04 were days off |
| Cache.ScanDay | server/src/marketData/cache.ts:35-44 | one day of the scan keeps the ranges separated, made only of missing days, maximal and covering; a missing day opens or extends the open range, a present day closes it |
| Cache.ScanDays | server/src/marketData/cache.ts:30-46 | after the day-by-day loop, the closed ranges are final and every missing day is closed or in the open range |
| Cache.FindMissingRanges | server/src/marketData/cache.ts:25-52 | ranges ascending with a gap between neighbours; every day in them is a missing trading day of [start, end]; every such day is covered; no range can be extended; none for start > end or when nothing is missing |
| Cache.EffectiveEnd | server/src/marketData/cache.ts:65 | the end is the earlier of the requested end and today |
| Cache.FetchWindow | server/src/marketData/cache.ts:85-87 | a window exists iff some range does, and spans from the first range's start to the last range's end, covering all ranges |
| Cache.InRange | server/src/marketData/cache.ts:89-94 | exactly the fetched bars dated within [start, end] |
| Cache.PlanFetch | server/src/marketData/cache.ts:61-88 | a fetch is planned iff some trading day of [start, min(end, today)] is missing; the window starts and ends on missing days and covers every missing day |
| Stooq.ParseFloatSafe | server/src/marketData/stooqProvider.ts:9-13 | absent or empty text is null; anything else is the parsed finite number |
| Stooq.LettersOnly | server/src/marketData/stooqProvider.ts:173 | only a-z remain, never longer than the input |
| Stooq.NormalizeHeader | server/src/marketData/stooqProvider.ts:173 | the normal form holds only a-z |
| Stooq.NormalizeHeaderIdempotent | server/src/marketData/stooqProvider.ts:173 | normalising twice equals normalising once |
| Stooq.FindColumn | server/src/marketData/stooqProvider.ts:128-133 | the first column carrying either name, or none when no column does |
| Stooq.DetectColumns | server/src/marketData/stooqProvider.ts:126-138 | columns exist iff date, open, high, low and close are all found; volume is optional |
| Stooq.PolishHeader | server/src/marketData/stooqProvider.ts:126-134 | the Polish header "Data,Otwarcie,…,Wolumen" maps to columns 0 to 5 |
| Stooq.EnglishHeader | server/src/marketData/stooqProvider.ts:126-134 | the English header "Date,Open,…,Volume" maps to columns 0 to 5 |
| Stooq.StandardHeader | server/src/marketData/stooqProvider.ts:126-134 | any header whose six cells name date, open, high, low, close and volume in that order, in English, Polish or mixed, is read as columns 0 to 5 |
| Stooq.ColumnNamesDistinct | server/src/marketData/stooqProvider.ts:128-134 | no header name is looked up for two different columns |
| Stooq.Cell | server/src/marketData/stooqProvider.ts:143 | a cell exists iff its index is within the row |
| Stooq.ParseRow | server/src/marketData/stooqProvider.ts:142-166 | a bar iff the date is usable and all four prices parse; its fields are those cells; volume is null without a volume column or a parseable cell |
| Stooq.ParseRows | server/src/marketData/stooqProvider.ts:140-169 | the row loop keeps the parsing rows, in order |
| Stooq.RowsToBarsOrigin | server/src/marketData/stooqProvider.ts:140-169 | bar k comes from a row that parses to it, after exactly k parsing rows |
| Stooq.RowsToBarsDated | server/src/marketData/stooqProvider.ts:144 | no emitted bar has an empty or "N/D" date |
| Stooq.BodyBars | server/src/marketData/stooqProvider.ts:114-169 | an empty body gives no bars; "limit" in the body means Yahoo instead; otherwise fewer bars than lines |
| Stooq.MissingColumnYieldsNothing | server/src/marketData/stooqProvider.ts:136-138 | a header missing a required column gives no bars |
| Stooq.ParseDailyBars | server/src/marketData/stooqProvider.ts:114-169 | the body handling computes the specified outcome |
| Stooq.At | server/src/marketData/stooqProvider.ts:67-70 | an entry exists only when the array does and holds it |
| Stooq.YahooBarAt | server/src/marketData/stooqProvider.ts:64-90 | a bar iff the timestamp is a valid date and all four prices are present; the bar carries them and the volume |
| Stooq.ZipYahooBars | server/src/marketData/stooqProvider.ts:58-92 | no quote or no timestamps gives no bars; otherwise the usable indices in timestamp order |
| Groups.CollapseRuns | server/src/routes/groups.ts:167 | the result holds only a-z, 0-9 and single dashes |
| Groups.StripEdgeDashes | server/src/routes/groups.ts:168 | a dash-separated text loses its edge dashes and becomes a slug |
| Groups.Slugify | server/src/routes/groups.ts:163-168 | the id holds only a-z, 0-9 and '-', never two dashes in a row nor a dash at either end |
| Groups.SlugifyFixesSlugs | server/src/routes/groups.ts:163-168 | a slug slugifies to itself |
| Groups.SlugifyIdempotent | server/src/routes/groups.ts:163-168 | slugifying twice equals slugifying once |
| Groups.SlugifyKeepsLettersAndDigits | server/src/routes/groups.ts:163-168 | the slug keeps the lower-cased letters and digits of the name, in order |
| Groups.FormatGroup | server/src/routes/groups.ts:18-28 | id, name and type copied; the symbols are the members' symbols in member order |
| Groups.CreateGroup | server/src/routes/groups.ts:57-59 | a group iff the name is non-empty, the type is known or absent and no symbol is empty (otherwise the 400 answer); id is the name's slug; a given type is kept and an absent one is "manual" |
| Groups.ReplaceMembers | server/src/routes/groups.ts:100-138 | the request is accepted iff no symbol is empty (otherwise the 400 answer); id, name and type are kept; there are no more members than requested symbols (the member list itself is stated by `Groups.ReturnedSymbolsAreDeduplicated`) |
| Groups.ReturnedSymbolsAreDeduplicated | server/src/routes/groups.ts:115 | for an accepted request, the returned symbols are the request's without repeats, the same set, in first-occurrence order |
| Groups.CreatedSymbolsAreDeduplicated | server/src/routes/groups.ts:58-59 | a created group returns the de-duplicated symbols and a slug id |
| Common.Dedup | server/src/routes/groups.ts:59 | no duplicates and exactly the same elements |
| Common.DedupFirstOccurrenceOrder | server/src/routes/groups.ts:59 | elements keep the order of their first occurrences |
| Common.DedupPrefix | client/src/App.tsx:1073 | de-duplicating `a + b` keeps the de-duplicated `a` in front |
| Common.DedupOfDistinct | server/src/routes/groups.ts:59 | a list without repeats is unchanged |
| Common.SplitPiecesFree | server/src/marketData/stooqProvider.ts:142 | no piece of a split contains the separator |
| Common.SplitJoin | server/src/marketData/stooqProvider.ts:142 | joining the pieces of a split with the separator gives back the text |
| Common.JoinSplit | server/src/marketData/stooqProvider.ts:142 | splitting pieces free of the separator after joining them gives back the pieces |
| Common.SortBy | server/src/analytics/metrics.ts:88 | sorted by the key, with the same elements |
| Common.SortByPermutationInvariant | server/src/analytics/metrics.ts:88 | sorting by distinct keys does not depend on the input order |
| Common.SortByHead | server/src/routes/analyze.ts:126-127 | the first sorted element is the first one with the smallest key (a stable sort) |
| Common.SortByLast | server/src/routes/analyze.ts:126-128 | the last sorted element is the last one with the largest key (a stable sort) |
| Common.NormalizeSymbol | server/src/fundamentals/sync.ts:267 | a trimmed, upper-cased symbol, when not empty, has no lower-case letter and no edge space |
| Common.NormalizeSymbols | server/src/fundamentals/sync.ts:266-268 | normalised symbols without duplicates |
| Common.NormalizeSymbolsMembers | server/src/fundamentals/sync.ts:266-268 | a symbol is kept iff it is non-empty and the normal form of some input |
| Fundamentals.ToQuarter | server/src/fundamentals/sync.ts:68 | the quarter is in 1..4 and contains the month |
| Fundamentals.FindQuarterFrom | server/src/fundamentals/sync.ts:44 | a match iff some "Q1".."Q4" (any case) occurs, and it is the digit of one |
| Fundamentals.ParseQuarter | server/src/fundamentals/sync.ts:42-46 | null for a non-string or a string without "Qn"; otherwise the n of the first "Qn" match, in 1..4 |
| Fundamentals.SeriesMap | server/src/fundamentals/sync.ts:90-98 | only non-empty dates are keys, each mapping to an entry with that date |
| Fundamentals.BuildSeriesMap | server/src/fundamentals/sync.ts:90-98 | the loop builds the specified map; no entries means an empty map |
| Fundamentals.SeriesMapKeys | server/src/fundamentals/sync.ts:93-94 | a date is a key iff some entry carries it |
| Fundamentals.SeriesMapLastWins | server/src/fundamentals/sync.ts:94 | for a repeated date, the last entry wins |
| Fundamentals.EpsOf | server/src/fundamentals/sync.ts:211 | diluted EPS when present, else basic |
| Fundamentals.ByPeriodEnd | server/src/fundamentals/sync.ts:210 | the periods in ascending period-end order, same periods |
| Fundamentals.TtmAt | server/src/fundamentals/sync.ts:214-225 | null for the first three periods; later, present iff the four EPS values are, and then their sum |
| Fundamentals.TtmMap | server/src/fundamentals/sync.ts:212-226 | one key per visited period end |
| Fundamentals.BuildTtmEps | server/src/fundamentals/sync.ts:209-229 | the loop builds the specified map |
| Fundamentals.TtmMapAt | server/src/fundamentals/sync.ts:214-226 | with distinct period ends, each period maps to its window value |
| Fundamentals.TtmEps | server/src/fundamentals/sync.ts:209-229 | with distinct period ends, the map sends the k-th period in date order to its four-quarter sum, null in the first three or with a missing EPS |
| Fundamentals.PeTtm | server/src/fundamentals/sync.ts:326 | P/E exists iff EPS is positive and a non-zero close exists; then P/E times EPS is the close |
| Fundamentals.Valuation | server/src/fundamentals/sync.ts:316-326 | the period's TTM EPS from the map (null when absent) and the P/E from it |
| Client.SplitRuns | client/src/App.tsx:781 | at least one piece, none containing a comma or white space |
| Client.ParseSymbols | client/src/App.tsx:779-783 | every symbol is non-empty, upper-case, trimmed, and free of commas and white space |
| Client.SplitRunsOfJoin | client/src/App.tsx:781 | non-empty separator-free pieces joined by commas split back into the same pieces |
| Client.ParseSymbolsOfEmpty | client/src/App.tsx:779-783 | the empty string parses to no symbols |
| Client.ParseSymbolsOfJoin | client/src/App.tsx:779-783 | clean symbols joined by commas parse back to the same list |
| Client.BlankHasNoSymbols | client/src/App.tsx:1070-1072 | a blank draft yields no symbols |
| Client.MergeSymbols | client/src/App.tsx:1073 | no duplicates, exactly the existing and added symbols |
| Client.MergeKeepsExisting | client/src/App.tsx:1073 | existing distinct symbols keep their positions ahead of new ones |
| Client.ApplyAddSymbols | client/src/App.tsx:1070-1075 | with no parsed symbols, the staged list is unchanged; otherwise it is the merge |
| Client.SaveSymbols | client/src/App.tsx:1082-1090 | the saved list is the normalised, de-duplicated override or staged list |
| Client.InlineAddSymbols | client/src/App.tsx:1777-1781 | nothing happens iff the draft has no symbol; otherwise a duplicate-free list holding every added symbol, and for a group whose symbols were saved before (clean, no repeats) exactly the merge, with the group's symbols kept in place ahead of the additions |
| Client.SavedMergeOfClean | client/src/App.tsx:1084-1090 | saving the merge of a saved group's symbols with parsed ones sends the merge unchanged, the group's symbols first |
| Common.NormalizeSymbolsOfClean | client/src/App.tsx:1084-1090 | a list of clean symbols without repeats is already normalised, so saving it sends it unchanged |
| Client.CalcYoY | client/src/App.tsx:598-606 | null iff a value is missing or the prior is 0; otherwise the change relative to the prior's magnitude, positive iff the latest is larger, 0 iff equal |
| Client.CalcMargin | client/src/App.tsx:608-616 | null iff a value is missing or the base is 0; otherwise the value as a percent of the base |
| Client.SortQuartersAsc | client/src/App.tsx:593-596 | quarters in ascending period-end order, same quarters |
| Client.BuildTrendSeries | client/src/App.tsx:618-625 | empty unless there are 20 quarters whose latest 20 all carry the field; then those 20 values, oldest first |
| Client.MovingAverageAt | client/src/App.tsx:3322-3328 | null exactly before a full window exists |
| Client.MovingAverage | client/src/App.tsx:3319-3331 | one entry per point, each the window mean or null |
| Client.MovingAverageWithinWindow | client/src/App.tsx:3326-3328 | each average lies between the minimum and maximum close of its window |
| Client.FilterEvents | client/src/App.tsx:3562-3567 | exactly the events whose category is enabled |
| Client.MinGap | client/src/App.tsx:3568 | the gap is max(2, ⌊n/80⌋) |
| Client.SortByIndex | client/src/App.tsx:3569 | events in ascending index order, same events |
| Client.ThinSorted | client/src/App.tsx:3570-3583 | the thinning loop over the sorted events computes the specified thinned list |
| Client.VisibleEvents | client/src/App.tsx:3560-3584 | no events when they are switched off; otherwise the thinning loop computes the specified list |
| Client.ThinIsSubsequence | client/src/App.tsx:3572-3582 | thinning keeps a subsequence of its input |
| Client.ThinKeepsMaxDrawdown | client/src/App.tsx:3573-3576 | the "Max drawdown" event is always kept |
| Client.ThinSpacing | client/src/App.tsx:3578-3581 | every kept event other than "Max drawdown" is at least the gap after the previous kept one |
| Client.VisibleEventsSpacing | client/src/App.tsx:3560-3584 | the visible events are a subsequence of the filtered events in index order, spaced by the gap |
| Client.VisibleEventsEnabled | client/src/App.tsx:3562-3567 | every visible event is an input event of an enabled category |
| Client.VisibleEventsKeepMaxDrawdown | client/src/App.tsx:3573-3576 | an enabled "Max drawdown" event is always visible |
| Client.SlideBaseline | client/src/App.tsx:933-944 | after a day's update the baseline sum and count are those of the window that ends at the next day |
| Client.WindowDropFirst | client/src/App.tsx:937-943 | dropping the leaving day removes its volume from the baseline sum and count |
| Client.DetectVolumeSpike | client/src/App.tsx:907-977 | the loop's label and counters are the specified ones; a chart of one point gets no label |
| Client.StatsPeak | client/src/App.tsx:922-929 | the peak ratio is the largest of the detection window, and its reported volume and date are that day's |
| Client.StatsCounts | client/src/App.tsx:922-932 | extreme days ≤ spike days ≤ days with a ratio |
| Client.SpikeLabelMeaning | client/src/App.tsx:946-977 | "extreme" iff at least three days have a ratio and one reaches 2.2; the plain spike iff one reaches 1.8 and none 2.2 |

## Left out

- HTTP and storage: the Express handlers, Prisma reads and writes, JSON snapshots of runs, and the fetch calls are left out. The model starts from the data those calls return. Of request validation, only the group create and member replace schemas are modelled (their 400 answer is `None`); the 404 for an unknown group id is left out, since the model is handed the group.
  - Group listing, lookup and deletion are left out.
  - The "group already exists" error (Prisma code P2002) is left out.
  - The order in which the database returns members is taken to be insertion order.
- Network and timing: the Stooq URL and ticker building, the 404 and error statuses, the Yahoo requests, `fetchYahooQuarterly` and its row assembly, and `startFundamentalsSync` are left out. This includes its rate-limit delays, stale-state check and per-symbol error handling.
  - The close price used for P/E is a parameter of `Fundamentals.Valuation`, standing for the database lookup.
- Floating point: NaN, infinities, `Number.isFinite`, and binary rounding of `toFixed` are not modelled.
  - The `Number.isNaN` filters of `computeGroupInsights` are not modelled, since a real is never NaN.
  - `Math.sqrt`, `Math.log` and `Number(...)` are parameters whose numeric values are not modelled.
- Metrics.MetricsOf: requires every close to be positive. A zero close makes the source divide by zero, and its infinite or NaN results have no real counterpart.
- Metrics.VolAnnOf: states only when the volatility exists and that it is not negative. Its value goes through the square-root and logarithm parameters.
- Metrics.VolumeZScore: states only when the z-score exists, its sign, and 0 for equal volumes. Its value goes through the square-root parameter.
- Analyze.StdDev: states only 0 below two values and non-negativity, for the same reason.
- Client.MovingAverage: requires a window of at least 1. The chart calls it with 20 and 50; a window of 0 would average an empty slice.
- Text: case mapping, `trim` and `\s` cover ASCII only. JavaScript's Unicode case mapping and Unicode white space are not modelled.
- Dates: text dates, `toISOString`, `toDateOnly` on strings, and the local-time formatting of the prices route are not modelled; days are integers throughout.
- Client presentation: tooltip texts and `formatVolume` are not modelled. Building the chart events and the display-only RSI series is not modelled either. Only the label, peak and counters of the spike detector are modelled.
