# Trading dashboard core, modelled in Dafny

This project models the decision logic of a React trading dashboard. The dashboard shows signals, news, orders, risk and backtests to a trader. The model covers:

- the portfolio maths service: composite score, parametric value-at-risk, and the heuristic target allocation;
- the historical-data batch downloader and its candle cache;
- the realtime market service: subscriber set, news mapping, initial state and the backtest drawdown pass;
- the two mock backends: order-approval queues, signal mapping, event filtering, and the events query path;
- the small helpers inside the components: search filters, expandable rows, trade statistics, backtest summary, correlation grid, TradingView symbol mapping, heatmap grouping, pipeline stage icons, sector/route/sector-flow aggregation, QA traffic light, toasts and sidebar links.

## Modelling choices

- **Numbers.** JavaScript numbers are Dafny `real`s, with no IEEE rounding.
  - `Math.round(x)` is `Floor(x + 0.5)`.
  - `Math.floor` is `.Floor`.
  - `a || d` on a number is "`a` unless it is 0 or missing".
  - `a ?? d` falls back only when `a` is missing.
- **`Math.sqrt`** cannot be computed on reals. It is a parameter `sqrt` constrained by `MathService.IsSquareRoot`, which requires `sqrt(0) = 0`, strict monotonicity and `sqrt(x)^2 = x`.
- **Inputs from outside.** These are all parameters: the results of `Math.random()` that the modelled fields read (draws for fields the model does not carry are skipped), `Date.now()`, `createId()`, fetch outcomes and date parsing.
- **Records.** A JavaScript `Record<string, number>` that a `reduce` fills is an insertion-ordered list of key/value entries (`Tally.Entries`). `Object.entries` lists string keys in that order.
- **State.** State that the source updates in place is a Dafny `class` whose methods carry `modifies` clauses:
  - React `useState` pairs;
  - the module-level order lists of the backends;
  - the subscriber `Set`;
  - the IndexedDB store.
- **Loops.** Loops and `forEach`/`reduce` accumulations are `method`s with loop invariants. Each is proved equal to a specification function, and the properties are proved about that function.
- **Rounding.**
  - `sharesDiff` uses `Math.floor`, so a sell rounds toward −∞, not toward zero (`MathService.FloorReal`, `MathService.TargetRow`).
  - The composite blend is rounded first and clamped after. That equals clamping first on every input (`MathService.CompositeScore`).

## Model

| member | source | states |
|---|---|---|
| MathService.Round | services/mathService.ts:25 | `Math.round` gives the integer `r` with `r − 0.5 ≤ x < r + 0.5` (halves round up) |
| MathService.RoundMonotone | services/mathService.ts:25 | rounding never reverses the order of two values |
| MathService.CompositeScore | services/mathService.ts:15-26 | the score is an integer in [0,100]; strictly inside the range it is the 60/40 blend rounded; it is 0 exactly when the blend is below 0.5 and 100 exactly when it is at least 99.5 |
| MathService.CompositeScoreReadsTwoFields | services/mathService.ts:15-25 | two signals with equal trend score and news impact get equal composite scores, whatever their other fields |
| MathService.CompositeScoreMonotoneInTrend | services/mathService.ts:17-25 | raising the trend score never lowers the composite score |
| MathService.CompositeScoreMonotoneInSentiment | services/mathService.ts:20-25 | raising the news impact never lowers the composite score |
| MathService.CompositeScoreExample | services/mathService.ts:15-25 | trend 80 with impact 0 scores 68 |
| MathService.DailyVol | services/mathService.ts:44-45 | the daily volatility, floored at 1% before dividing by 15.87, is always positive |
| MathService.VarianceTerm | services/mathService.ts:41-47 | a signal's variance term is never negative, and it is positive exactly when the signal is held with a positive weight |
| MathService.Variance | services/mathService.ts:40-48 | the accumulated variance is never negative |
| MathService.PortfolioVariance | services/mathService.ts:40-53 | the variance after the 1.5 correlation penalty is never negative |
| MathService.CalculatePortfolioRisk | services/mathService.ts:32-69 | the loop computes the metrics of the penalised variance; Sharpe is 1.85 and beta 1.12; cvar95 = 1.15 · var99; var99 : var95 = 2.33 : 1.645; volatility ≥ 0 |
| MathService.VarianceZero | services/mathService.ts:40-48 | with no positive weight the variance is 0 |
| MathService.NoHoldingsNoRisk | services/mathService.ts:38-67 | with no positive weight, var95, var99, cvar95 and volatility are 0, while Sharpe is 1.85 and beta 1.12 |
| MathService.HeldSignalAddsVariance | services/mathService.ts:40-48 | one signal held with a positive weight makes the variance positive, whatever its volatility |
| MathService.HeldSignalAddsRisk | services/mathService.ts:40-53 | one held signal makes the penalised portfolio variance positive |
| MathService.VarianceTermMonotone | services/mathService.ts:44-46 | raising a signal's volatility never lowers its variance term |
| MathService.VarianceMonotone | services/mathService.ts:40-48 | raising one signal's volatility never lowers the accumulated variance |
| MathService.HigherVolatilityNeverLowersRisk | services/mathService.ts:40-66 | raising a held signal's volatility lowers neither the portfolio variance nor the reported volatility |
| MathService.VarianceAppend | services/mathService.ts:40-48 | the accumulation over two lists of signals is the sum of the two accumulations |
| MathService.UnheldSignalContributesNothing | services/mathService.ts:40-53 | removing a signal that is not held with a positive weight leaves the portfolio variance unchanged |
| MathService.SafeTotal | services/mathService.ts:97 | the score divisor is never 0 |
| MathService.PriceOf | services/mathService.ts:110 | the price used for the current weight is never 0 |
| MathService.CappedWeight | services/mathService.ts:107 | a target weight is at most 0.25; it is the raw weight, or 0.25 when the raw weight exceeds 0.25, and capped weights are not renormalised |
| MathService.FloorReal | services/mathService.ts:118 | `Math.floor` gives the greatest integer `r` with `r ≤ x < r + 1` |
| MathService.TargetRow | services/mathService.ts:99-142 | an investable row keeps the ticker, and its target weight never exceeds 0.25 |
| MathService.TargetRowSpec | services/mathService.ts:99-132 | an investable row's target is the capped score share. Its current weight is shares · price over capital (0 without capital). HOLD iff \|diff\| < 0.02, BUY iff diff ≥ 0.02, SELL iff diff ≤ −0.02. sharesDiff is the floor of diff · capital / price, and the reason matches the action |
| MathService.DroppedRow | services/mathService.ts:145-156 | a forced liquidation row is SELL with target 0, sharesDiff = −shares and reason "Score deteriorated"; its current weight is shares · (price or 100) / capital for positive capital, and 0 otherwise (the corrected rule of the finding below) |
| MathService.InvestableRows | services/mathService.ts:99-142 | the second `forEach` pushes one row per investable signal, in order |
| MathService.OptimizePortfolio | services/mathService.ts:74-160 | the loops compute exactly the specified table (`Optimized`), whose liquidation rows use the corrected weight of the finding below |
| MathService.NothingInvestableMeansEmptyTable | services/mathService.ts:85-87 | without an investable signal the table is empty, even when shares are held |
| MathService.InvestableRowsSpec | services/mathService.ts:99-142 | a row is among the investable rows iff it is the row of some investable signal |
| MathService.DroppedRowsSpec | services/mathService.ts:145-157 | a row is among the liquidation rows iff it is the row of a dropped-out signal with shares > 0 |
| MathService.OptimizedSortedPermutation | services/mathService.ts:159 | the table is sorted by non-increasing target weight and is a permutation of the unsorted rows |
| MathService.OptimizedMembership | services/mathService.ts:159 | sorting keeps exactly the rows pushed |
| MathService.OptimizedRows | services/mathService.ts:82-159 | a row is in the table iff it is the banded row of an investable signal or the liquidation row of a held non-investable one; every row's target is ≤ 0.25 |
| MathService.DroppedWeightAsWrittenInfinite | services/mathService.ts:150 | as written, a held signal dropping out while capital is 0 gets a weight that is not finite (`None` stands for Infinity) |
| MathService.DroppedWeightAsWrittenNegative | services/mathService.ts:150 | as written, a held signal dropping out while capital is −1000 gets weight −0.5, where the corrected rule gives 0 |
| MathService.DroppedWeightCorrected | services/mathService.ts:150 | the guarded weight agrees with the source whenever capital is positive, is 0 otherwise, and uses the same rule as the investable rows |
| Sorting.SortBySpec | services/mathService.ts:159 | the sort by a real key yields a sorted permutation of its input |
| Sorting.SortByStable | services/mathService.ts:159 | the sort is stable: the elements with any one key keep their input order, as `Array.prototype.sort` does since ES2019 |
| DataCache.SyntheticCandle | services/dataCacheService.ts:180-192 | a synthetic candle is dated `today − 2500 + k`. For valid draws: low ≤ open ≤ high, high − low < 2, close lies within 0.5 of open, and volume is an integer in [0, 1000000) |
| DataCache.Synthetic | services/dataCacheService.ts:180-194 | one candle per draw, on consecutive days |
| DataCache.GenerateSyntheticHistory | services/dataCacheService.ts:176-195 | the loop yields exactly 2500 candles, the last dated the day before today |
| DataCache.SyntheticWalk | services/dataCacheService.ts:183-189 | successive synthetic opens differ by less than 1, and every candle keeps low ≤ open ≤ high |
| DataCache.FetchAlphaVantage | services/dataCacheService.ts:143-174 | the response is classified as specified by `Fetched` (rate limit or failure, missing series, parsed series) |
| DataCache.FetchedSpec | services/dataCacheService.ts:151-172 | a rate-limit payload or a failure yields exactly 2500 candles. A payload without a daily series yields none. A parsed series is a permutation of the payload, sorted by date |
| DataCache.CandleCache.constructor | services/dataCacheService.ts:41 | the store and the status trace start empty |
| DataCache.CandleCache.SaveCandles | services/dataCacheService.ts:58-65 | `put` overwrites the ticker's entry; the count grows by one only for a new ticker |
| DataCache.CandleCache.GetCandles | services/dataCacheService.ts:67-77 | the stored list, or `None` (the source's `null`) exactly when the ticker is absent |
| DataCache.CandleCache.ClearDatabase | services/dataCacheService.ts:79-87 | the store becomes empty |
| DataCache.CandleCache.GetStorageUsage | services/dataCacheService.ts:89-96 | the count is the number of distinct tickers stored |
| DataCache.CandleCache.Download | services/dataCacheService.ts:105-133 | a round emits FETCHING with count 0. Non-empty candles emit SAVING and then COMPLETED with their count, and are stored. An empty list, or a failed save, emits one FAILED with count 0 and "API Limit or Net Error" |
| DataCache.CandleCache.RunBatchDownload | services/dataCacheService.ts:100-141 | tickers are processed one at a time in input order; the trace and the store are those of the specified rounds |
| DataCache.BatchTraceCounts | services/dataCacheService.ts:105-139 | n rounds emit n FETCHING statuses, and a full batch of n tickers emits n − 1 WAITING statuses |
| DataCache.FallbackCompletes | services/dataCacheService.ts:120-125 | a rate-limited or failed request still ends its ticker FETCHING, SAVING 2500, COMPLETED 2500 |
| DataCache.MissingSeriesFails | services/dataCacheService.ts:126-132 | a payload without a daily series ends its ticker FETCHING, then FAILED with count 0 |
| DataCache.StoreAfterKeys | services/dataCacheService.ts:100-141 | after the batch a ticker is stored iff it was stored before or some round saved candles for it |
| MarketService.RealtimeMarketService.constructor | services/marketService.ts:65-70 | the service starts with no subscribers, no socket and no messages sent |
| MarketService.RealtimeMarketService.Subscribe | services/marketService.ts:98-104 | an empty ticker changes nothing. Otherwise the ticker joins the set once (idempotent), and a subscribe message is sent only while the socket is open |
| MarketService.RealtimeMarketService.Unsubscribe | services/marketService.ts:106-111 | exactly that ticker leaves the set and the others keep their order; an unsubscribe message is sent only while the socket is open |
| MarketService.RealtimeMarketService.OnOpen | services/marketService.ts:77-81 | opening the socket resubscribes every ticker in the set, in set order |
| MarketService.RealtimeMarketService.Disconnect | services/marketService.ts:113-118 | the socket is closed; the set is kept |
| MarketService.SubscribeAllLength | services/marketService.ts:80 | resubscribing sends one message per subscriber, in order |
| MarketService.MapNews | services/marketService.ts:127-137 | one mapped item per payload item, in order |
| MarketService.FetchLatestNewsSpec | services/marketService.ts:121-142 | a failure gives []. Otherwise at most 10 items come back in payload order. Each keeps the headline, summary, url and timestamp (seconds · 1000), takes the source or "Finnhub" when it is empty, is NEUTRAL with impact 5, and takes as related ticker the text before the first comma of `related` (a comma-free prefix that ends at the first comma or at the end). Its id is the source id written in decimal |
| MarketService.NewsIdsDistinct | services/marketService.ts:128 | distinct source ids give distinct item ids |
| MarketService.ApproxPrice | services/marketService.ts:207 | a listed ticker with a non-zero table price gets that price, an unlisted one gets 100, and the price is never 0 |
| MarketService.ApproxPriceExample | services/marketService.ts:56 | RHM.DE is priced 1500.50 |
| MarketService.InitialSignal | services/marketService.ts:204-247 | an initial signal has the base price, HOLD, volatility 0.25, composite 50, volumeAvg = 1.1 · volume and ATR = 2% of price. For valid draws the trend is an integer in [40,80) and the volume lies in [500000, 2500000) |
| MarketService.InitialSignals | services/marketService.ts:204-248 | one initial signal per watchlist entry, in order |
| MarketService.StrategyReturnSpec | services/marketService.ts:294-301 | in a risk-off regime the strategy gains 0.2 · \|m\| when the market falls and returns 0.3 · m − 0.001 otherwise; in other regimes it returns 1.2 · m |
| MarketService.SimulateDay | services/marketService.ts:271-311 | one loop iteration computes the specified step |
| MarketService.SimulateDays | services/marketService.ts:258-312 | the day loop, with its carried equity, benchmark, regime and counter, computes the specified points (`SimulatedPoints`) |
| MarketService.SimulatedPoints | services/marketService.ts:267-312 | the simulation emits one point per day on consecutive days, with drawdown 0 before the pass |
| MarketService.Peak | services/marketService.ts:315-317 | the running peak is at least the initial capital and at least every equity seen |
| MarketService.WithDrawdowns | services/marketService.ts:314-319 | the drawdown pass keeps the number of points, for any initial capital |
| MarketService.RecalcDrawdown | services/marketService.ts:315-319 | the loop with its mutable `peak` computes the specified drawdowns |
| MarketService.GenerateDeepBacktestData | services/marketService.ts:254-320 | the series has years · 252 points and is the simulation followed by the drawdown pass |
| MarketService.DrawdownSpec | services/marketService.ts:315-319 | with positive initial capital every drawdown is ≤ 0. It is 0 exactly when the equity reaches the prior peak, and no other field changes |
| MarketService.DrawdownRatio | services/marketService.ts:318 | `(e − p) / p` is ≤ 0 for e ≤ p, and 0 exactly when e = p |
| Domain.DirectionOfSpec | src/api/backendApi.ts:65 | BUY maps to LONG, SELL to SHORT, anything else to HOLD, and the mapping is one-to-one |
| Domain.EventTypeNameInjective | src/types/domain.ts:99-105 | distinct event types have distinct names, so filtering by name is filtering by type |
| Domain.CurrencyFor | api/backendApi.ts:30 | the currency is EUR exactly when the ticker contains ".DE", and USD otherwise |
| Domain.WithoutOrderSpec | src/api/backendApi.ts:85 | removing an id drops every order with it and keeps the rest in order; an unknown id changes nothing; removing twice is removing once |
| LegacyBackend.FindEntry | api/backendApi.ts:28 | the `find` result is a watchlist entry with that ticker, or none exactly when no entry has it |
| LegacyBackend.SeedCurrencies | api/backendApi.ts:30 | NVDA and PLUG are priced in USD, RHM.DE in EUR |
| LegacyBackend.SeedIdsDistinct | api/backendApi.ts:24 | seeded order ids differ by index even when created within the same millisecond |
| LegacyBackend.SeedOrderSpec | api/backendApi.ts:23-42 | a seeded order is PENDING, LIMIT at 150, DAY. It is BUY iff its index is even, has quantity 10 · (i+1), cost 150 · quantity and fees 2.50 |
| LegacyBackend.SeededOrdersSpec | api/backendApi.ts:21-43 | seeding gives three pending orders, NVDA BUY 10 USD, RHM.DE SELL 20 EUR and PLUG BUY 30 USD, with distinct ids |
| LegacyBackend.FindIndex | api/backendApi.ts:85 | `findIndex` gives −1 exactly when no order has the id; otherwise the first position holding it |
| LegacyBackend.OrderDesk.constructor | api/backendApi.ts:16-44 | the module starts with the seeded pending orders and no approved ones |
| LegacyBackend.OrderDesk.InitPendingOrders | api/backendApi.ts:21-43 | reseeding replaces the pending list and leaves the approved list alone |
| LegacyBackend.OrderDesk.GetOrderPreviews | api/backendApi.ts:79-82 | the previews are a copy of the pending list; the method changes nothing |
| LegacyBackend.OrderDesk.ApproveOrder | api/backendApi.ts:84-93 | an unknown id changes nothing. Otherwise the first order with the id is appended to the approved list as APPROVED, and every order with the id leaves the pending list |
| LegacyBackend.OrderDesk.RejectOrder | api/backendApi.ts:95-101 | a known id leaves the pending list, an unknown id changes nothing, and the approved list never changes |
| LegacyBackend.ApproveSpec | api/backendApi.ts:84-91 | approval grows the approved list by exactly the approved order; the pending list shrinks and keeps the other orders in order |
| LegacyBackend.UnknownIdChangesNothing | api/backendApi.ts:84-100 | for an id not pending, `findIndex` is −1 and the filter changes nothing |
| LegacyBackend.GetSignals | api/backendApi.ts:48-77 | one domain signal per market signal, in order |
| LegacyBackend.ToSignalSpec | api/backendApi.ts:52-66 | stop loss is 95% and take profit 110% of the entry price, bracketing a positive price. BUY↔LONG and SELL↔SHORT. Ids are equal iff tickers are |
| LegacyBackend.GetEventsSpec | api/backendApi.ts:162-216 | without a type (or with an empty one) all three events come back; with a type, exactly the fixed events of that type, in order |
| LegacyBackend.EventsOfType | api/backendApi.ts:212-215 | each type yields its one fixed event, or none for the other types |
| BackendApi.InitOrders | src/api/backendApi.ts:21-42 | at most the first three signals become orders |
| BackendApi.InitOrdersSpec | src/api/backendApi.ts:21-42 | order i is "ord-i" for signal i. It is BUY iff the signal is BUY, quantity 10, limit = price, cost = 10 · price and PENDING. Ids are distinct |
| BackendApi.MockOrderDesk.constructor | src/api/backendApi.ts:18-43 | the pending list starts as the initial orders |
| BackendApi.MockOrderDesk.GetOrderPreviews | src/api/backendApi.ts:80-82 | the previews are a copy of the pending list; the method changes nothing |
| BackendApi.MockOrderDesk.ApproveOrder | src/api/backendApi.ts:84-86 | approval removes every order with the id and keeps the rest in order |
| BackendApi.MockOrderDesk.RejectOrder | src/api/backendApi.ts:88-90 | rejection removes every order with the id and keeps the rest in order |
| BackendApi.GetSignals | src/api/backendApi.ts:55-77 | one domain signal per cached signal, in order |
| BackendApi.ToSignalSpec | src/api/backendApi.ts:65-69 | stop loss is 95% and take profit 105% of the entry price, symmetric around it. BUY↔LONG and SELL↔SHORT |
| BackendApi.AllEvents | src/api/backendApi.ts:148-180 | one event per news item plus one |
| BackendApi.AllEventsSpec | src/api/backendApi.ts:148-180 | news item i becomes COMPANY_NEWS "news-i" with no tickers exactly when its related ticker is missing or empty. Exactly one CONGRESS_TRADE event follows, and ids are distinct |
| BackendApi.GetEventsSpec | src/api/backendApi.ts:182-185 | with the type absent, empty or "ALL" everything comes back; otherwise exactly the events of that type, in order |
| BackendApi.CongressOnly | src/api/backendApi.ts:147-186 | asking for CONGRESS_TRADE yields the single congress event |
| BackendApi.EncodeURIComponent | src/api/backendApi.ts:198 | the encoding uses only unreserved characters and '%' and is never shorter than its input |
| BackendApi.EncodeDecodeAscii | src/api/backendApi.ts:198 | decoding the percent escapes of an ASCII string gives it back |
| BackendApi.EncodeUnreserved | src/api/backendApi.ts:198 | a string of unreserved characters encodes to itself |
| BackendApi.EventsPathSpec | src/api/backendApi.ts:197-199 | the path is "/events", plus "?type=" and the encoded type only when a non-empty type is given; no further '?' follows |
| Settings.Read | components/Settings.tsx:31-33 | reading a field yields a change for that field |
| Settings.ChangedSpec | components/Settings.tsx:31-33 | `handleChange` replaces exactly one field (the capital, a risk parameter, the API key or the watchlist), leaves the others unchanged, and writing back a field's own value changes nothing |
| Settings.WithTickerSpec | components/Settings.tsx:35-41 | a non-empty input whose upper case is new is appended at the end; otherwise the list is unchanged. A list without duplicates stays so. Adding twice is adding once |
| Settings.WithoutTickerSpec | components/Settings.tsx:43-46 | every occurrence of the ticker goes, the others stay in order, and a list without duplicates stays so |
| Settings.SettingsForm.constructor | components/Settings.tsx:13-14 | the form starts from the given configuration with an empty input |
| Settings.SettingsForm.HandleChange | components/Settings.tsx:31-33 | the configuration gets the change to any of its fields, including the `initialCapital` the capital input writes; the input is untouched |
| Settings.SettingsForm.AddTicker | components/Settings.tsx:35-41 | the watchlist gets the ticker if it is added, and the input is cleared only when it was added |
| Settings.SettingsForm.RemoveTicker | components/Settings.tsx:43-46 | the watchlist loses the ticker; nothing else changes |
| Text.Lower | components/Signals.tsx:29-33 | `toLowerCase` maps A–Z to a–z and keeps every other character, at the same length |
| Text.Upper | components/Settings.tsx:36 | `toUpperCase` maps a–z to A–Z and keeps every other character, at the same length |
| Text.UpperIdempotent | components/Settings.tsx:36-37 | upper-casing twice is upper-casing once |
| Text.ContainsAt | components/Signals.tsx:30 | `includes` holds iff the needle occurs at some position |
| Text.JoinSplit | components/TradeHistory.tsx:93-94 | joining the pieces of `split` gives the string back, and no piece holds the separator |
| Text.BeforeFirstSpec | components/CandleChart.tsx:84 | `split(sep)[0]` is a prefix without the separator, shorter than the string iff the separator occurs, where it is followed by the separator |
| Text.SecondPiece | components/TradeHistory.tsx:94 | `split('T')[1]` exists exactly when the string holds a 'T' |
| Text.SecondPieceAfterFirst | components/TradeHistory.tsx:94 | `split(sep)[1]` is the first piece of the text after the first separator |
| Text.NatToStringRoundTrip | services/marketService.ts:128 | reading back a number's decimal digits gives the number |
| Text.NatToStringInjective | src/api/backendApi.ts:23 | distinct indices give distinct "ord-i" suffixes |
| Seqs.Take | components/CorrelationMatrix.tsx:11 | `slice(0, n)` is the first min(n, length) elements |
| Expansion.ToggleSpec | components/Signals.tsx:21-27 | a click on the open row closes it; another row opens on the chart tab; two clicks from closed return to closed |
| SignalsView.FilteredSignalsSpec | components/Signals.tsx:29-33 | a signal is kept iff the lower-cased search occurs in its lower-cased ticker, name or sector. The result is an order-preserving subsequence, and an empty search keeps all |
| SignalsView.SignalsPanel.constructor | components/Signals.tsx:16-17 | no row is expanded and the tab is CHART |
| SignalsView.SignalsPanel.ToggleDetails | components/Signals.tsx:21-27 | the expanded ticker toggles, and opening a row resets the tab to CHART |
| SignalsView.SentimentBarSpec | components/Signals.tsx:269-271 | the bar maps impact −10..10 onto 0..100, monotonically, and equals the score's sentiment component |
| SignalsView.InsiderBar | components/Signals.tsx:276 | the insider bar width is never negative, and it is the raw `insider · 10 + 50` or 0 |
| Intelligence.FilteredNewsSpec | components/Intelligence.tsx:21-30 | an item is kept iff the lower-cased query occurs in its title, summary or source, or in its related ticker or author when present. Missing fields never match. The result keeps order, and an empty query keeps all |
| Intelligence.GetIconSpec | components/Intelligence.tsx:32-42 | the six known channel types have their own distinct icons; every other type gets the link icon |
| Intelligence.ChannelLabelSpec | components/Intelligence.tsx:102 | the label is the prefix of the name before its first '(' (the whole name when there is none) |
| MarketWatch.FilteredSpec | src/features/dashboard/components/MarketWatch.tsx:22-25 | a signal is kept iff the lower-cased search occurs in its lower-cased name or id. The sector is never searched. The order is kept, and an empty search keeps all |
| MarketWatch.MarketWatchPanel.constructor | src/features/dashboard/components/MarketWatch.tsx:17-20 | table view, nothing expanded, CHART tab, empty search |
| MarketWatch.MarketWatchPanel.ToggleExpand | src/features/dashboard/components/MarketWatch.tsx:27-33 | the expanded id toggles, opening resets the tab to CHART, and view mode and search are kept |
| MarketWatch.MarketWatchPanel.SelectTab | src/features/dashboard/components/MarketWatch.tsx:19 | only the tab changes |
| MarketWatch.MarketWatchPanel.SetSearch | src/features/dashboard/components/MarketWatch.tsx:42-43 | only the search text changes |
| MarketWatch.MarketWatchPanel.SetViewMode | src/features/dashboard/components/MarketWatch.tsx:46-49 | only the view mode changes |
| MarketWatch.TrendColourSpec | src/features/dashboard/components/MarketWatch.tsx:84 | the trend bar is green iff the score is present and above 50; a missing score shows red |
| MarketWatch.DirectionColourSpec | src/features/dashboard/components/MarketWatch.tsx:94-95 | LONG, SHORT and HOLD badges have three distinct colours |
| TradeHistory.WinRate | components/TradeHistory.tsx:23-24 | the win rate lies in [0,100]. It is 0 for no trades or no winners, and 100 exactly when every trade wins |
| TradeHistory.TotalsSplit | components/TradeHistory.tsx:25-26 | the fee and net-PnL totals of two lists of trades add up |
| TradeHistory.TotalsOfOne | components/TradeHistory.tsx:25-26 | the totals of one trade are its fee and its net PnL |
| TradeHistory.TotalFeesBounds | components/TradeHistory.tsx:25 | with non-negative fees the total is non-negative and at least every single fee |
| TradeHistory.TradeLog.constructor | components/TradeHistory.tsx:12 | no row is expanded |
| TradeHistory.TradeLog.ToggleExpand | components/TradeHistory.tsx:14-20 | the expanded id toggles |
| TradeHistory.TimeColumnsSpec | components/TradeHistory.tsx:93-94 | the date column is the entry time before its first 'T'. Without a 'T' it is the whole string and there is no time column |
| TradeHistory.TimeColumn | components/TradeHistory.tsx:94 | the time column exists exactly when the entry time holds a 'T'; it is then the first 5 characters of the text between the first 'T' and the next one |
| TradeHistory.ExitColumn | components/TradeHistory.tsx:109 | an exit price is shown exactly when it is present and not 0 |
| TradeHistory.NetPnlColumnSpec | components/TradeHistory.tsx:111-117 | net PnL is shown only for CLOSED trades: green iff not negative, with a '+' only when positive |
| TradeHistory.DurationOf | components/TradeHistory.tsx:198-200 | a duration in minutes exists exactly when an exit time is set; otherwise "Active" |
| TradeHistory.DurationSpec | components/TradeHistory.tsx:198-200 | the minutes are the rounded span in milliseconds / 60000, and non-negative when exit follows entry |
| BacktestView.EquityOr | components/Backtest.tsx:11-12 | the equity used is a point's non-zero equity, or 100000 without that point, and is never 0 |
| BacktestView.TotalReturnSpec | components/Backtest.tsx:11-13 | start equity is never 0. Fewer than two points give return 0. With positive start the return is positive iff end exceeds start. return · start = (end − start) · 100 |
| BacktestView.MaxDrawdown | components/Backtest.tsx:14 | `Math.min` over no points is +∞; otherwise it is a drawdown of some point and at most every point's drawdown |
| BacktestView.MaxDrawdownNonPositive | components/Backtest.tsx:14 | when every drawdown is ≤ 0, so is the maximum drawdown |
| BacktestView.Summarize | components/Backtest.tsx:9-37 | the Sharpe ratio shown is 1.82 and the win rate 58.4, independent of the data |
| BacktestView.SummaryDependsOnEndsAndDrawdowns | components/Backtest.tsx:11-17 | two series with equal end points and minimum drawdown have equal summaries |
| Correlation.GetCorrelationSpec | components/CorrelationMatrix.tsx:13-20 | the correlation is symmetric. It is 1 exactly for equal tickers, else 0.85 within a sector, else 0.65 when either sector is "Index", else 0.25, and always one of those four values |
| Correlation.GetColourSpec | components/CorrelationMatrix.tsx:22-27 | exactly 1 is slate; rose iff above 0.7 and not 1; amber iff in (0.4, 0.7]; emerald iff ≤ 0.4 |
| Correlation.ColourOfLevels | components/CorrelationMatrix.tsx:13-27 | each correlation level has its own colour: slate for equal tickers, rose 0.85, amber 0.65, emerald 0.25 |
| Correlation.MatrixSpec | components/CorrelationMatrix.tsx:11-53 | the grid covers the first min(6, n) signals, is square and symmetric with a diagonal of 1, and cell (i, j) is the correlation of signals i and j |
| CandleChart.TradingViewSymbolSpec | components/CandleChart.tsx:81-89 | a listed ticker gets its table entry. Otherwise the rules run in order: ".DE" gives XETRA, ".L" gives LSE, ".PA" gives EURONEXT, each with the stem before the first '.'. Anything else gives "NASDAQ:" plus the ticker |
| CandleChart.HeuristicStem | components/CandleChart.tsx:84-86 | the suffix rules keep a strict prefix of the ticker without '.' |
| CandleChart.HeuristicHasExchange | components/CandleChart.tsx:84-89 | every symbol from the suffix rules holds ':' |
| CandleChart.TableExamples | components/CandleChart.tsx:25-33 | the table maps RR.L to "LSE:RR.", IOS to "XETRA:IOS" and BAVA.CO to "OMXCOP:BAVA" |
| CandleChart.SubstringRuleExample | components/CandleChart.tsx:85 | the ".L" rule is a substring test: "ABC.LA" goes to "LSE:ABC" |
| SharedCandleChart.TradingViewSymbolSpec | src/shared/components/CandleChart.tsx:11-16 | the symbol starts with XETRA: iff the input holds ".DE", with LSE: iff it holds ".L" but not ".DE", and with NASDAQ: otherwise. It agrees with the first dashboard's rules except that a Paris ticker goes to NASDAQ unchanged |
| Grouping.PlaceSpec | components/MarketHeatmap.tsx:17-25 | pushing a leaf creates its group only when the name is new, appends the leaf to that group alone, and adds one leaf |
| Grouping.GroupAllSpec | components/MarketHeatmap.tsx:14-28 | group names are distinct and are exactly the keys that occur, in order of first appearance (`FirstOccurrences` of the keys). Each group holds its items' leaves in input order, and the leaves number the items |
| Grouping.LeafInItsGroup | components/MarketHeatmap.tsx:20-25 | every item's leaf is among its key's leaves |
| Grouping.BuildGroups | components/MarketHeatmap.tsx:16-26 | the `forEach` over a dictionary of groups builds exactly the specified grouping |
| Heatmap.BuildTreeData | components/MarketHeatmap.tsx:13-29 | the loop builds the specified tree |
| Heatmap.TreeDataSpec | components/MarketHeatmap.tsx:14-28 | one group per sector, in order of first appearance. Each signal's tile sits in its sector's group, and the tiles number the signals |
| Heatmap.IntensitySpec | components/MarketHeatmap.tsx:36-41 | intensity is min(\|change\|/3, 1) in [0,1], symmetric and monotone in \|change\|, and 1 exactly from 3%. Opacity lies in [0.3, 1]. A zero change is drawn up at opacity 0.3 |
| SharedHeatmap.NumberOr | src/shared/components/MarketHeatmap.tsx:18-19 | `x \|\| d` keeps a present non-zero number and otherwise gives d |
| SharedHeatmap.BuildTreeData | src/shared/components/MarketHeatmap.tsx:11-23 | the loop builds the specified tree |
| SharedHeatmap.TreeDataSpec | src/shared/components/MarketHeatmap.tsx:13-21 | one group per sector, in order of first appearance, with missing or empty sectors under "Other", and no group has an empty name. Each signal's tile sits in its group, and the tiles number the signals |
| SharedHeatmap.TileSpec | src/shared/components/MarketHeatmap.tsx:18-28 | a tile's size is never 0. A tile is green iff the trend score is missing, 0 or ≥ 50, so a zero score is drawn green and neutral |
| PipelineMonitor.IndexOf | components/PipelineMonitor.tsx:24-25 | `indexOf` is −1 exactly for an absent stage; otherwise it is the first position holding it |
| PipelineMonitor.IndexOfDistinct | components/PipelineMonitor.tsx:24-25 | in a list without repeats each element is found at its own position |
| PipelineMonitor.StagesOrderDistinct | components/PipelineMonitor.tsx:23 | the stage order has no repeats and ends with DONE after the seven listed stages |
| PipelineMonitor.GetStageIconSpec | components/PipelineMonitor.tsx:22-33 | at DONE every stage is complete, and the DONE step is complete exactly at DONE. For a listed current stage, earlier ones are complete, it is active and later ones pending. An unknown or ERROR stage shows all pending, never the error icon |
| PipelineMonitor.StageIcons | components/PipelineMonitor.tsx:65 | the list shows one icon per listed stage, in order |
| PipelineMonitor.StageIconsProgress | components/PipelineMonitor.tsx:30-32 | while a listed stage runs, exactly that stage is active and every complete stage precedes it |
| PipelineMonitor.GetFileIconSpec | components/PipelineMonitor.tsx:35-42 | DB, REPORT and FILE have distinct icons; every other type gets the default |
| Tally.AddSpec | src/features/risk/components/SectorExposureChart.tsx:22 | `acc[key] = (acc[key] ?? 0) + w` adds w to that key alone, creates the key at the end only when new, and raises the total by w |
| Tally.FoldSpec | src/features/risk/components/SectorExposureChart.tsx:19-26 | the reduce yields distinct keys, exactly the keys that occur, each holding its items' sum; the total is the sum of all items |
| Tally.KeysSpec | src/features/shipping/components/ShippingStressChart.tsx:20-24 | a key is visited iff some item lists it; none are visited iff every list is empty |
| Tally.CountKeys | src/features/shipping/components/ShippingStressChart.tsx:20-28 | the reduce with its inner loop computes the counts of all listed keys |
| Tally.CountInto | src/features/shipping/components/ShippingStressChart.tsx:22-24 | the inner loop adds one per key to the counts |
| Tally.OnesSums | src/features/shipping/components/ShippingStressChart.tsx:20-28 | counting ones gives each key its multiplicity and the total its number of keys |
| Tally.CountsSpec | src/features/shipping/components/ShippingStressChart.tsx:20-28 | the counts have distinct keys, exactly those listed, each its multiplicity (≥ 1), and they add up to the number of mentions |
| Tally.FilteredCountsSpec | src/features/congress/components/CongressSectorFlowChart.tsx:10-16 | counting over a filtered list lists exactly the keys of passing items, each ≥ 1, and is empty iff every passing item lists none |
| SectorExposure.WeightItems | src/features/risk/components/SectorExposureChart.tsx:21-22 | one (sector, weight) item per position |
| SectorExposure.SectorWeights | src/features/risk/components/SectorExposureChart.tsx:19-26 | the reduce computes the specified sector weights |
| SectorExposure.WeightItemsSum | src/features/risk/components/SectorExposureChart.tsx:19-26 | the items' weights add up to the positions' weights |
| SectorExposure.SectorWeightsSpec | src/features/risk/components/SectorExposureChart.tsx:19-26 | each sector appears once with the sum of its positions' weights. A missing sector counts as "Other". The sector weights add up to the total weight, and no positions give no sectors |
| SectorExposure.Data | src/features/risk/components/SectorExposureChart.tsx:28-31 | one bar per sector entry |
| SectorExposure.DataSpec | src/features/risk/components/SectorExposureChart.tsx:28-36 | each bar is 100 times its sector's summed weight, bars name distinct sectors, and the chart is empty ("Keine Positionen.") iff there are no positions |
| ExposureSummary.RowsOf | src/features/dashboard/components/ExposureSummary.tsx:20-25 | one row per sector entry |
| ExposureSummary.Render | src/features/dashboard/components/ExposureSummary.tsx:11-25 | the rows are those of the summed sector weights, and "Keine Positionen." shows iff there are no positions |
| ExposureSummary.RowsSpec | src/features/dashboard/components/ExposureSummary.tsx:11-25 | each row carries its sector's summed weight and rows name distinct sectors; the list agrees sector by sector with the risk page's bars |
| ShippingChart.RouteCounts | src/features/shipping/components/ShippingStressChart.tsx:18-28 | the filter and reduce compute the counts of the shipping events' routes |
| ShippingChart.Data | src/features/shipping/components/ShippingStressChart.tsx:30-33 | one bar per counted route |
| ShippingChart.RouteCountsSpec | src/features/shipping/components/ShippingStressChart.tsx:18-33 | each route's count is its number of mentions across shipping events (≥ 1), the bars name distinct routes, and the counts add up to the mentions |
| ShippingChart.RoutesShownSpec | src/features/shipping/components/ShippingStressChart.tsx:18-38 | a route gets a bar iff some shipping event names it, and "Keine Shipping-Events." shows iff no shipping event names a route |
| CongressChart.SectorCounts | src/features/congress/components/CongressSectorFlowChart.tsx:10-16 | the filter and reduce compute the counts of the congressional trades' sectors |
| CongressChart.Lines | src/features/congress/components/CongressSectorFlowChart.tsx:21-25 | one line per counted sector |
| CongressChart.SectorCountsSpec | src/features/congress/components/CongressSectorFlowChart.tsx:10-25 | each sector's count is its number of mentions across congressional trades (≥ 1), the lines name distinct sectors, and the counts add up to the mentions |
| CongressChart.SectorsListedSpec | src/features/congress/components/CongressSectorFlowChart.tsx:10-20 | a sector is listed iff some congressional trade names it, and "Keine Daten." shows iff no trade names a sector |
| QaPanel.StatusColourSpec | src/features/qa/components/QaPanel.tsx:11-30 | green iff trading is allowed, data is fine and both checks are OK; red iff not green and a check blocks; yellow otherwise; any BLOCK rules out green; the label is "JA" iff trading is allowed |
| Toasts.WithoutSpec | src/shared/toast/ToastProvider.tsx:49-51 | dismissal drops every toast with the id and keeps the rest in order; an unknown id changes nothing; dismissing twice is dismissing once |
| Toasts.ShowThenDismiss | src/shared/toast/ToastProvider.tsx:40-51 | dismissing a freshly shown toast restores the list before it was shown |
| Toasts.ToastProvider.constructor | src/shared/toast/ToastProvider.tsx:38 | the list starts empty |
| Toasts.ToastProvider.ShowToast | src/shared/toast/ToastProvider.tsx:40-42 | exactly one toast is appended, with the new id, the message and the type, which defaults to info |
| Toasts.ToastProvider.DismissToast | src/shared/toast/ToastProvider.tsx:49-51 | the list loses every toast with the id |
| Toasts.ToastProvider.AutoDismiss | src/shared/toast/ToastProvider.tsx:44-46 | the timer performs the same removal as a dismissal |
| Sidebar.BuildLinks | src/layout/Sidebar.tsx:10-25 | the first five links are dashboard, orders, risk, qa and events. Congress is present iff its flag is on, and shipping iff its flag is on, after congress when both are. The count is 5 plus the flags on, and paths are distinct |
| Sidebar.DistinctPaths | src/layout/Sidebar.tsx:11-23 | the base links followed by distinct optional links have distinct paths |

## Left out

- Rendering, styling, recharts layout and the TradingView script injection are user interface. Only the functions they call are modelled.
- The WebSocket connection and its message handler are not modelled. The socket is a boolean "open" flag, and messages sent are a list. The tick callback is left out.
- All `fetch` calls, the Gemini client, the screenshot upload and the HTTP client are left out. A fetch outcome is an input: a failure, a rate-limit payload, or a payload with or without a series.
- The IndexedDB open, upgrade and transactions are left out. The store is a map, and its metadata store (cleared alongside) holds nothing the code reads.
- Timers are left out: the 15 s throttle, the 4 s toast timer, polling and pipeline delays. Only their ordering is modelled, so `AutoDismiss` is the timer's effect, not its timing.
- The distributions of `Math.random()` are not modelled. Draws are parameters, and "valid" draws lie in [0,1).
- Date arithmetic, ISO strings and `toLocaleString`/`toFixed`/Intl formatting are not modelled. Days and milliseconds are integers, and the parsing of a date string is a parameter.
- `Math.sqrt` is a parameter constrained by `IsSquareRoot`, as are exp and π in the risk gauge, which is not part of this model.
- NaN and ±Infinity are not modelled, except `Math.min()` of nothing in `BacktestView.MaxDrawdown` and the division in the finding below.
- MathService.DroppedRow / MathService.Optimized: a liquidation row's current weight uses the corrected rule of the finding below. For capital ≤ 0 it is 0, where the source gives ±Infinity (capital 0; the numerator is never 0) or a negated quotient (negative capital).
- MarketService.GenerateDeepBacktestData: the default arguments `years = 10` and `initialCapital = 100000` are not modelled; callers pass both. `years` is a `nat`, so a fractional `years` is not modelled. In the source it gives ⌈years · 252⌉ days and a start date moved back by a fractional day count.
- MarketService.WithDrawdowns: a running peak of 0, possible only with an initial capital ≤ 0, makes the source's drawdown NaN or −Infinity. The model records 0 there (`MarketService.Drawdown`).
- Settings.SettingsForm.HandleChange: `parseFloat` of the capital and volatility inputs can give NaN. The model takes the parsed real as given.
- Case mapping covers ASCII letters only. JavaScript's full Unicode case mapping is not modelled.
- `BackendApi.EncodeURIComponent` encodes code points as UTF-8. Lone surrogates, which make `encodeURIComponent` throw, are not modelled.
- A record lookup such as `map[ticker]` or `APPROX_PRICES[ticker]` is a Dafny map lookup. Inherited prototype keys such as "constructor", which JavaScript would find, are not modelled.
- `Object.entries`/`Object.values` list integer-like keys first in JavaScript. The model keeps pure insertion order.
- `createId` is a parameter, and id collisions between toasts are not modelled.
- `LegacyBackend`: a seeded order's name and sector come from the watchlist `find`; the clock is read once for all three ids.
- `LegacyBackend.OrderDesk.ApproveOrder`: the source mutates the order object in place, and any earlier copy handed out by `getOrderPreviews` shares it. The model copies the order with the new status, so that aliasing is not modelled.
- `BackendApi.GetSignals`: the preceding `fetchQuotes` call never changes the cached state, so it is left out.
- `MathService.HigherVolatilityNeverLowersRisk`: the monotonicity is proved; a numeric VaR bound for a concrete scenario is not stated, because it needs nonlinear reasoning about the square root.
- `CandleChart.HeuristicHasExchange`: the ':' claim is proved for the suffix rules only. Checking that every one of the 51 table entries also holds ':' is beyond what the verifier can do for a map display that size; the three table examples are proved.
- `TradeHistory.TimeColumn`: without a 'T', `split('T')[1]` is undefined and the source throws. The model returns `None` there.
- TradeExecution's fields are inferred from how the trade log reads them, because the type declaration is not part of this model.
- The trade record's status is OPEN or CLOSED. Any other status string is not modelled.
- The heatmap label's height test (`height > 30`) of the first dashboard is modelled. recharts' assignment of `depth` is not.
- services/pipelineService.ts, the fetch-and-set pages and hooks, and the mock data tables are plumbing with no decisions worth proving. They are not part of this model.

## Findings

| source | as written | input that shows it | evidently intended | confidence | as-written member | corrected member |
|---|---|---|---|---|---|---|
| services/mathService.ts:150 | a liquidation row's current weight divides by `totalCapital` with no guard, unlike the investable rows (line 113) | a signal priced 50, no longer investable, with 10 shares held, beside one investable signal: with capital 0 its weight is Infinity (`DroppedWeightAsWrittenInfinite`); with capital −1000 it is −0.5 (`DroppedWeightAsWrittenNegative`) | weight 0 when capital is not positive, as line 113 does | not executed | MathService.DroppedWeightAsWrittenInfinite | MathService.DroppedWeightCorrected |
