# Funding-rate and spot arbitrage calculators, modelled in Dafny

This project models the calculating core of a crypto arbitrage service. The
service has three parts:

- **Futures funding arbitrage.** `FuturesManager` asks each configured
  perpetual-futures venue (Binance, Bybit, Hyperliquid, Lighter) for one
  symbol's funding snapshot and merges the answers. `FundingArbitrageService`
  prices a long/short pair of venues. It ranks every unordered pair of venues
  for one symbol by estimated APR, and merges and re-ranks the results of
  several symbols.
- **Stand-alone funding scanner.** The scanner's `ArbitrageCalculator`
  normalises symbols and groups the venues' rates by symbol. For each group it
  goes long the lowest rate and short the highest, above an APR threshold.
- **Spot arbitrage.** The Binance/Upbit calculator finds the better of the two
  round trips in KRW. The multi-exchange calculator prices both directions of
  every pair of venues in USD. The websocket loop collects one cycle of
  Binance/Upbit opportunities, nets each premium against the cycle's average,
  sorts them and broadcasts them to the connected sockets.

Modules, one per source file:

| module | models |
|---|---|
| `FundingModels` | the pydantic records |
| `Futures` | `futures_manager.py` |
| `FundingService` | `services/funding_arbitrage.py` |
| `Lighter` | the Lighter client's own logic |
| `Scanner` | the root `funding_arbitrage.py` calculator |
| `Tickers` | the ticker and fee records |
| `Upbit` | the Upbit wrapper |
| `SpotArbitrage` | `services/arbitrage.py` |
| `MultiArbitrage` | `services/multi_arbitrage.py` |
| `Websocket` | `websocket.py` |

Three shared modules support them:

- `Common`: `Option`, `Outcome` for a call that may raise, Python string
  helpers, and dicts as association lists in insertion order.
- `Sorting`: Python's stable `sort(key=..., reverse=True)`, proved sorted,
  a permutation and stable.
- `Combinations`: the order of `itertools.combinations(..., 2)`.

Python dicts whose order matters become association lists. The snapshot maps,
the scanner's symbol groups, the client map and Upbit's ticker dict have
distinct keys; the model proves it, or takes it as a hypothesis where a
property depends on it. The multi-exchange
calculator's tickers and fees dicts are plain lists (`MultiArbitrage.TickerMap`
and `FeeMap`). Its results are proved for every such list, a list naming a
venue twice included, so they hold for a dict in particular. The iteration
order decides the pair order and the ties of the stable sorts.

Loops in the source are methods with loop invariants. Each method is proved
equal to a function, and the properties are proved about that function:

- `FuturesManager`, `ConnectionManager` and the two spot calculators are
  classes.
- Their mutable fields (the client map, the socket set, the exchange rate)
  are fields that the methods reassign.

Network calls, clocks and exchange replies are parameters of the model:

- `fetch` functions give each venue's answer, an exception included.
- `delivers` says whether a socket's send succeeds.
- `now` stands for `datetime.now()`.

## Model

| member | source | states |
|---|---|---|
| Futures.FundingInterval | backend/app/exchanges/futures_manager.py:19-24 | Binance and Bybit fund every 8 hours; Hyperliquid and Lighter every hour |
| Futures.FetchRate | backend/app/exchanges/futures_manager.py:97-104 | a venue whose fetch raises contributes `None`; otherwise its own answer |
| Futures.Merged | backend/app/exchanges/futures_manager.py:107-112 | the merged map has at most one entry per venue, and each entry is a configured venue with the record its own fetch returned |
| Futures.MergeResult | backend/app/exchanges/futures_manager.py:107-112 | one pass of the merge loop extends the merge of the earlier venues to the next venue |
| Futures.MergedCharacterised | backend/app/exchanges/futures_manager.py:90-114 | the merged map has no venue twice; it holds exactly the configured venues whose fetch gave a record, each with its own record; it is never larger than the client map |
| Futures.MergeIsolation | backend/app/exchanges/futures_manager.py:97-112 | a venue's entry depends only on its own fetch: another venue's failure does not disturb it |
| Futures.Entry | backend/app/exchanges/futures_manager.py:39-66 | a venue whose client was built adds exactly one entry, under its own key and with a client of its kind; a failed constructor adds none |
| Futures.AddEntry | backend/app/exchanges/futures_manager.py:39-66 | storing a new venue's client in the dict appends exactly that venue's entry |
| Futures.InitializeBuilds | backend/app/exchanges/futures_manager.py:36-66 | the three guarded stores into an empty dict give the Binance, Bybit, Hyperliquid clients in that order |
| Futures.BuiltKeys | backend/app/exchanges/futures_manager.py:39-66 | the client map's keys are the venues whose constructor succeeded, in the order Binance, Bybit, Hyperliquid |
| Futures.BuiltVenues | backend/app/exchanges/futures_manager.py:39-73 | Lighter is never configured; each other venue is present if and only if its client was built |
| Futures.BuiltDistinct | backend/app/exchanges/futures_manager.py:36-66 | the client map has no venue twice |
| Futures.BuiltKinds | backend/app/exchanges/futures_manager.py:39-66 | each venue is served by a client of its own kind |
| Futures.FuturesManager.constructor | backend/app/exchanges/futures_manager.py:26-29 | a new manager has no clients and is not initialised |
| Futures.FuturesManager.Initialize | backend/app/exchanges/futures_manager.py:31-76 | the first call builds exactly the clients that could be constructed and sets the flag; a later call changes nothing; the map stays a dict |
| Futures.FuturesManager.GetFundingRate | backend/app/exchanges/futures_manager.py:78-88 | an unconfigured venue gives `None` without fetching; a configured one gives its client's outcome, a raise included |
| Futures.FuturesManager.GetAllFundingRates | backend/app/exchanges/futures_manager.py:90-114 | the result is the merge of every configured venue's fetch, in configuration order |
| Futures.FuturesManager.ExchangeInfoList | backend/app/exchanges/futures_manager.py:124-133 | one entry per configured venue, in order, with its id, name and funding interval |
| FundingService.FundingsPerDay | backend/app/services/funding_arbitrage.py:62 | a non-positive interval counts as 3 fundings a day |
| FundingService.FundingsPerDayFloor | backend/app/services/funding_arbitrage.py:62 | for a positive interval the count is the number of whole intervals in 24 hours |
| FundingService.FundingCount | backend/app/services/funding_arbitrage.py:65 | the number of whole short-leg intervals (8 hours for a non-positive one) in the holding period |
| FundingService.RequiredMargin | backend/app/services/funding_arbitrage.py:44 | the margin times the leverage covers both legs: twice the position |
| FundingService.ProfitPercent | backend/app/services/funding_arbitrage.py:74 | profit as a percent of a positive margin, 0 otherwise |
| FundingService.SpreadApr | backend/app/services/funding_arbitrage.py:77 | the APR is non-negative: the absolute native spread annualised on the short leg's fundings per day |
| FundingService.PriceSpreadPercent | backend/app/services/funding_arbitrage.py:80-82 | the price gap as a percent of the smaller mark price when both are positive; of the positive one when only one is; 0 when neither is; never negative |
| FundingService.CalculateArbitrage | backend/app/services/funding_arbitrage.py:24-104 | a zero leverage raises; otherwise the short leg receives and the long leg pays, the short leg's interval sets the fundings, and the request and legs are echoed |
| FundingService.HourlyRate | backend/app/services/funding_arbitrage.py:166-174 | a rate per hour of a positive interval; the raw rate otherwise |
| FundingService.HourlySpreadSameInterval | backend/app/services/funding_arbitrage.py:166-174 | with equal positive intervals the hourly spread is the native spread per hour |
| FundingService.KeptAt | backend/app/services/funding_arbitrage.py:134-193 | each pair of venues contributes exactly its kept orientation |
| FundingService.Ranked | backend/app/services/funding_arbitrage.py:199-200 | ranks 1..n in list order, nothing else changed |
| FundingService.AssignRanks | backend/app/services/funding_arbitrage.py:199-200 | the loop writes rank i+1 at position i and changes nothing else |
| FundingService.EvaluatePair | backend/app/services/funding_arbitrage.py:136-193 | a pair raises exactly when the leverage is zero; otherwise it gives the pair's kept opportunity |
| FundingService.AppendCandidate | backend/app/services/funding_arbitrage.py:134-193 | one pass of the pair loop appends the next pair's candidate in combinations order, or raises on a zero leverage |
| FundingService.PairRow | backend/app/services/funding_arbitrage.py:134-193 | the pairs of one first venue with every later venue, in order; a raise exactly when such a pair exists and the leverage is zero |
| FundingService.AllPairs | backend/app/services/funding_arbitrage.py:134-193 | for two or more venues, the candidates of all pairs in combinations order; a raise exactly on a zero leverage |
| FundingService.FindTopOpportunities | backend/app/services/funding_arbitrage.py:106-202 | the method computes `TopOpportunities`: under two venues give nothing, else the candidates sorted by APR and ranked |
| FundingService.FindAllOpportunities | backend/app/services/funding_arbitrage.py:204-245 | the method computes `AllOpportunities`: every symbol's contribution, a raising symbol skipped, then sorted, cut at the limit and re-ranked |
| FundingService.ScaledCompare | backend/app/services/funding_arbitrage.py:77 | equal scalings of two values compare like the values exactly when the common factor is positive |
| FundingService.FirstOrientationWins | backend/app/services/funding_arbitrage.py:136-161 | (long e1, short e2) has the strictly larger APR exactly when the rates differ and e2 funds more often per day |
| FundingService.OrientationRule | backend/app/services/funding_arbitrage.py:136-193 | the kept orientation is long on the first venue only when the spread is non-zero and the second venue funds more often; its APR is the larger of the two orientations and non-negative; the spread is short minus long |
| FundingService.PairLegs | backend/app/services/funding_arbitrage.py:134-193 | the kept opportunity's legs are the pair's two venues, one on each side |
| FundingService.PairOpportunity | backend/app/services/funding_arbitrage.py:136-193 | a kept pair is stamped now, unranked, for the symbol, with a spread of short less long and a non-negative APR |
| FundingService.CandidatesCount | backend/app/services/funding_arbitrage.py:134-158 | n venues give n(n-1)/2 candidates |
| FundingService.CandidatesAreKeptPairs | backend/app/services/funding_arbitrage.py:134-193 | every candidate is the kept orientation of some pair a < b |
| FundingService.CandidatesContainPairs | backend/app/services/funding_arbitrage.py:134-193 | every pair a < b has its candidate in the list |
| FundingService.CandidateLegsDiffer | backend/app/services/funding_arbitrage.py:134-193 | with distinct venue keys, no candidate goes long and short on the same venue |
| FundingService.RankedKeepsOrder | backend/app/services/funding_arbitrage.py:196-200 | ranking a sorted list keeps it sorted by APR |
| FundingService.TopOpportunitiesShape | backend/app/services/funding_arbitrage.py:106-202 | under two venues give none; a raise exactly on two or more venues and zero leverage; otherwise n(n-1)/2 results: the candidates of every pair, reordered by a permutation, sorted by APR and ranked 1..n |
| FundingService.TopOpportunities | backend/app/services/funding_arbitrage.py:106-202 | under two venues give an empty list; a raise exactly on two or more venues and zero leverage; the returned list is ranked 1..n |
| FundingService.ContributionRule | backend/app/services/funding_arbitrage.py:221-236 | a raising symbol adds nothing; with one-per-symbol a symbol adds at most its best opportunity |
| FundingService.CollectedFromSymbols | backend/app/services/funding_arbitrage.py:221-236 | everything merged comes from some symbol's contribution; with one-per-symbol there is at most one entry per symbol |
| FundingService.MergedOrder | backend/app/services/funding_arbitrage.py:239-245 | the merged list has the length of Python's slice `[:limit]` (a negative limit counts from the end), is sorted by APR and is ranked 1..n |
| FundingService.MergedMembers | backend/app/services/funding_arbitrage.py:239-245 | every merged entry is a collected entry with its new rank; the first has the largest APR of all collected |
| FundingService.AllOpportunitiesShape | backend/app/services/funding_arbitrage.py:204-245 | the final list is cut at the limit, sorted by APR, ranked 1..n, made of collected entries re-ranked, and headed by the largest APR; it is the first `limit` entries of an APR-sorted permutation of the collected list, so no dropped entry outranks a kept one |
| FundingService.AllOpportunities | backend/app/services/funding_arbitrage.py:204-245 | the list is the collected opportunities cut at the limit, ranked 1..n |
| Lighter.UpperOfLower | backend/app/exchanges/lighter.py:39-45 | upper-casing undoes lower-casing on text without lower-case letters |
| Lighter.ConvertSymbol | backend/app/exchanges/lighter.py:31-37 | the result ends in `_usdt`; its base is the symbol up to its first `/`, lower-cased, with no `/` and no upper-case letter |
| Lighter.ToCcxtSymbol | backend/app/exchanges/lighter.py:39-45 | the result ends in `/USDT:USDT`; its base is the symbol up to its first `_`, upper-cased, with no `_` and no lower-case letter |
| Lighter.LowerOfUpper | backend/app/exchanges/lighter.py:31-37 | lower-casing undoes upper-casing on text without upper-case letters |
| Lighter.CaseKeepsSeparator | backend/app/exchanges/lighter.py:31-45 | case mapping neither creates nor removes a separator |
| Lighter.CcxtRoundTrip | backend/app/exchanges/lighter.py:31-45 | a CCXT perpetual symbol with an upper-case base survives the trip through Lighter's format |
| Lighter.LighterRoundTrip | backend/app/exchanges/lighter.py:31-45 | a Lighter symbol with a lower-case base survives the trip through the CCXT format |
| Lighter.Float | backend/app/exchanges/lighter.py:65-67 | `float` keeps a number, and raises on null, a list or a dict |
| Lighter.FieldSnakeWins | backend/app/exchanges/lighter.py:65-67 | a truthy snake_case value decides the field whatever the camelCase key holds |
| Lighter.Field | backend/app/exchanges/lighter.py:65-67 | a truthy snake_case value is parsed as the field; reading raises only when one of the two keys holds a truthy value |
| Lighter.FieldFalsyFallsThrough | backend/app/exchanges/lighter.py:65-67 | a falsy or missing snake_case value defers to the camelCase key |
| Lighter.FieldDefaultsToZero | backend/app/exchanges/lighter.py:65-67 | neither key truthy reads as 0 |
| Lighter.MissingIsFalsy | backend/app/exchanges/lighter.py:65-67 | a missing key reads as falsy |
| Lighter.SymbolText | backend/app/exchanges/lighter.py:62-64 | a market that is not a dict raises when read |
| Lighter.Record | backend/app/exchanges/lighter.py:69-78 | a record is for Lighter, hourly, without a next funding time, with the market's three numbers |
| Lighter.SearchFirstMatch | backend/app/exchanges/lighter.py:60-80 | the first market whose symbol matches, with or without its underscore, decides the answer |
| Lighter.Search | backend/app/exchanges/lighter.py:60-80 | no markets give `None`; a found record is Lighter's, hourly, for the requested symbol, stamped now |
| Lighter.SearchNoMatch | backend/app/exchanges/lighter.py:60-80 | when no market matches, the answer is `None` |
| Lighter.SearchFound | backend/app/exchanges/lighter.py:60-80 | a found record is for the requested symbol, hourly, from Lighter, and carries the numbers of a matching market |
| Lighter.FetchFundingRate | backend/app/exchanges/lighter.py:47-86 | the scan computes `FundingRateFor`: the first match over the markets, with `None` for a failed reply |
| Lighter.FundingRateFor | backend/app/exchanges/lighter.py:47-86 | a failed reply gives `None`; a found record is Lighter's, hourly, for the requested symbol |
| Lighter.MarketRecord | backend/app/exchanges/lighter.py:104-124 | a market gives a record exactly when its symbol and numbers read; the record carries the CCXT symbol |
| Lighter.AllRecordsAppend | backend/app/exchanges/lighter.py:102-124 | a skipped market does not disturb the others: the records of a joined list are the records of its parts |
| Lighter.AllRecordsShape | backend/app/exchanges/lighter.py:102-124 | at most one record per market, each an hourly Lighter record drawn from some market |
| Lighter.FetchAllFundingRates | backend/app/exchanges/lighter.py:88-127 | a failed reply gives nothing; otherwise every well-formed market's record, in list order |
| Scanner.NormalizeSymbol | funding_arbitrage.py:266-269 | a normalised symbol has no space, dash, colon or lower-case letter |
| Scanner.NormalizeIdempotent | funding_arbitrage.py:266-269 | normalising twice is normalising once |
| Scanner.UpperOfUpper | funding_arbitrage.py:269 | upper-casing text without lower-case letters leaves it unchanged |
| Scanner.RemoveAbsent | funding_arbitrage.py:269 | removing an absent character leaves the text unchanged |
| Scanner.BeforeAbsent | funding_arbitrage.py:269 | splitting on an absent character keeps the whole text |
| Scanner.CalculateApr | funding_arbitrage.py:271-276 | the APR times the interval is the rate difference × 24 × 365 × 100; a zero interval raises |
| Scanner.AprLinear | funding_arbitrage.py:271-276 | the APR is linear in the rate difference |
| Scanner.NormalizeAll | funding_arbitrage.py:290 | each `top_symbols` entry is normalised, into a new list in the same order |
| Scanner.AddToGroup | funding_arbitrage.py:292-294 | appending to an existing group keeps the keys; a new key opens a one-rate group at the end |
| Scanner.Grouped | funding_arbitrage.py:285-294 | the grouping has no symbol twice |
| Scanner.MatchingMembers | funding_arbitrage.py:287-294 | a group's matching rates are wanted rates of the input with that normalised symbol |
| Scanner.MatchHasGroup | funding_arbitrage.py:285-294 | a symbol with matching rates has a group |
| Scanner.MatchingSnoc | funding_arbitrage.py:287-294 | one more rate extends exactly its own symbol's matching rates |
| Scanner.AddToGroupExact | funding_arbitrage.py:292-294 | appending a wanted rate keeps every group equal to its matching rates |
| Scanner.GroupedStepGroups | funding_arbitrage.py:287-294 | a wanted rate keeps every group equal to its matching rates |
| Scanner.AddToGroupKeys | funding_arbitrage.py:292-294 | appending keeps every key and adds the new one |
| Scanner.GroupedStepKeys | funding_arbitrage.py:287-294 | a wanted rate keeps a group for every wanted symbol seen |
| Scanner.GroupedSkip | funding_arbitrage.py:290-291 | an unwanted rate changes no group |
| Scanner.GroupedCharacterised | funding_arbitrage.py:285-294 | one group per normalised symbol of a wanted rate, holding exactly its wanted rates in input order |
| Scanner.SymbolOpportunityRule | funding_arbitrage.py:298-328 | under two rates give nothing; an emitted opportunity goes long on a lowest rate and short on a highest rate of the group, on different venues, with a positive difference and an APR on the smaller interval of at least the minimum; a raise needs two or more rates |
| Scanner.SymbolOpportunity | funding_arbitrage.py:298-328 | under two rates give nothing and cannot raise; an emitted opportunity is for the symbol, on two different venues, with a positive rate difference of short less long and an APR at least the threshold |
| Scanner.SortedEnds | funding_arbitrage.py:302-304 | after the ascending sort the first entry has the lowest rate and the last the highest, both from the group |
| Scanner.OpportunityKeepsSymbol | funding_arbitrage.py:318-319 | an opportunity carries its group's symbol |
| Scanner.ScanOnePerSymbol | funding_arbitrage.py:298-328 | at most one opportunity per group, each the group's own, never two for one symbol |
| Scanner.FindArbitrageShape | funding_arbitrage.py:278-331 | the result is sorted by APR, a permutation of the per-group opportunities, one per symbol at most, each above the thresholds |
| Scanner.EvaluateSymbol | funding_arbitrage.py:299-328 | one group's evaluation computes `SymbolOpportunity` |
| Scanner.GroupedSnoc | funding_arbitrage.py:287-294 | grouping one more rate is one step of the loop body |
| Scanner.GroupRate | funding_arbitrage.py:289-294 | the inner loop's body groups one rate |
| Scanner.GroupVenue | funding_arbitrage.py:288-294 | the inner loop groups one venue's rates after those already seen |
| Scanner.GroupRates | funding_arbitrage.py:285-294 | the grouping loops give the grouping of every venue's rates in map order |
| Scanner.ScanGroups | funding_arbitrage.py:296-328 | the evaluation loop computes the scan of every group in order, a raise included |
| Scanner.FindArbitrageOpportunities | funding_arbitrage.py:278-331 | the method computes `FindArbitrage`: the grouping, the scan, then the APR sort |
| Scanner.ScanRaisedSticks | funding_arbitrage.py:315 | once a group raises, the whole scan raises |
| Tickers.BinanceTradingFee | backend/app/exchanges/binance.py:63-74 | Binance charges 0.1% maker and taker |
| Upbit.ConvertSymbol | backend/app/exchanges/upbit.py:19-25 | the result ends in `/KRW`; its base is the symbol up to its first `/` and holds no `/`; a symbol without `/` just gains `/KRW` |
| Upbit.ConvertSymbolIdempotent | backend/app/exchanges/upbit.py:19-25 | converting twice is converting once |
| Upbit.FetchTicker | backend/app/exchanges/upbit.py:27-69 | a failed ticker call gives `None`; a fully quoted ticker is used as is; otherwise the order book fills each side it has a level for, and a failing book leaves both sides at the last price |
| Upbit.FetchMultipleTickers | backend/app/exchanges/upbit.py:71-88 | the result has each requested symbol whose ticker was fetched, and only those, mapped to its own ticker |
| Upbit.FetchMultipleStep | backend/app/exchanges/upbit.py:80-86 | storing one fetched ticker keeps the loop's invariant |
| Upbit.TradingFee | backend/app/exchanges/upbit.py:90-101 | Upbit charges 0.05% maker and taker for every symbol |
| SpotArbitrage.DirectionPercent | backend/app/services/arbitrage.py:57-66 | a direction's percent is its gain over the cost less the transfer fee |
| SpotArbitrage.LegsOf | backend/app/services/arbitrage.py:48-66 | Binance's ask is converted at the rate; each buy adds and each sell deducts its venue's taker fee |
| SpotArbitrage.RawPremium | backend/app/services/arbitrage.py:81 | the raw premium is Upbit's price over Binance's, in percent |
| SpotArbitrage.CalculateArbitrage | backend/app/services/arbitrage.py:22-100 | a result exists exactly when both tickers carry all four quotes and neither buy cost is zero; a result is for Binance's symbol at the calculator's rate, with no net premium yet |
| SpotArbitrage.Best | backend/app/services/arbitrage.py:57-96 | Binance to Upbit is chosen exactly when its percent is strictly higher; the profit is the larger percent; profitable exactly when positive; Binance's symbol and timestamp, the given rate, no net premium yet |
| SpotArbitrage.CalculateArbitrageRule | backend/app/services/arbitrage.py:48-96 | a result is the better direction (ties to Upbit to Binance) with that direction's prices, profitable exactly when its percent is positive, with the raw premium and the echoed inputs |
| SpotArbitrage.GainNeedsHigherRevenue | backend/app/services/arbitrage.py:57-66 | with a non-negative transfer fee, a positive percent needs revenue above cost |
| SpotArbitrage.AtMostOneProfitableDirection | backend/app/services/arbitrage.py:57-78 | with non-negative fees and positive prices the two directions are never profitable together |
| SpotArbitrage.PremiumSign | backend/app/services/arbitrage.py:81 | the raw premium is positive exactly when Upbit's price exceeds Binance's |
| SpotArbitrage.ProfitForAmount | backend/app/services/arbitrage.py:102-131 | nothing is earned on a missing or unprofitable result; otherwise the amount grows by the profit percent; the return is the investment plus the profit |
| SpotArbitrage.ProfitableReturnsMore | backend/app/services/arbitrage.py:125-131 | a profitable opportunity returns more than a positive investment |
| SpotArbitrage.ArbitrageCalculator.constructor | backend/app/services/arbitrage.py:7-16 | the calculator starts at the given rate |
| SpotArbitrage.ArbitrageCalculator.UpdateExchangeRate | backend/app/services/arbitrage.py:18-20 | the rate is replaced |
| SpotArbitrage.ArbitrageCalculator.Calculate | backend/app/services/arbitrage.py:22-100 | a calculation uses the calculator's current rate |
| SpotArbitrage.UpdateThenCalculate | backend/app/services/arbitrage.py:18-60 | after an update, the next calculation prices Binance's ask at the new rate |
| MultiArbitrage.FeeFor | backend/app/services/multi_arbitrage.py:54-55 | a venue without a fee entry pays the 0.2% default; otherwise its own fee |
| MultiArbitrage.SingleArbitrage | backend/app/services/multi_arbitrage.py:78-149 | a direction gives a result exactly when the buy side has an ask, the sell side a bid, and the cost is non-zero |
| MultiArbitrage.SingleArbitrageRule | backend/app/services/multi_arbitrage.py:109-145 | cost and revenue with fees and transfer fee, profit as revenue minus cost, its percent of the cost, profitable exactly when positive |
| MultiArbitrage.ProfitableIffRevenueExceedsCost | backend/app/services/multi_arbitrage.py:120-130 | with a positive cost, a direction is profitable exactly when revenue exceeds cost |
| MultiArbitrage.Direction | backend/app/services/multi_arbitrage.py:44-72 | a falsy ticker on either venue gives nothing |
| MultiArbitrage.PairResults | backend/app/services/multi_arbitrage.py:44-72 | a pair gives at most two results |
| MultiArbitrage.PairResultsMember | backend/app/services/multi_arbitrage.py:44-72 | a pair's results are exactly the directions of it that give one |
| MultiArbitrage.OpportunitiesBound | backend/app/services/multi_arbitrage.py:19-76 | n venues give at most n(n-1) results |
| MultiArbitrage.Opportunities | backend/app/services/multi_arbitrage.py:19-76 | the sorted list has one entry per result of the pair loops (the lemmas below give its order and contents) |
| MultiArbitrage.OpportunitiesFromPairs | backend/app/services/multi_arbitrage.py:40-72 | every result is one direction of a pair of distinct venues that both have tickers |
| MultiArbitrage.OpportunitiesCoverPairs | backend/app/services/multi_arbitrage.py:40-72 | every direction of two distinct venues that gives a result is in the list |
| MultiArbitrage.OpportunitiesSorted | backend/app/services/multi_arbitrage.py:75 | the list is sorted by profit percent and is a permutation of the pair results |
| MultiArbitrage.EvaluatePair | backend/app/services/multi_arbitrage.py:41-72 | one pass of the pair loop computes the pair's results |
| MultiArbitrage.AppendPair | backend/app/services/multi_arbitrage.py:40-72 | one pass appends the next pair's results in combinations order |
| MultiArbitrage.EvaluateRow | backend/app/services/multi_arbitrage.py:40-72 | the pairs of one first venue with every later venue, in order |
| MultiArbitrage.MultiArbitrageCalculator.constructor | backend/app/services/multi_arbitrage.py:8-13 | the calculator starts at the given rate |
| MultiArbitrage.MultiArbitrageCalculator.UpdateExchangeRate | backend/app/services/multi_arbitrage.py:15-17 | the rate is replaced |
| MultiArbitrage.MultiArbitrageCalculator.CalculateArbitrageOpportunities | backend/app/services/multi_arbitrage.py:19-76 | the method computes `Opportunities`: every pair's results in combinations order, sorted by profit percent |
| Websocket.ConnectionManager.constructor | backend/app/websocket.py:13-14 | no socket is connected at first |
| Websocket.ConnectionManager.Connect | backend/app/websocket.py:16-20 | the socket joins the set; connecting twice keeps it once |
| Websocket.ConnectionManager.Disconnect | backend/app/websocket.py:22-25 | the socket leaves the set; an absent socket changes nothing |
| Websocket.ConnectionManager.Broadcast | backend/app/websocket.py:27-43 | every connected socket is tried; exactly those whose send fails are removed |
| Websocket.SendAll | backend/app/websocket.py:32-39 | the send loop over the snapshot collects exactly the failing sockets |
| Websocket.FailedStep | backend/app/websocket.py:34-39 | one more send adds the socket to the failures exactly when it fails |
| Websocket.RemovalStep | backend/app/websocket.py:42-43 | one more removal keeps the removal loop's invariant |
| Websocket.BroadcastKeepsDelivered | backend/app/websocket.py:27-43 | a broadcast that reaches everyone leaves the set as it was |
| Websocket.Average | backend/app/websocket.py:104-108 | the average raw premium times the count is the sum; 0 for an empty cycle |
| Websocket.WithPure | backend/app/websocket.py:110-112 | each entry keeps its fields and gets its raw premium net of the average |
| Websocket.PureSumShift | backend/app/websocket.py:110-112 | the net premiums sum to the raw sum less n times the average |
| Websocket.PureSumsToZero | backend/app/websocket.py:104-112 | premiums net of the cycle's own average sum to zero |
| Websocket.WithPureMembers | backend/app/websocket.py:110-112 | every entry carries its premium net of the average |
| Websocket.SortedMembers | backend/app/websocket.py:115-118 | sorting keeps each entry's net premium |
| Websocket.MessageShape | backend/app/websocket.py:104-128 | the message is an `arbitrage_update` with the average, every collected entry sorted by profit percent, and the first entry's timestamp (absent for an empty cycle) |
| Websocket.MessageOf | backend/app/websocket.py:104-128 | an `arbitrage_update` with the cycle's average premium, one entry per collected opportunity, and no timestamp exactly when the cycle is empty |
| Websocket.MessageNetPremiums | backend/app/websocket.py:104-128 | every entry sent carries its premium net of the sent average |
| Websocket.CollectOpportunities | backend/app/websocket.py:76-102 | the symbol loop collects, in symbol order, the opportunities of the symbols with both tickers, at the calculator's rate |
| Websocket.SymbolArbitrage | backend/app/websocket.py:88-98 | a symbol missing on either venue gives nothing; a result is for Binance's symbol at the given rate, with no net premium yet |
| Websocket.Collected | backend/app/websocket.py:76-102 | at most one opportunity per symbol, each at the given rate with no net premium yet |
| Websocket.ArbitrageFor | backend/app/websocket.py:88-98 | one pass of the symbol loop computes that symbol's opportunity at the calculator's rate |
| Websocket.TotalPremium | backend/app/websocket.py:107 | the sum of the cycle's raw premiums |
| Websocket.SetPure | backend/app/websocket.py:111-112 | the loop stores each entry's premium net of the average |
| Websocket.AddPureArbitrage | backend/app/websocket.py:104-112 | the averaging step gives the average and every entry net of it |
| Websocket.RunCycle | backend/app/websocket.py:73-131 | one cycle broadcasts the cycle's message and drops exactly the sockets whose send fails |
| Websocket.SentShape | backend/app/websocket.py:71-135 | n cycles send n messages, cycle k's message k-th |
| Websocket.AfterCyclesSurvivors | backend/app/websocket.py:27-43 | repeated broadcasts only remove sockets: a socket remains exactly when it was connected at the start and no cycle's send to it failed |
| Websocket.HandleWebsocket | backend/app/websocket.py:49-142 | the loop sends one message per cycle, each computed from that cycle's tickers; the final set is what the cycles' broadcasts leave of the old set plus the socket, without the socket |
| Sorting.SortDesc | backend/app/services/funding_arbitrage.py:196 | the sort keeps the length and is a permutation |
| Sorting.SortDescSorted | backend/app/services/funding_arbitrage.py:196 | the sorted list has non-increasing keys |
| Sorting.SortDescStable | backend/app/services/funding_arbitrage.py:196 | stability: elements with equal keys keep their relative order |
| Sorting.SortDescHeadIsMax | backend/app/services/funding_arbitrage.py:196 | the first element has the largest key of the input |
| Sorting.SortDescLastIsMin | funding_arbitrage.py:302-304 | the last element has the smallest key of the input |
| Combinations.PairsBeforeCount | backend/app/services/funding_arbitrage.py:134 | the pairs of n indices whose first index is before i number i(2n-i-1)/2 |
| Combinations.RowsBeforeBound | backend/app/services/multi_arbitrage.py:40 | pairs contributing at most w entries give at most w entries per pair |
| Combinations.RowsBeforeCount | backend/app/services/funding_arbitrage.py:134 | pairs contributing one entry each give one entry per pair |
| Combinations.RowsBeforeMember | backend/app/services/funding_arbitrage.py:134 | every entry comes from a pair a < b |
| Combinations.RowsBeforeContains | backend/app/services/funding_arbitrage.py:134 | every entry of every pair a < b is enumerated |

## Left out

- Network, `async`, sessions and timing are not modelled. Each venue's reply
  is a parameter. This covers `close`, `close_all`, session setup, `asyncio.sleep`
  and `asyncio.gather`; the gather keeps the configured order.
- `get_available_exchanges`, Lighter's `get_supported_symbols`, the
  `FundingRateFetcher` class, the console presentation and the `main`
  entry point of the root `funding_arbitrage.py`, `main.py`, `config.py` and
  the exchange-rate service are not part of this model.
- The other venue clients (`binance_futures.py`, `hyperliquid.py`,
  `multi_exchange.py`, the Bybit client) are not part of this model. Their
  fetches are parameters, and a built client's display name is an input.
- `round(...)` is not modelled: every value is an exact real. Orientation
  and ranking are proved on the unrounded APR.
- Floating point: Python floats are modelled as exact reals.
- `str.upper` and `str.lower` map ASCII letters only.
- `datetime.now()` is the parameter `now`.
- Logging is not modelled.
- The hourly rates that `find_top_opportunities` computes
  (backend/app/services/funding_arbitrage.py:170-174) are not kept.
  `TopArbitrageOpportunity` has no field for them, so the record drops them,
  and `HourlyRate` is proved on its own.
- The APR is |short − long| · (24 // short interval) · 365 · 100, on the
  venues' native rates (backend/app/services/funding_arbitrage.py:62,77).
- `websocket.py` streams spot opportunities only, as `arbitrage_update`
  messages carrying the average premium (backend/app/websocket.py:123-128).
  No funding opportunity is streamed.
- `FundingRateInfo.funding_rate` is a required float, so the filter on
  `funding_rate is not None` keeps every entry.
- `get_funding_interval`'s default of 8 hours is unreachable: every venue
  has an entry.
- Lighter's commented-out client in `initialize` is left out, as in the code.
- The websocket symbol loop's `except` is unreachable in the model.
  `calculate_arbitrage` catches its own exceptions and the ticker fetches
  return `None`.
- Lighter's reply decoding is abstracted: the reply is the list of
  markets, or `None` for a non-200 status or a raised call.
- Broadcast iterates over a set, so the order of sends is unspecified. The
  model states which sockets were tried and which were removed, not the
  order.
- `handle_websocket`'s endless loop is modelled as `cycles` passes. Other
  sockets and handlers running concurrently are not modelled.
- Websocket.HandleWebsocket: when the handler's own socket fails inside
  `broadcast` (backend/app/websocket.py:35-39), the failure is caught and the
  socket is dropped, but the `while True` loop goes on. The model stops after
  `cycles` passes and does not single out that case.
- Websocket.HandleWebsocket: `POST /exchange-rate` (backend/app/main.py:121-129)
  can replace the calculator's rate between cycles. The model holds the rate
  fixed for all cycles; one rate change is covered by
  `SpotArbitrage.UpdateThenCalculate`.
- A fee dict without a `taker` key is not modelled: `Fee` always has one.
- MultiArbitrage.MultiArbitrageCalculator.UpdateExchangeRate: the rate is
  stored but no calculation reads it; every venue is quoted in USD.
