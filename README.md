# Crypto scanner — a verified model

This project models the decision logic of a family of cryptocurrency market scanners.
Each scanner fetches market data from CoinGecko or CoinMarketCap, scores or classifies
every coin, and reports the best candidates or the buy and sell signals. The model takes
the network replies, the clock and the log file as inputs, and proves what each scanner
decides from them.

The modules:

- **Common** holds the shared pieces:
  - Python's stable `list.sort(key, reverse=True)`, modelled as `SortDesc`, an insertion
    sort. It is proved sorted, a permutation of its input and stable.
  - Slicing `s[:n]` (`SliceTo`), list comprehensions (`Filter`, `MapSeq`), and the
    if/elif scoring "tier".
  - The market record `Coin` that the module-level fetcher and the growth fetcher build.
- **AlertLedger** is the alert-deduplication set of `AdvancedCryptoScanner`. It holds
  (symbol, timeframe, source, day) tuples and the CSV log the set is rebuilt from.
- **ApiRetry** is the retry policy of `_make_api_request`:
  - exponential back-off after HTTP 429;
  - a fixed pause after a connection error;
  - an immediate give-up on any other status.
- **ProviderMerge** is the CoinGecko/CoinMarketCap merge of `fetch_real_crypto_data`. It
  is a dictionary keyed by symbol, followed by a stable sort by volume.
- **TokenScoring** covers what `AdvancedCryptoScanner` computes about one token: the
  validation gate, the indicator signals, the four-part score with its factor list, and
  the risk tier.
- **AdvancedScanner** holds the classes `TokenAnalysis` and `AdvancedCryptoScanner`, whose
  methods update their fields in place. They cover the historical-data cache, the ledger,
  the analysis pipeline and `find_best_coins`. Each method is proved against the
  functions of the modules above.
- **LegacyScorer** covers the module-level `calculate_coin_score` and `find_best_coins`
  of crypto_scanner.py.
- **GrowthScanner** covers `GrowthPotentialScanner`: the growth-potential score and the
  threshold ranking.
- **AutoScanner** covers `AutoCryptoScanner`: signal classification and the alert rule.
- **TokenFilter** covers main.py: `filter_tokens` and the buy/sell conditions.
- **SimpleScanner** covers `analyze_coins` of simple_scanner.py.
- **MultiApi** covers `MultiAPIScanner` of scanner/multi_api.py:
  - the fixed-delay retry;
  - the best-coin selection loop;
  - the holder-growth inclusion rule;
  - the two-provider signal.

Some noteworthy facts are proved about the code as written:

- The caps in `_calculate_final_score` never bind: the score is at most 68. So the
  "low risk" tier (score above 80) is never assigned.
- `calculate_coin_score` can reach exactly 100, so its `min(score, 100)` never binds.
- `calculate_growth_potential` never exceeds 90, so a growth threshold above 90 keeps
  nothing.
- In `_make_api_request` the k-th back-off is 5·2^k seconds.
- In `fetch_coingecko` a 10-second pause separates each two attempts, and none follows
  the last.

## Model

| member | source | states |
|---|---|---|
| AlertLedger.Day | crypto_scanner.py:74 | the day of a timestamp is its first ten characters, a prefix of it |
| AlertLedger.ShouldAlert | crypto_scanner.py:84-86 | definition of `_should_alert` on a ledger and a day; properties in AlertLedger.RecordSuppresses and AlertLedger.RecordIsExact |
| AlertLedger.Record | crypto_scanner.py:74 | definition of the ledger update of `_log_signal`; properties in AlertLedger.RecordAddsOne, AlertLedger.RecordIsExact and AlertLedger.ReloadAfterRecord |
| AlertLedger.Project | crypto_scanner.py:76-82 | the ledger loaded from a log holds exactly the (symbol, timeframe, source, day) tuples of its rows |
| AlertLedger.SignalRow | crypto_scanner.py:72 | the row written for an alert projects to the tuple the ledger records for it |
| AlertLedger.RecordSuppresses | crypto_scanner.py:73-86 | after an alert is logged, the same symbol, timeframe and source are not alerted again that day |
| AlertLedger.RecordIsExact | crypto_scanner.py:84-86 | logging an alert changes the answer of `_should_alert` for exactly one tuple |
| AlertLedger.RecordAddsOne | crypto_scanner.py:74 | logging removes no tuple and adds at most the alert's own tuple |
| AlertLedger.ProjectAppend | crypto_scanner.py:68-82 | appending a row to the log adds exactly that row's tuple to the reloaded ledger |
| AlertLedger.ReloadAfterRecord | crypto_scanner.py:65-82 | the ledger a restart rebuilds after an alert equals the in-memory ledger with the alert recorded |
| ApiRetry.RunSchedule | crypto_scanner.py:90-107 | at most `retries` requests; exactly one pause after each 429 or caught exception among them (the last included) and no other; the pause after request k lasts 5·2^k s after a 429 and 5 s after a connection failure or an undecodable 200 body |
| ApiRetry.RunReturnsFirstSuccess | crypto_scanner.py:91-95 | the first decodable 200 body after only retryable answers is returned, after k+1 requests |
| ApiRetry.RunBodyWitness | crypto_scanner.py:90-108 | a returned body comes from a 200 answer preceded only by retryable answers |
| ApiRetry.OtherStatusGivesUp | crypto_scanner.py:101-103 | any status other than 200 and 429 ends the run at once with None |
| ApiRetry.Run | crypto_scanner.py:90-108 | definition of the helper from one attempt on; properties in ApiRetry.RunSchedule, ApiRetry.RunReturnsFirstSuccess, ApiRetry.RunBodyWitness and ApiRetry.OtherStatusGivesUp |
| ProviderMerge.Dedup | crypto_scanner.py:115-122 | dictionary key order: the same keys as inserted, each once |
| ProviderMerge.MergeProviders | crypto_scanner.py:115-124 | definition of the merge and sort; properties in the ProviderMerge.Merge… lemmas and ProviderMerge.OnlyCoinGecko |
| ProviderMerge.LastWith | crypto_scanner.py:117-118 | the record kept under a symbol by repeated assignment is a record of the input with that symbol, present iff the symbol occurs |
| ProviderMerge.FirstWith | crypto_scanner.py:119-122 | the record kept under a symbol by insert-if-absent is a record of the input with that symbol, present iff the symbol occurs |
| ProviderMerge.Winner | crypto_scanner.py:115-122 | a record is kept for a symbol iff either provider reported it |
| ProviderMerge.Winners | crypto_scanner.py:123 | the dictionary's values, one winner per key, in key order |
| ProviderMerge.PutAllIsLastWins | crypto_scanner.py:116-118 | after the CoinGecko pass the keys are its symbols in first-seen order and each holds the last record with that symbol |
| ProviderMerge.PutMissingIsWinner | crypto_scanner.py:119-122 | after the CoinMarketCap pass every symbol of either list holds CoinGecko's last record, else CoinMarketCap's first |
| ProviderMerge.MergedSymbols | crypto_scanner.py:123 | before sorting, the list holds the winners of the deduplicated symbols in key order |
| ProviderMerge.MergeDistinctSymbols | crypto_scanner.py:115-124 | the merged list has one record per symbol |
| ProviderMerge.MergeKeepsWinners | crypto_scanner.py:115-124 | every merged record is its symbol's winner, so CoinGecko data takes precedence |
| ProviderMerge.MergeCoversBoth | crypto_scanner.py:115-124 | every symbol either provider reported appears in the merged list |
| ProviderMerge.MergeSortedByVolume | crypto_scanner.py:124 | the merged list is in non-increasing volume order, and equal volumes keep dictionary order |
| ProviderMerge.OnlyCoinGecko | crypto_scanner.py:112-124 | without CoinMarketCap data, each symbol keeps CoinGecko's last record |
| TokenScoring.Validate | crypto_scanner.py:274-280 | accepted iff volume ≥ 1,000,000 and 10M ≤ market cap ≤ 10B; an undefined market cap past the volume test raises |
| TokenScoring.VolatilityWarning | crypto_scanner.py:281-282 | exactly one warning iff the 24h move exceeds 20% either way |
| TokenScoring.CrossoverRule | crypto_scanner.py:293-299 | a bullish (bearish) MACD crossover is reported iff the line crossed above (below) its signal line between the last two points; never both |
| TokenScoring.IndicatorSignals | crypto_scanner.py:284-307 | definition of the RSI, MACD and band signals; properties in TokenScoring.CrossoverRule and TokenScoring.UndefinedIndicatorsAreSilent |
| TokenScoring.UndefinedIndicatorsAreSilent | crypto_scanner.py:284-307 | undefined indicator values produce no signal |
| TokenScoring.VolumeToMarketCapRatio | crypto_scanner.py:339 | the liquidity ratio times a positive market cap gives back the volume |
| TokenScoring.MomentumPoints | crypto_scanner.py:311-337 | the momentum sub-score lies in [0, 30] |
| TokenScoring.Change1hTier | crypto_scanner.py:312-319 | definition of the 1h tier: 12, 8, 3 or 0 points, its factor one of tier 0; properties in TokenScoring.OneHourFactorRule |
| TokenScoring.Change24hTier | crypto_scanner.py:320-329 | definition of the 24h tier: 12, 8, 4 or 0 points, its factor one of tier 1 |
| TokenScoring.Change7dTier | crypto_scanner.py:330-336 | definition of the 7d tier: 6, 4, 2 or 0 points, its factor one of tier 2 |
| TokenScoring.VolumeToMarketCap | crypto_scanner.py:339 | definition of the guarded ratio, 0 for a market cap ≤ 0; property in TokenScoring.VolumeToMarketCapRatio |
| TokenScoring.RatioTier | crypto_scanner.py:340-348 | definition of the liquidity-ratio tier: 15, 10, 5 or 0 points, its factor one of tier 3 |
| TokenScoring.VolumeTier | crypto_scanner.py:349-356 | definition of the volume tier: 10, 6, 3 or 0 points, its factor one of tier 4 |
| TokenScoring.RsiTier | crypto_scanner.py:359-365 | definition of the RSI tier: +8, -5 or 0 points, none for an undefined RSI, its factor one of tier 5 |
| TokenScoring.MacdTier | crypto_scanner.py:366-371 | definition of the MACD tier: +5 or -3, none for an undefined MACD, its factor one of tier 6 |
| TokenScoring.DrawdownTier | crypto_scanner.py:373-376 | definition of the drawdown tier, its factor one of tier 7; properties in TokenScoring.SharpDropRule |
| TokenScoring.LiquidityPoints | crypto_scanner.py:338-357 | the liquidity sub-score lies in [0, 25] |
| TokenScoring.TechnicalPoints | crypto_scanner.py:358-372 | the technical sub-score lies in [-8, 13] |
| TokenScoring.RiskPoints | crypto_scanner.py:373-376 | the risk adjustment is 0 or -10 |
| TokenScoring.FinalScore | crypto_scanner.py:308-377 | the final score lies in [0, 100] |
| TokenScoring.CapsNeverBind | crypto_scanner.py:337-377 | the score equals max(0, sum of the four parts): no cap binds, and it is at most 68 |
| TokenScoring.FactorsInEvaluationOrder | crypto_scanner.py:308-378 | each tier reports at most one factor, in evaluation order, each one its tier's own |
| TokenScoring.FactorReported | crypto_scanner.py:308-378 | a factor is reported iff its tier selected it |
| TokenScoring.SharpDropRule | crypto_scanner.py:373-376 | the sharp-drop factor and the -10 penalty apply iff the 24h change is below -15 |
| TokenScoring.OneHourFactorRule | crypto_scanner.py:312-319 | a 1h factor is reported iff the 1h change exceeds 2 (a smaller gain scores 3 silently) |
| TokenScoring.RiskTier | crypto_scanner.py:379-385 | low iff score > 80, medium iff 50 < score ≤ 80, high iff score ≤ 50 |
| TokenScoring.RiskTierMonotone | crypto_scanner.py:379-385 | a higher score never gives a higher risk tier |
| TokenScoring.NoLowRiskScore | crypto_scanner.py:379-381 | no score the scanner assigns reaches the low-risk tier |
| AdvancedScanner.CacheAfter | crypto_scanner.py:221-246 | a fetch only adds the fetched symbol to the cache and never replaces a cached frame |
| AdvancedScanner.HistoryFor | crypto_scanner.py:220-251 | definition of what `fetch_historical_data` yields: the cached frame, else the remote one; property in AdvancedScanner.CacheIsTransparent |
| AdvancedScanner.Analyze | crypto_scanner.py:252-273 | definition of `analyze_token`'s outcome; properties in AdvancedScanner.AnalyzeOutcome |
| AdvancedScanner.BestCoins | crypto_scanner.py:386-393 | definition of `find_best_coins`' result; properties in AdvancedScanner.BestCoinsRanking and AdvancedScanner.BestCoinsStable |
| AdvancedScanner.CacheIsTransparent | crypto_scanner.py:220-247 | caching never changes what a later `fetch_historical_data` yields, for any symbol |
| AdvancedScanner.AnalyzeOutcome | crypto_scanner.py:252-273 | a record is analysed iff its market cap is defined and passes the gate, and its price is defined whenever a history exists; the analysis keeps symbol and volume, scores in [0, 68], carries the score's risk tier, never low, and the sharp-drop factor iff the 24h change is below -15 |
| AdvancedScanner.AnalyzeAll | crypto_scanner.py:386-391 | the loop yields at most one analysis per record |
| AdvancedScanner.AnalyzeAllFromInput | crypto_scanner.py:386-391 | every surviving analysis is the analysis of some input record |
| AdvancedScanner.BestCoinsRanking | crypto_scanner.py:386-393 | min(top_n, kept) analyses for top_n ≥ 0, each scoring ≥ 40 and analysed from the input, best first, and none ranked after them scores higher |
| AdvancedScanner.BestCoinsStable | crypto_scanner.py:392 | analyses of equal score keep input order |
| AdvancedScanner.TokenAnalysis.constructor | crypto_scanner.py:30-50 | a fresh analysis: no indicators, score 0, medium risk, empty signals and factors |
| AdvancedScanner.AdvancedCryptoScanner.constructor | crypto_scanner.py:56-63 | empty caches and the ledger loaded from the log, consistent with it |
| AdvancedScanner.AdvancedCryptoScanner.LoadAlertHistory | crypto_scanner.py:76-82 | the ledger becomes the projection of the log |
| AdvancedScanner.AdvancedCryptoScanner.LogSignal | crypto_scanner.py:65-74 | appends the row, records the tuple, and keeps the ledger equal to what the log reloads to |
| AdvancedScanner.AdvancedCryptoScanner.MakeApiRequest | crypto_scanner.py:90-108 | the loop returns what the retry specification returns, with the same requests and pauses |
| AdvancedScanner.AdvancedCryptoScanner.FetchRealCryptoData | crypto_scanner.py:109-126 | the two dictionary loops and the sort produce the merge specification |
| AdvancedScanner.AdvancedCryptoScanner.InsertAll | crypto_scanner.py:116-118 | the CoinGecko loop builds the last-wins dictionary |
| AdvancedScanner.AdvancedCryptoScanner.InsertMissing | crypto_scanner.py:119-122 | the CoinMarketCap loop inserts only missing symbols |
| AdvancedScanner.AdvancedCryptoScanner.SortedValues | crypto_scanner.py:123-124 | the values in key order, sorted by volume, are the merged list |
| AdvancedScanner.AdvancedCryptoScanner.FetchHistoricalData | crypto_scanner.py:220-251 | returns the cached frame, else the fetched one, which it caches |
| AdvancedScanner.AdvancedCryptoScanner.ValidateToken | crypto_scanner.py:274-283 | returns the gate's verdict and appends the volatility warning only to an accepted token |
| AdvancedScanner.AdvancedCryptoScanner.CalculateTechnicalIndicators | crypto_scanner.py:284-307 | fails iff a history exists but the price is undefined; on success appends that history's indicator signals; the RSI comes from the history; the cache gains at most the symbol |
| AdvancedScanner.AdvancedCryptoScanner.CalculateFinalScore | crypto_scanner.py:308-378 | the token's score and factors become those of the scoring specification |
| AdvancedScanner.AdvancedCryptoScanner.MomentumBlock | crypto_scanner.py:311-336 | the momentum points and factors of the three change tiers |
| AdvancedScanner.AdvancedCryptoScanner.LiquidityBlock | crypto_scanner.py:338-356 | the liquidity points and factors of the ratio and volume tiers |
| AdvancedScanner.AdvancedCryptoScanner.TechnicalBlock | crypto_scanner.py:358-371 | the technical points and factors of the RSI and MACD tiers |
| AdvancedScanner.AdvancedCryptoScanner.DetermineRiskLevel | crypto_scanner.py:379-385 | the risk level becomes the tier of the score |
| AdvancedScanner.AdvancedCryptoScanner.AnalyzeToken | crypto_scanner.py:252-273 | succeeds iff the specification analyses the record; a success is a fresh object recorded in `last_analysis`, and the cache changes only for an accepted record |
| AdvancedScanner.AdvancedCryptoScanner.FindBestCoins | crypto_scanner.py:386-393 | returns objects whose analyses are exactly the specified ranking, and the cache answers as before |
| AdvancedScanner.AdvancedCryptoScanner.AnalyzeEach | crypto_scanner.py:387-391 | the loop keeps exactly the analyses scoring ≥ 40, in input order |
| AdvancedScanner.AdvancedCryptoScanner.AnalyzeAndKeep | crypto_scanner.py:389-391 | one record contributes its analysis iff it survives and scores ≥ 40 |
| AdvancedScanner.AdvancedCryptoScanner.TopPairs | crypto_scanner.py:392-393 | the sort and slice of the kept objects agree with the sort and slice of their analyses |
| Common.SliceTo | crypto_scanner.py:393 | `s[:n]` is a prefix of length min(n, len) for n ≥ 0, and drops -n elements for n < 0 |
| Common.VolumeToCap | growth_scanner.py:68 | the ratio times a non-zero market cap gives 100 times the volume; 0 for a zero market cap |
| Common.OrZero | growth_scanner.py:63-65 | `x or 0`: a missing change reads as 0, a non-zero one as itself |
| Common.CoinOf | growth_scanner.py:58-69 | the built record carries volume, market cap and rank over, with the volume/cap percentage (0 for a zero cap) and a missing 1h change as 0 |
| Common.SortDescSorted | crypto_scanner.py:392 | the descending sort's output is in non-increasing key order |
| Common.SortDescPermutes | crypto_scanner.py:599 | the descending sort's output is a permutation of its input |
| Common.SortDescStable | growth_scanner.py:163 | the sort is stable: elements with equal keys keep their input order |
| LegacyScorer.Momentum1h | crypto_scanner.py:509-516 | the 1h tier adds 0 to 15 points |
| LegacyScorer.CoinScore | crypto_scanner.py:503-579 | definition of `calculate_coin_score`; properties in LegacyScorer.CapNeverBinds, LegacyScorer.FactorFromItsTier and the …Rule lemmas |
| LegacyScorer.BestCoins | crypto_scanner.py:581-600 | definition of `find_best_coins`' result; properties in LegacyScorer.BestCoinsRanking and LegacyScorer.BestCoinsStable |
| LegacyScorer.Growth24h | crypto_scanner.py:518-528 | the 24h tier adds 0 to 15 points |
| LegacyScorer.Weekly7d | crypto_scanner.py:530-534 | the 7d tier adds 0 to 5 points |
| LegacyScorer.LiquidityRatio | crypto_scanner.py:537-545 | the volume/cap tier adds 0 to 15 points |
| LegacyScorer.TradingVolume | crypto_scanner.py:547-551 | the volume tier adds 0 to 10 points |
| LegacyScorer.RankTier | crypto_scanner.py:554-564 | the rank tier adds 0 to 20 points |
| LegacyScorer.Breakout | crypto_scanner.py:568-570 | the breakout tier adds 0 or 10 points |
| LegacyScorer.Whale | crypto_scanner.py:573-577 | the whale tier adds 0 to 10 points |
| LegacyScorer.Tiers | crypto_scanner.py:503-578 | eight tiers, in evaluation order, each one reporting only a factor of its own group |
| LegacyScorer.RawPoints | crypto_scanner.py:503-578 | the uncapped sum of the eight tiers is at most 100 |
| LegacyScorer.CapNeverBinds | crypto_scanner.py:579 | `min(score, 100)` is the raw sum, in [0, 100] |
| LegacyScorer.FullScoreReachable | crypto_scanner.py:503-579 | a concrete coin scores exactly 100 |
| LegacyScorer.FactorFromItsTier | crypto_scanner.py:503-579 | a factor is reported iff its own tier fired with it |
| LegacyScorer.TopCoinRule | crypto_scanner.py:554-556 | the top-coin factor appears iff rank ≤ 10 |
| LegacyScorer.BreakoutRule | crypto_scanner.py:568-570 | the breakout factor appears iff change_1h > change_24h / 24 · 3 |
| LegacyScorer.WhaleRule | crypto_scanner.py:573-577 | the whale factor appears iff volume > half the market cap |
| LegacyScorer.FindBestCoins | crypto_scanner.py:581-600 | the loop, the sort and the slice return the specified ranking |
| LegacyScorer.QualifiedMembers | crypto_scanner.py:585-596 | an entry is kept iff it scores a tradable input token at ≥ 30 |
| LegacyScorer.BestCoinsRanking | crypto_scanner.py:581-600 | min(top_n, qualifying) entries, each a tradable input scoring ≥ 30, best first, none left out scoring higher |
| LegacyScorer.BestCoinsStable | crypto_scanner.py:599 | entries of equal score keep input order |
| GrowthScanner.Trend1h | growth_scanner.py:87-91 | the 1h tier adds 0 to 15 points |
| GrowthScanner.GrowthPotential | growth_scanner.py:81-141 | definition of `calculate_growth_potential`; properties in GrowthScanner.GrowthBounds, GrowthScanner.FactorFromItsTier and the …Rule lemmas |
| GrowthScanner.GrowthRanking | growth_scanner.py:143-164 | definition of the ranking; properties in GrowthScanner.GrowthRankingSpec and GrowthScanner.GrowthRankingStable |
| GrowthScanner.Growth24h | growth_scanner.py:93-100 | the 24h tier adds 0 to 15 points |
| GrowthScanner.Weekly7d | growth_scanner.py:102-106 | the 7d tier adds 0 to 10 points |
| GrowthScanner.TradingVolume | growth_scanner.py:109-116 | the volume/cap tier adds 0 to 15 points |
| GrowthScanner.RankTier | growth_scanner.py:119-126 | the rank tier adds 0 to 15 points |
| GrowthScanner.Momentum | growth_scanner.py:130-132 | the momentum tier adds 0 or 10 points |
| GrowthScanner.Whale | growth_scanner.py:135-139 | the whale tier adds 0 to 10 points |
| GrowthScanner.Tiers | growth_scanner.py:81-140 | seven tiers, in evaluation order, each one reporting only a factor of its own group |
| GrowthScanner.RawPoints | growth_scanner.py:81-140 | the uncapped sum of the seven tiers is at most 90 |
| GrowthScanner.GrowthBounds | growth_scanner.py:141 | the score is the raw sum, in [0, 90]: the cap at 100 never binds, and 90 (the top band) is reached only with every tier at its maximum |
| GrowthScanner.GrowthMaximumReachable | growth_scanner.py:81-141 | a concrete coin scores exactly 90 |
| GrowthScanner.FactorFromItsTier | growth_scanner.py:81-141 | a factor is reported iff its own tier fired with it |
| GrowthScanner.MomentumRule | growth_scanner.py:130-132 | the momentum factor appears iff change_1h > change_24h / 24 · 2 |
| GrowthScanner.OneHourRule | growth_scanner.py:87-91 | 15 points iff change_1h > 2, 8 iff 0 < change_1h ≤ 2, else 0; the factor iff > 2 |
| GrowthScanner.QualifiedMembers | growth_scanner.py:147-160 | a coin is kept iff it is tradable and scores at least the threshold |
| GrowthScanner.GrowthRankingSpec | growth_scanner.py:143-164 | the result is a permutation of the kept coins, holds exactly the tradable input coins scoring at least the threshold, is sorted best first, and is empty for a threshold above 90 |
| GrowthScanner.GrowthRankingStable | growth_scanner.py:163 | coins of equal score keep input order |
| GrowthScanner.GrowthPotentialScanner.constructor | growth_scanner.py:9-10 | the threshold is 70 |
| GrowthScanner.GrowthPotentialScanner.AnalyzeGrowthPotential | growth_scanner.py:143-164 | the loop and sort return the specified ranking at the scanner's threshold |
| AutoScanner.Classify | auto_crypto_scanner.py:82-136 | a coin's signal strength is 1, 2 or 3 |
| AutoScanner.TierSignal | auto_crypto_scanner.py:99-125 | definition of the buy/sell if/elif chain; properties in AutoScanner.DirectionRule |
| AutoScanner.SignalsOf | auto_crypto_scanner.py:78-147 | definition of `analyze_signals`' list; properties in AutoScanner.SignalsOfSpec |
| AutoScanner.ShouldSendAlert | auto_crypto_scanner.py:179-188 | definition of `should_send_alert`; properties in AutoScanner.ShouldSendAlertRule |
| AutoScanner.AnalyzeSignals | auto_crypto_scanner.py:78-147 | the loop with its reassigned type and strength produces the specified signals |
| AutoScanner.SignalsOfSpec | auto_crypto_scanner.py:78-147 | one signal per signalled coin, in input order, each with that coin's classification |
| AutoScanner.SkipRule | auto_crypto_scanner.py:87-93 | no signal for a missing volume or one below 100,000, nor for a missing rank or one beyond 100 |
| AutoScanner.ExtremeMoveOverrides | auto_crypto_scanner.py:127-136 | a move beyond 15% gives a pump or dump warning of strength 3, whatever tier matched |
| AutoScanner.DirectionRule | auto_crypto_scanner.py:99-136 | buy signals need a rise in (1.5, 15], sell signals a fall in [-15, -2); strength 3 iff strong or extreme |
| AutoScanner.ShouldSendAlertRule | auto_crypto_scanner.py:179-188 | an alert iff some signal has strength 3 or at least three have strength 2; signals of strength 1 alone never alert |
| TokenFilter.ContainsAt | main.py:48 | substring search finds a needle iff it occurs at some offset |
| TokenFilter.Keeps | main.py:46-53 | definition of the four skip tests; properties in TokenFilter.FilterTokensSpec and TokenFilter.NameMatchIgnoresCase |
| TokenFilter.BuyCondition | main.py:80-84 | definition of `buy_cond`; properties in TokenFilter.Verdict and TokenFilter.BuySellExclusive |
| TokenFilter.SellCondition | main.py:86-89 | definition of `sell_cond`; properties in TokenFilter.Verdict and TokenFilter.BuySellExclusive |
| TokenFilter.FilterTokens | main.py:34-55 | the loop with its four skips keeps exactly the tokens every supplied criterion accepts, in order |
| TokenFilter.FilterTokensSpec | main.py:44-55 | the result is a subsequence of the input; a token is kept iff price ≥ min_price, name contains name_contains ignoring case, volume ≥ min_volume and the custom filter accepts it, each only when supplied |
| TokenFilter.NoCriteriaIsIdentity | main.py:34-55 | with no criterion the input comes back unchanged |
| TokenFilter.FilterTokensIdempotent | main.py:34-55 | filtering twice is filtering once |
| TokenFilter.NameMatchIgnoresCase | main.py:48-49 | a pattern and its lower-case form select the same tokens; an empty pattern selects all |
| TokenFilter.Verdict | main.py:80-93 | buy iff the buy condition holds, sell iff the sell condition holds |
| TokenFilter.BuySellExclusive | main.py:80-93 | the two conditions never hold together; a token at or without its moving average, or without a 24h change, gets neither |
| TokenFilter.SignalsFor | main.py:73-94 | one report per token with a verdict, and every reported verdict is that token's |
| SimpleScanner.AnalyzeCoinsIsTopEligible | simple_scanner.py:36-44 | filtering after the sort equals sorting the high-volume coins and taking the first five |
| SimpleScanner.AnalyzeCoins | simple_scanner.py:30-44 | definition of `analyze_coins`; properties in SimpleScanner.AnalyzeCoinsSpec and SimpleScanner.AnalyzeCoinsStable |
| SimpleScanner.AnalyzeCoinsSpec | simple_scanner.py:30-44 | [] for None or empty input; min(5, eligible) coins, each with volume > 1,000,000, in non-increasing 24h change (null as 0), none left out changing more |
| SimpleScanner.AnalyzeCoinsStable | simple_scanner.py:36 | coins with equal change appear in input order |
| MultiApi.FetchCoingecko | scanner/multi_api.py:15-36 | the retry loop returns the specified body and pauses |
| MultiApi.FetchFrom | scanner/multi_api.py:18-36 | definition of the attempts from one on; properties in MultiApi.FetchFromSpec |
| MultiApi.FetchFromSpec | scanner/multi_api.py:19-36 | from any attempt: the body of the first 200 answer after one 10 s pause per earlier failure, else `{}` after a pause between each two attempts |
| MultiApi.FetchCoingeckoSpec | scanner/multi_api.py:15-36 | at most two pauses; a body iff one of the three attempts answers 200 with a JSON body, and then the first such |
| MultiApi.UndecodableIsRetried | scanner/multi_api.py:22-34 | a 200 reply whose body is not JSON counts as a failed attempt: the next attempt decides, after a pause unless it was the last |
| MultiApi.BestCoinSignal | scanner/multi_api.py:176-229 | `all` has one report per coin in order; `best` is None iff there are no coins, else the first coin of maximal score |
| MultiApi.DetectHolderGrowth | scanner/multi_api.py:49-104 | [] when the listing fails; otherwise the rows of the included coins, in order |
| MultiApi.Included | scanner/multi_api.py:66-95 | definition of the skips and the growth test of one coin; properties in MultiApi.HolderGrowthRows and MultiApi.EthereumFirst |
| MultiApi.HolderCounts | scanner/multi_api.py:87-92 | definition of the Ethereum-first choice of holder counts; property in MultiApi.EthereumFirst |
| MultiApi.HolderGrowthRows | scanner/multi_api.py:64-103 | every row is an included coin with growth ≥ min_growth listed within `days`, and every included coin has its row |
| MultiApi.EthereumFirst | scanner/multi_api.py:77-92 | with an Ethereum contract the BSC counts are ignored and a missing Ethereum count excludes the coin; a coin with neither contract is never included |
| MultiApi.AggregateSignalRule | scanner/multi_api.py:262-276 | strong buy iff both replies parse with both changes > 2 and volume > 1,000,000; strong sell iff both parse with both changes < -2 |
| MultiApi.AggregateSignals | scanner/multi_api.py:262-283 | definition of the five values and the signal; properties in MultiApi.AggregateSignalRule and MultiApi.ParseFailureIsNeutral |
| MultiApi.Classify | scanner/multi_api.py:270-276 | definition of the if/elif/else with Python truthiness; properties in MultiApi.AggregateSignalRule |
| MultiApi.ParseFailureIsNeutral | scanner/multi_api.py:262-269 | a parse failure blanks all five values and gives neutral; so does a failed fetch of either provider |

## Left out

- HTTP, Telegram and the `time.sleep` calls. The fetchers (`_fetch_coingecko_data`,
  `_fetch_coinmarketcap_data`, `fetch_crypto_data`, `fetch_top_coins`,
  `fetch_coinmarketcap`, `fetch_ethereum`, `fetch_bsc`, the holder-count calls) are
  network I/O. Their results are inputs, and the pauses are returned rather than slept.
- Message formatting and printing (`format_*_message`, `print_tokens`, the `main`
  functions) are presentation only.
- The `while True` loops (`run_auto`, main.py's loop) are orchestration. The
  multi-timeframe `main` of crypto_scanner.py is left out too; it also references an
  undefined `signals_found`.
- `datetime.now()` timestamps are inputs or dropped. This covers the log time, the
  `timestamp` keys and the days since genesis.
- Reason strings and emoji are not modelled.
- The CSV file is an in-memory sequence of rows.
- Computing the RSI, MACD and Bollinger indicators (pandas and `ta`) is floating-point
  library code. The last two rows of the frame are an input, and a NaN value is an
  absent one.
- `_calculate_technical_indicators` never assigns `token.macd`. The model therefore
  keeps it undefined, and the MACD score tier never fires.
- Upper-casing of symbols in the fetchers is not modelled: symbols are compared as given.
- Only explicit `None` handling is modelled. A null rank, market cap, price or volume
  where the code does not test for `None` would raise a `TypeError`, and such fields are
  numbers in the model.
- In the auto scanner, a `rank` key that is present but null raises `TypeError` at the
  comparison. The model's None rank stands only for a missing key, which reads as 999.
- AdvancedScanner.AdvancedCryptoScanner.CalculateFinalScore: requires a defined market
  cap. `analyze_token` only reaches it after the gate, which raises on an undefined one.
- AdvancedScanner.AdvancedCryptoScanner.FindBestCoins: states the analyses of the
  returned objects and that the cache answers as before. It does not state the final
  contents of `last_analysis`.
- The remote history a symbol would fetch is a fixed map from symbol to indicator frame,
  so repeated fetches are deterministic.
- `detect_newly_listed` is a stub: its body is `...`, and the code after a `return` in
  `_get_bsc_holder_count` is unreachable.
- Holder counts are inputs. Both holder-count helpers ignore `days_ago`, so in practice
  the growth is 0; only the inclusion rule is modelled.
- The score formula of `best_coin_signal` uses `**0.3` and `round`. The score is an
  opaque input, and the report carries the rounded score as given.
- `aggregate_signals`: a provider value that `float()` converts is taken as that real
  number. The CoinGecko and CoinMarketCap replies themselves are not kept in the result.
- ApiRetry.Run: a 200 answer whose body is not JSON is retried after 5 s, as requests 2.27
  and later behave, since their decoding error is a `RequestException`. With older versions
  of requests the error escapes `_make_api_request`; that case is not modelled.
- TokenFilter.Lower: lower-cases ASCII letters only. Python's `str.lower` also folds
  non-ASCII letters.
- `last_signals` and the `min_liquidity` setting are never read by the source.
- test_connection.py, test_main.py and simple_test.py are ad-hoc scripts with no
  reusable logic.
