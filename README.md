# Orion screening core in Dafny

Orion screens stocks for the "option for income" strategy. A strategy is a YAML document of weighted entry conditions (trend, oversold, bounce, price, volume) together with option-screening parameters. For each symbol the screener does the following:

1. It fetches a quote and a year of daily bars from a data provider.
2. It computes technical indicators and evaluates every condition.
3. When all conditions hold, it looks for the at-the-money put with the best annualised premium yield among the first three expirations inside the days-to-expiry window.

Around that engine the repository has several smaller layers:

- value types with derived properties;
- a strategy-document validator;
- a two-level cache with hit and miss counters;
- e-mail notification settings and gating;
- a serverless entry point that resolves the strategy file and turns results into JSON-ready dictionaries.

This project models that core and proves its contracts. Each source file has its own module.

**Pure code.** Code that only computes is written as functions with lemmas:

- `Patterns`, `MarketData`, `StrategyModels`;
- the checks in `Evaluator`;
- `StrategyParser`, `NotificationModels`, `Notifications`, `LambdaHandler`.

**Stateful code.** Code that changes state step by step is written as methods with loops. Each method is proved equal to a specification function, and the lemmas are stated about that function:

- `RuleEvaluation.Evaluate` is the evaluation loop.
- `Evaluator.RsiWasBelow` is the backward RSI scan with its early return.
- In `OptionAnalyzer`:
  - `FindAtmPuts` uses an in-place stable insertion sort on an array.
  - `FilterByDte` is the filter loop.
  - `FindBestOpportunity` and `AnalyzeAllExpirations` are the argmax loops.
- In `Screener`:
  - `ScreenSymbol` is the pipeline with its early returns.
  - `FetchChains` is the chain loop.
  - `ScreenBatch` and `ScreenAndFilter` are the sequential batch.
- `StrategyParser.ParseConditions` is the condition loop.

**The cache.** `Cache.CacheManager` is a class. Its fields are the map of per-type maps and the three counters. Every method is tied to a step function on a `CacheState` value, and the cache's properties are lemmas about those step functions.

**Shared helpers.**

- Python's dynamic values (YAML scalars, lists and dicts, and condition parameters) are `PyData.Value`. They carry Python's truthiness, and comparisons raise a TypeError on non-numbers.
- Generic filtering and stable sorting are in `Seqs` and `Sorting`.
- The string functions the core relies on (`split`, `join`, `strip`, `lower`, `int()`) are in `Text`.

**External code.** Whatever lies outside the core is a parameter:

- the data provider: a record of functions that return a value or the message of the exception raised;
- the indicator calculator;
- the file system and the configuration loader;
- the screening run the handler starts;
- clock readings, and float rounding.

Dates are day numbers. Prices are exact reals.

## Model

| member | source | states |
|---|---|---|
| Patterns.MaxHigh | src/orion/analysis/patterns.py:136 | the value is a high of the window and no high of the window exceeds it |
| Patterns.MinLow | src/orion/analysis/patterns.py:137 | the value is a low of the window and no low of the window is below it |
| Patterns.EffectiveLookback | src/orion/analysis/patterns.py:118-130 | a lookback that is used never exceeds len-1; None takes the default; a request not fitting the history is clamped |
| Patterns.BounceWindow | src/orion/analysis/patterns.py:133 | the comparison window is strictly shorter than the history |
| Patterns.DetectBounceDetailed | src/orion/analysis/patterns.py:100-162 | fewer than two bars raise the ValueError; a result has lookback_used ≤ len-1 and the last bar's high and low |
| Patterns.DetectBounce | src/orion/analysis/patterns.py:69-98 | succeeds exactly when the detailed check does, with its is_bounce flag |
| Patterns.BounceNeedsTwoBars | src/orion/analysis/patterns.py:120-122 | fewer than two bars raise whatever the lookback |
| Patterns.BounceLookbackClamped | src/orion/analysis/patterns.py:124-133 | an int lookback k ≥ 1 uses min(k, len-1), and the window is exactly that many bars just before the last |
| Patterns.BounceInfiniteLookback | src/orion/analysis/patterns.py:124-133 | an infinite lookback uses all len-1 earlier bars |
| Patterns.BounceCharacterized | src/orion/analysis/patterns.py:132-143 | bounce iff the last high is strictly above every window high and the last low strictly above the window's lowest low; equal values give no bounce |
| Patterns.BounceIgnoresOlderBars | src/orion/analysis/patterns.py:133 | prepending older bars does not change the detailed result |
| Patterns.WindowIgnoresOlder | src/orion/analysis/patterns.py:133 | when the lookback fits the history, prepending older bars leaves the comparison window unchanged |
| Patterns.SumVolume | src/orion/analysis/patterns.py:210 | the total of non-negative volumes is non-negative |
| Patterns.VolumeWindow | src/orion/analysis/patterns.py:198-209 | the averaging window never contains the last bar |
| Patterns.ConfirmVolumeWithPeriod | src/orion/analysis/patterns.py:194-212 | an empty list raises the ValueError; a single bar divides by zero |
| Patterns.ConfirmVolume | src/orion/analysis/patterns.py:164-231 | the same two error cases with the default period of 20 |
| Patterns.VolumeWindowExact | src/orion/analysis/patterns.py:198-210 | with a positive period the window is exactly the last min(period, len-1) bars before the last |
| Patterns.ConfirmVolumeRatio | src/orion/analysis/patterns.py:212-220 | a zero average gives false without dividing; otherwise confirmed iff current/avg ≥ threshold, inclusive |
| Patterns.ConfirmVolumeBadThreshold | src/orion/analysis/patterns.py:212-220 | a non-numeric threshold raises only when the average is non-zero |
| Patterns.DetectBounceWithVolume | src/orion/analysis/patterns.py:233-265 | succeeds iff both checks succeed, its value is their conjunction, and a bounce error propagates |
| Evaluator.OrZero | src/orion/strategies/evaluator.py:196-197 | `x or 0` is always a finite number |
| Evaluator.CheckTrend | src/orion/strategies/evaluator.py:183-221 | "sma_20 > sma_60" compares strictly with missing SMAs read as 0; "is_bullish" is the indicator predicate; any other rule is a miss with a reason |
| Evaluator.RsiHit | src/orion/strategies/evaluator.py:278-291 | a window can only hit at an index with at least 15 bars in its prefix |
| Evaluator.RsiWasBelow | src/orion/strategies/evaluator.py:277-291 | the backward loop with early return computes the scan function |
| Evaluator.RsiScanFirstHit | src/orion/strategies/evaluator.py:277-291 | the scan finds nothing iff no window in range hits, and otherwise the highest hitting index |
| Evaluator.RsiScanIgnoresLaterBars | src/orion/strategies/evaluator.py:279 | bars after the scan's start index never affect it |
| Evaluator.RsiLookback | src/orion/strategies/evaluator.py:270-275 | a non-numeric lookback_days raises; with a non-negative history room a successful int lookback is non-negative |
| Evaluator.RsiStop | src/orion/strategies/evaluator.py:277 | `max(room - lookback - 1, 0)` as `range` gets it: an int lookback gives the clipped int, a float one gives the int 0 when the difference is negative and a TypeError otherwise, a non-number raises; a successful stop is non-negative and never below room - lookback - 1 |
| Evaluator.CheckRsiWasBelow | src/orion/strategies/evaluator.py:262-297 | fewer than 15 bars is a miss reporting the data points; with enough bars a non-numeric lookback_days raises TypeError; a match needs at least 15 bars; results are well formed |
| Evaluator.RsiFloatLookback | src/orion/strategies/evaluator.py:270-277 | a float lookback_days raises exactly when it is positive and at least one bar below the room; within one bar of the room the whole history is scanned down to index 1 |
| Evaluator.RsiVerdict | src/orion/strategies/evaluator.py:293-308 | the verdict matches iff the scan found a window |
| Evaluator.CheckOversold | src/orion/strategies/evaluator.py:223-314 | parameters that are not a dict raise; every result is well formed |
| Evaluator.RsiBelowDefault | src/orion/strategies/evaluator.py:243-260 | with no parameters the threshold is 30 and a missing RSI is a miss |
| Evaluator.IsOversoldDelegates | src/orion/strategies/evaluator.py:299-308 | "is_oversold" agrees with the indicator predicate at the given threshold |
| Evaluator.RsiWasBelowMatch | src/orion/strategies/evaluator.py:264-291 | a match needs at least 29 bars and comes from the newest hitting window above the scan's stop, which never lies below room - lookback - 1 |
| Evaluator.RsiScanMatch | src/orion/strategies/evaluator.py:277-289 | a hit of the downward scan is the newest hitting window inside the scanned range, and it needs at least 29 bars |
| Evaluator.RsiWasBelowIgnoresNewest | src/orion/strategies/evaluator.py:277-281 | the 14 newest bars never influence rsi_was_below |
| Evaluator.CheckBounce | src/orion/strategies/evaluator.py:316-360 | fewer than two bars is a miss; a match needs the bounce rule and two bars |
| Evaluator.CheckPrice | src/orion/strategies/evaluator.py:362-396 | an unknown rule is a miss with a reason; results are well formed |
| Evaluator.PriceBoundsInclusive | src/orion/strategies/evaluator.py:374-390 | min_price and max_price are inclusive, with defaults 0 and infinity |
| Evaluator.CheckVolume | src/orion/strategies/evaluator.py:398-447 | an unknown rule is a miss; volume_spike succeeds iff the parameters are a dict, because errors of the test become a miss |
| Evaluator.MinVolumeInclusive | src/orion/strategies/evaluator.py:414-424 | min_volume is inclusive |
| Evaluator.EvaluateCondition | src/orion/strategies/evaluator.py:135-181 | an unknown type is a miss with a reason; results are well formed |
| Evaluator.UnknownRuleIsMiss | src/orion/strategies/evaluator.py:217-221 | an unknown rule of a known type is a miss with a reason and does not raise (given dict parameters for oversold and bounce, and two bars for bounce, which those checks read first) |
| RuleEvaluation.Outcomes | src/orion/strategies/evaluator.py:70-77 | one check outcome per condition, in strategy order |
| RuleEvaluation.Evaluate | src/orion/strategies/evaluator.py:44-133 | the loop's result is the evaluation function |
| RuleEvaluation.KindsWhere | src/orion/strategies/evaluator.py:79-102 | the met or missed list is never longer than the outcomes |
| RuleEvaluation.ReferenceAppend | src/orion/strategies/evaluator.py:70-102 | one more outcome extends exactly one list and the sums by its weight |
| RuleEvaluation.TallyIsPartition | src/orion/strategies/evaluator.py:70-106 | the accumulators equal the reference definitions: met and missed types in order, total weight and matched weight |
| RuleEvaluation.KindsWherePartition | src/orion/strategies/evaluator.py:70-106 | \|met\| + \|missed\| = number of conditions; met is complete iff every condition hit |
| RuleEvaluation.EvaluationSpec | src/orion/strategies/evaluator.py:66-112 | partition in order, the all-must-match gate ignores weights, strength = matched weight / total or 0 |
| RuleEvaluation.MatchedWeightBounded | src/orion/strategies/evaluator.py:70-81 | with non-negative weights 0 ≤ matched weight ≤ total weight |
| RuleEvaluation.SignalStrengthBounded | src/orion/strategies/evaluator.py:112 | with non-negative weights the strength lies in [0, 1] |
| RuleEvaluation.UnitWeightSums | src/orion/strategies/evaluator.py:70-81 | unit weights sum to N and the matched ones to \|met\| |
| RuleEvaluation.UnitWeightsGiveFraction | src/orion/strategies/evaluator.py:112 | with unit weights the strength is \|met\|/N |
| RuleEvaluation.DetailsStep | src/orion/strategies/evaluator.py:82-106 | each condition writes its own type's details entry |
| RuleEvaluation.DetailsKeys | src/orion/strategies/evaluator.py:82-106 | details hold exactly one entry per occurring condition type |
| RuleEvaluation.DetailsLastWins | src/orion/strategies/evaluator.py:82-106 | a later duplicate type overwrites an earlier one |
| RuleEvaluation.ErrorRecordedAsMissed | src/orion/strategies/evaluator.py:95-106 | a raising check is filed as missed with an error entry, and the loop goes on |
| MarketData.Abs | src/orion/data/models.py:118 | the absolute value is non-negative and equals x or -x |
| MarketData.NewQuote | src/orion/data/models.py:25-32 | change = price − previous close and change_percent = (price−prev)/prev·100 when prev is non-zero and they were not supplied; supplied values are kept |
| MarketData.MidPriceAndSpread | src/orion/data/models.py:56-63 | the mid lies half a spread above the bid and below the ask, and between them when bid ≤ ask |
| MarketData.IsLiquidThresholds | src/orion/data/models.py:66-68 | liquid iff volume ≥ 10 and open interest ≥ 100, inclusive |
| MarketData.Strikes | src/orion/data/models.py:84 | the strikes of the contracts, in order |
| MarketData.ClosestStrike | src/orion/data/models.py:85-89 | a strike of the list that no other strike beats: closer, or as close and lower |
| MarketData.GetAtmStrikeSpec | src/orion/data/models.py:82-89 | the underlying price with no strikes; otherwise the closest strike over calls and puts, the lower on ties |
| MarketData.FirstPutAt | src/orion/data/models.py:93-95 | the index of the first put at the strike, or None when no put has it |
| MarketData.GetAtmPut | src/orion/data/models.py:91-95 | the first put at the ATM strike, or None iff no put has that strike |
| MarketData.BodyWithinRange | src/orion/data/models.py:111-118 | for a bar whose open and close lie within its low and high, the body size lies between 0 and the price range |
| MarketData.MeetsScreenerCriteriaSpec | src/orion/data/models.py:150-160 | unset or zero thresholds are ignored; a set threshold is passed exactly by a present, non-zero value at least as large, so a zero value fails even a negative threshold; the two thresholds are checked independently |
| MarketData.MeetsScreenerCriteriaMonotone | src/orion/data/models.py:150-160 | lowering a set threshold never turns a pass into a failure |
| MarketData.IndicatorPredicates | src/orion/data/models.py:186-196 | strict comparison, false on missing fields, oversold and overbought exclude each other |
| StrategyModels.DefaultCondition | src/orion/strategies/models.py:27-31 | parameters {}, description "", weight 1.0 |
| StrategyModels.DefaultOptionScreeningValues | src/orion/strategies/models.py:78-84 | the defaults 0.02 / 30 / 7 / 60 / 0.05 / 100 / 500 |
| StrategyModels.NewStrategy | src/orion/strategies/models.py:112-119 | valid iff name, version and conditions present; the checks run name, version, conditions and the first failure is reported |
| StrategyModels.NewStrategyValid | src/orion/strategies/models.py:112-119 | every constructed strategy satisfies the validity predicate |
| OptionAnalyzer.FindAtmPuts | src/orion/strategies/option_analyzer.py:34-75 | the in-place band filter and stable sort compute AtmPuts |
| OptionAnalyzer.AtmPutsSpec | src/orion/strategies/option_analyzer.py:52-65 | price ≤ 0 raises; otherwise exactly the puts in the inclusive band, ordered by distance, stable on ties |
| OptionAnalyzer.PremiumYield | src/orion/strategies/option_analyzer.py:77-125 | days ≤ 0 raises; otherwise yield · price · days = mid · 365 |
| OptionAnalyzer.FilterByLiquidity | src/orion/strategies/option_analyzer.py:127-157 | keeps exactly the contracts with volume ≥ min and open interest ≥ min |
| OptionAnalyzer.FilterByDte | src/orion/strategies/option_analyzer.py:159-194 | the appending loop computes the order-preserving days-to-expiry filter |
| OptionAnalyzer.DteFilterSpec | src/orion/strategies/option_analyzer.py:180-184 | membership iff min ≤ dte ≤ max inclusive, and the filter distributes over concatenation |
| OptionAnalyzer.ArgMax | src/orion/strategies/option_analyzer.py:254-283 | a chosen index is in range |
| OptionAnalyzer.ArgMaxSpec | src/orion/strategies/option_analyzer.py:254-283 | the pick is the first strictly greatest positive score, or none when no score beats 0 |
| OptionAnalyzer.YieldScores | src/orion/strategies/option_analyzer.py:262-279 | one yield score per candidate, in order |
| OptionAnalyzer.FindBestOpportunity | src/orion/strategies/option_analyzer.py:196-312 | the loop computes BestOpportunity |
| OptionAnalyzer.CandidatesSpec | src/orion/strategies/option_analyzer.py:224-251 | candidates are exactly the puts surviving band, window and liquidity |
| OptionAnalyzer.BestOpportunitySpec | src/orion/strategies/option_analyzer.py:218-283 | None for a price ≤ 0 or no survivor; a recommendation's yield is ≥ the minimum, > 0 and maximal among survivors |
| OptionAnalyzer.FirstBestWins | src/orion/strategies/option_analyzer.py:266 | on a tie the first candidate seen wins |
| OptionAnalyzer.ChainScores | src/orion/strategies/option_analyzer.py:330-345 | one score per chain: the yield of its recommendation |
| OptionAnalyzer.AnalyzeAllExpirations | src/orion/strategies/option_analyzer.py:314-347 | the loop computes BestAcrossExpirations |
| OptionAnalyzer.BestAcrossExpirationsSpec | src/orion/strategies/option_analyzer.py:330-347 | None iff no chain yields a recommendation; otherwise the strictly greatest yield, first chain on ties |
| Screener.NewStockScreener | src/orion/core/screener.py:105-129 | defaults max_concurrent 5 and historical_days 252 |
| Screener.ConditionTypes | src/orion/core/screener.py:154 | the condition types in strategy order |
| Screener.Take | src/orion/core/screener.py:214 | at most n items, and no more than there are |
| Screener.ChainsFor | src/orion/core/screener.py:214-226 | no more chains than expirations |
| Screener.FetchChains | src/orion/core/screener.py:213-226 | the loop that skips missing and failing chains computes ChainsFor |
| Screener.ChainsForSpec | src/orion/core/screener.py:214-226 | every kept chain was fetched for a listed expiration, and every successful fetch is kept |
| Screener.ScreenSymbol | src/orion/core/screener.py:131-293 | the step-by-step pipeline computes ScreenResult |
| Screener.ScreenResultShape | src/orion/core/screener.py:146-293 | an error means no match, zero strength, all types missed in order; a match means no error; a recommendation only after a match |
| Screener.ScreenResultFailures | src/orion/core/screener.py:146-185 | no quote, an exception and fewer than 60 bars each give their terminal result and message |
| Screener.ScreenResultSuccess | src/orion/core/screener.py:186-273 | no error iff quote, ≥ 60 bars and indicators were obtained; the result then carries the evaluation and an option stage only after a match |
| Screener.BestOfFetched | src/orion/core/screener.py:228-235 | a recommendation is the best opportunity of one of the fetched chains |
| Screener.OptionStageSpec | src/orion/core/screener.py:194-249 | a recommendation comes from a chain fetched for one of the first three expirations within the window |
| Screener.SuccessRateBounds | src/orion/core/screener.py:76-81 | 0 for an empty run, within [0, 100], 100 iff all succeeded, rate · total = successful · 100 |
| Screener.ScreenBatch | src/orion/core/screener.py:322-339 | one result per symbol, each the symbol's screen result |
| Screener.ScreenAndFilter | src/orion/core/screener.py:341-383 | the returned matches and statistics are the summary of the batch's per-symbol screen results |
| Screener.SummarizeSpec | src/orion/core/screener.py:352-371 | successful + failed = total; matches ≤ successful; matches are exactly the matching results; counts are invariant under reordering |
| StrategyParser.ParseErrorMessage | src/orion/strategies/parser.py:27-43 | the prefixed message, with the file appended when one is known |
| StrategyParser.MissingFields | src/orion/strategies/parser.py:148-149 | exactly the required fields that are absent; empty iff all four are present |
| StrategyParser.MissingNameFirst | src/orion/strategies/parser.py:148-156 | a missing name is reported first |
| StrategyParser.RealOf | src/orion/strategies/parser.py:261-268 | a float field accepts exactly the finite numbers |
| StrategyParser.IntOf | src/orion/strategies/parser.py:261-268 | an int field accepts exactly ints and bools |
| StrategyParser.ParseStockCriteria | src/orion/strategies/parser.py:199-210 | fails iff the section is not a dict, with the AttributeError; an empty dict gives the defaults; each of the eight fields is the given value, or the dataclass default when its key is absent |
| StrategyParser.ParseOptionScreeningSpec | src/orion/strategies/parser.py:257-269 | a non-dict raises; an empty dict gives the defaults; a dict holding only an int min_dte changes only that field; max_dte is the given int or 60 |
| StrategyParser.ParseOptionScreeningFields | src/orion/strategies/parser.py:257-269 | a dict section parses exactly when both float fields hold finite numbers and the five int fields hold ints; each of the seven fields is then the given value, or its default when absent; a failure is `Unsupported` |
| StrategyParser.ParseCondition | src/orion/strategies/parser.py:218-247 | not a dict, then missing type, then missing rule, each with the index; otherwise the fields with defaults |
| StrategyParser.ParseConditionDefaults | src/orion/strategies/parser.py:240-246 | type and rule alone give parameters {}, description "", weight 1.0 |
| StrategyParser.ParseConditions | src/orion/strategies/parser.py:216-247 | the loop with early error return computes ParseConditionList |
| StrategyParser.ParseConditionListPrefixError | src/orion/strategies/parser.py:218-238 | an error in a prefix is the error of the whole list |
| StrategyParser.ParseConditionListSpec | src/orion/strategies/parser.py:216-247 | success keeps order and length pointwise; an error is that of the first failing index |
| StrategyParser.ParseEntryConditions | src/orion/strategies/parser.py:212-255 | the method computes EntryConditions |
| StrategyParser.EntryConditionsSpec | src/orion/strategies/parser.py:216-253 | an empty list raises "at least one entry condition"; a non-iterable raises a TypeError |
| StrategyParser.ParseDataSpec | src/orion/strategies/parser.py:134-197 | missing fields are reported in order before anything else; success is a valid strategy with the given fields and defaults; a construction error is wrapped |
| StrategyParser.ResolvePath | src/orion/strategies/parser.py:125-132 | absolute paths and paths without a strategies directory are unchanged; others are joined under it |
| Cache.InitialState | src/orion/data/cache.py:23-64 | the four initial types (quote, historical, options, overview) hold empty maps, and all counters are 0 |
| Cache.MakeKeySingle | src/orion/data/cache.py:73-75 | a single-part key is type:key, and different keys give different cache keys |
| Cache.WithCache | src/orion/data/cache.py:66-71 | an unknown type gets a fresh empty map; the other caches are unchanged |
| Cache.DisabledIsInert | src/orion/data/cache.py:87-196 | when disabled, get returns None and get, set and invalidate change nothing |
| Cache.SetThenGet | src/orion/data/cache.py:90-138 | set then get returns the value and counts one hit |
| Cache.GetMiss | src/orion/data/cache.py:94-112 | an absent or None entry returns None and counts one miss |
| Cache.SetIsolated | src/orion/data/cache.py:134-138 | set changes no other (type, key) entry |
| Cache.UnknownTypeFresh | src/orion/data/cache.py:66-71 | get on an unknown type creates it empty and misses |
| Cache.InvalidateSpec | src/orion/data/cache.py:188-215 | invalidating a key removes only it; invalidating a type clears only it; counters unchanged |
| Cache.ClearAllSpec | src/orion/data/cache.py:217-228 | every cache empties and hits, misses and errors reset to 0 |
| Cache.GetOrFetchSpec | src/orion/data/cache.py:153-186 | a cached non-None value returns without calling fetch; a miss fetches, stores and returns it; a fetch error propagates |
| Cache.CacheManager.constructor | src/orion/data/cache.py:23-44 | the state is the initial state |
| Cache.CacheManager.GetCache | src/orion/data/cache.py:66-71 | returns the type's cache, creating an empty one |
| Cache.CacheManager.Get | src/orion/data/cache.py:77-121 | the new state and the value are the get step's |
| Cache.CacheManager.Set | src/orion/data/cache.py:123-151 | the new state is the set step's |
| Cache.CacheManager.GetOrFetch | src/orion/data/cache.py:153-186 | the new state, the result and whether fetch was called are the get-or-fetch step's |
| Cache.CacheManager.Invalidate | src/orion/data/cache.py:188-215 | the new state is the invalidate step's |
| Cache.CacheManager.ClearAll | src/orion/data/cache.py:217-228 | the new state is the clear-all step's |
| Cache.CacheManager.GetStats | src/orion/data/cache.py:230-248 | total = hits + misses; hit_rate = hits/total in [0, 1], or 0 with no requests; a size per type |
| NotificationModels.NewConfig | src/orion/notifications/models.py:21-35 | the default recipient set becomes an empty list; given fields are kept |
| NotificationModels.IsValidSpec | src/orion/notifications/models.py:72-86 | valid iff enabled with host, sender and recipients non-empty; the default configuration is not valid |
| NotificationModels.StripAll | src/orion/notifications/models.py:55 | each part stripped, in order |
| NotificationModels.DefaultPortParses | src/orion/notifications/models.py:63 | "587" reads as 587 |
| NotificationModels.FromEnvDefaults | src/orion/notifications/models.py:51-70 | an empty environment gives the defaults |
| NotificationModels.FromEnvEnabled | src/orion/notifications/models.py:51-65 | enabled iff NOTIFICATIONS_ENABLED lower-cased is "true"; unset means disabled and TLS on |
| NotificationModels.FromEnvPort | src/orion/notifications/models.py:63 | a non-integer port raises; a rendered integer port reads back |
| NotificationModels.StrippedPiece | src/orion/notifications/models.py:55 | a non-empty stripped comma-free piece is a well-formed address |
| NotificationModels.RecipientsShape | src/orion/notifications/models.py:53-58 | every recipient is non-empty, unpadded and comma-free |
| NotificationModels.RecipientsOfJoin | src/orion/notifications/models.py:53-58 | well-formed addresses joined with commas read back in order |
| NotificationModels.JoinNonEmpty | src/orion/notifications/models.py:53-58 | joining with a non-empty first part is non-empty |
| Notifications.SendAlert | src/orion/notifications/service.py:48-100 | sent iff enabled, matching and the send returned true; nothing is sent when disabled or not matching |
| Notifications.SummaryIgnoresDisabled | src/orion/notifications/service.py:122-148 | a disabled configuration with two matches still reports 2 sent |
| Notifications.SendBatchAlertsSpec | src/orion/notifications/service.py:102-148 | 0 for empty input, no matches or disabled; one match counts 1 iff its alert went out; several count all on a successful summary send |
| Notifications.StrengthColorBands | src/orion/notifications/service.py:445-450 | green from 0.8, orange from 0.5, red below, monotone in strength |
| LambdaHandler.FirstExistingSpec | src/orion/lambda_handler.py:76-82 | the first existing candidate wins; with none, the fallback |
| LambdaHandler.GetStrategyPathSpec | src/orion/lambda_handler.py:53-82 | without a strategy, the deployed default if it exists, else the local one; otherwise the first existing of the dotted path, /opt/strategies/s, the two .yaml places, else the default |
| LambdaHandler.GetStrategyPathExists | src/orion/lambda_handler.py:53-82 | the path is existing or one of the two defaults |
| LambdaHandler.NullableNumbers | src/orion/lambda_handler.py:155-181 | a zero or missing number and only that becomes null; others read back |
| LambdaHandler.ReadStrList | src/orion/lambda_handler.py:150-151 | a serialized string list reads back as itself |
| LambdaHandler.SerializeScreeningResultSpec | src/orion/lambda_handler.py:136-208 | exactly ten keys; symbol, flag, strength, lists and error carried over; each sub-object null iff absent |
| LambdaHandler.SerializedNumbers | src/orion/lambda_handler.py:152-185 | inside quote and indicators a zero or missing number is null and any other reads back |
| LambdaHandler.SymbolsFallbackUnreachable | src/orion/lambda_handler.py:344-347 | after the first guard the fallback leaves the symbols unchanged |
| LambdaHandler.HandlerSymbols | src/orion/lambda_handler.py:330-354 | empty symbols give 400 before anything is loaded; DEFAULT_SYMBOLS never changes the answer; "No symbols to screen" is never returned |
| LambdaHandler.HandlerStatus | src/orion/lambda_handler.py:336-422 | 400 iff no symbols; 404 iff the strategy file is missing; 200 iff every stage succeeded; errors have only an error key |
| LambdaHandler.HandlerNotify | src/orion/lambda_handler.py:333-334 | screening is only asked with notify and not dry_run; defaults give true; a dry run returns no matches |
| LambdaHandler.HandlerSuccessBody | src/orion/lambda_handler.py:408-422 | the body reports the stats' matches and duration, the number of symbols and the response clock |
| Sorting.SortInPlace | src/orion/strategies/option_analyzer.py:65 | the in-place insertion sort computes the functional stable sort |
| Sorting.SortBySortedPermutation | src/orion/strategies/option_analyzer.py:65 | the sort is ordered by key and a permutation |
| Sorting.SortByStable | src/orion/strategies/option_analyzer.py:65 | elements with equal keys keep their relative order |
| Seqs.FilterMembers | src/orion/strategies/option_analyzer.py:143-147 | a filter keeps exactly the members that satisfy the test |
| Seqs.FilterLengthPermutation | src/orion/core/screener.py:356-358 | filter counts do not depend on order |
| Text.SplitJoin | src/orion/notifications/models.py:55 | splitting a separator-joined list of separator-free parts gives the parts |
| Text.JoinSplit | src/orion/notifications/models.py:55 | joining the split parts gives the string back |
| Text.Strip | src/orion/notifications/models.py:55 | the result is a contiguous slice of the input that neither starts nor ends with whitespace |
| Text.StripCutsOnlySpace | src/orion/notifications/models.py:55 | everything cut off on either side is whitespace |
| Text.LowerIsTrue | src/orion/notifications/models.py:51 | lower-casing gives "true" iff the string is "true" in any case mix |
| Text.ParseIntOfIntToString | src/orion/notifications/models.py:63 | `int()` reads back every rendered integer |
| PyData.Get | src/orion/strategies/evaluator.py:242-243 | `.get` raises on a non-dict and otherwise returns the entry or the default |
| PyData.ComparisonsOnFinite | src/orion/strategies/evaluator.py:248 | on numbers Python's comparisons are the real ones |
| PyData.SliceBeforeLast | src/orion/analysis/patterns.py:133 | `s[-k-1:-1]` is the k elements before the last |

## Left out

- The data providers, the indicator calculator, YAML loading, file and directory access, the configuration loader and SMTP are parameters of the model, not modelled:
  - The provider is a record of functions, and the calculator is a function.
  - `get_strategy_path` takes a file-existence predicate.
  - The handler takes a `Runtime` bundling the loader results, the screening run, the clock and rounding.
- The prose of the e-mails is not modelled: the HTML and text builders and the `EmailMessage` construction are out of scope. Only the sending decision is modelled, and building plus sending is one abstract outcome.
- `_build_reason` string formatting in the option analyzer and the f-string reasons of the condition checks are kept as structured `Rationale` and `Reason` values.
- Concurrency in the screener (the semaphore, `asyncio.gather` and queue draining) is left out. The batch is a sequential loop in input order. The statistics are proved invariant under any reordering of the results, which covers the order being unspecified.
- Clocks: `date.today()` and each `datetime.now()` reading are parameters. One reading serves as the timestamp of every result of a batch.
- The cache's TTL expiry and maxsize eviction are left out; the maps are plain maps. The `errors` counter is modelled, but no modelled operation raises, so it only changes in `clear_all`.
- `Text.Lower` folds ASCII letters only. `Text.ParseInt` accepts an optional sign, ASCII digits, digit-group underscores and surrounding whitespace. Python's `int()` also accepts other Unicode digits.
- `_resolve_path` works on strings: a path is absolute when it starts with "/", and no normalisation is done.
- Logging everywhere, and the rounding in `serialize_stats`, are left out. Rounding is a parameter `round2`.
- `json.dumps` is left out. The handler's body stays a dictionary of values.
- `isoformat()` of dates is a parameter.
- StrategyParser.ParseCondition: `type` and `rule` must be strings and `weight` a finite number. Python would store any value there, so the model answers `Unsupported(field)` where the source would carry on.
- StrategyParser.ParseOptionScreening: an infinite or non-numeric option-screening parameter, and a non-integral number (such as `min_dte: 7.5`) in one of the five int fields (target_dte, min_dte, max_dte, min_volume, min_open_interest), is `Unsupported` and fails the whole parse, while Python stores the value as given; the fields are typed `real` and `int`, so such values cannot be carried into the option analysis.
- LambdaHandler.StrategyPathOf: a truthy list or dict as the event's strategy is a 500 "Strategy load failed" error. Python would only fail there when the formatted path cannot be opened.
- LambdaHandler.Handler: `load_notification_config` and the notification branch of `run_screening` belong to the screening-run parameter. `get_data_provider` is likewise left out.
- Infrastructure code, the demo script and the package `__init__` files are not part of this model.

## Findings

| source | as written | input that shows it | evidently intended | confidence | as-written member | corrected member |
|---|---|---|---|---|---|---|
| src/orion/notifications/service.py:122-148 (versus 57-62) | with two or more matches `send_batch_alerts` sends the summary e-mail without asking `is_enabled()` | the default (disabled) configuration, two matching results, the summary send succeeding: it reports 2 alerts sent | the enabled check of `send_alert` also guards the summary path, so a disabled service sends nothing | medium, not executed | Notifications.SendBatchAlertsAsWritten, shown by Notifications.SummaryIgnoresDisabled | Notifications.SendBatchAlerts, specified by Notifications.SendBatchAlertsSpec |
