# Quant Oracle — a Dafny model of the Genesis Drift signal pipeline

Quant Oracle reads OHLCV bars of a crypto pair and derives from them:

- **The equilibrium Z'.** This is a rolling volume-weighted typical price. The
  oracle then measures the deviation of the close from it, and scales that
  deviation by a rolling standard deviation to get E, measured in sigmas.
- **A spectral phase.** A rolling FFT of the detrended closes gives a phase.
  From the phase and the dominant period the oracle derives the time to the
  next reversal, T_reversal.
- **A per-bar signal.** A bar is BUY or SELL when both gates pass: |E| is
  beyond a sigma threshold, and the reversal is near. Otherwise it is HOLD.
  Each signal carries a confidence that comes from volume.

On top of that pipeline the repository adds:

- trend and regime context that raises or lowers the confidence;
- a backtest of forward returns and of the predicted reversal times;
- multi-timeframe confluence, both unweighted and weighted;
- an entry-zone analyser: sigma bands, long and short price ladders, and the
  quality of a proposed entry;
- a five-state "Genesis Drift" vocabulary;
- a rule-based action planner with a per-symbol trade log;
- a simplified API wrapper;
- a validator of the configuration constants.

This project models each of these as Dafny, one module per source file:

| module | source file |
|---|---|
| `Oracle` | `backend/oracle.py` |
| `Trend` | `backend/trend_analysis.py` |
| `Backtest` | `backend/backtest.py` |
| `MultiTimeframe` | `backend/multi_timeframe.py` |
| `ApiWrapper` | `backend/api_wrapper.py` |
| `Entry` | `backend/entry_analyzer.py` |
| `Vocabulary` | `backend/genesis_vocabulary.py` |
| `Advisor` | `backend/advanced_llm_analyzer.py` |
| `Config` | `backend/config.py` |

Two further modules are shared: `Base` holds options, results and sums, and
`Stats` holds mean, median, sorting and their bounds.

How values are represented:

- Prices are exact `real`s, and a pandas NaN is `Option.None`.
- A DataFrame column is a `seq`.
- A loop that fills a column bar by bar becomes a `method` with a `while` loop.
  Its `ensures` ties every cell to a specification function of the inputs.
- The trade log is a `class` whose map of per-symbol lists is updated in place.

Three computations need square roots, polynomial fits or transcendental
functions. The model takes them as parameters:

- the sample standard deviation (`stdev`, ddof = 1);
- the FFT of a window (`fft`, which gives the dominant frequency, the phase in
  turns and the magnitude);
- the rolling regression slope (`lrSlope`).

The rolling volatility of returns and its 75th percentile are input columns
(`volatility`, `q75`). Phases are carried in turns (the angle divided by 2π),
so that no π is needed.

### Behaviour of the code as written

- **E is never undefined.** The code falls back to 0.0 whenever Sigma is
  undefined or below 1e-10, so warm-up bars carry E = 0.0 rather than NaN.
  `Oracle.WarmUpBarsAreFlat` and `Oracle.WarmUpBarsHold` state this.
- **The trend consensus has only two outcomes.** It is Uptrend or Downtrend and
  never Sideways.
- **Timeframe weights come from a fixed table.** For example, 1h weighs 5, 4h
  weighs 7 and 1d weighs 10. So two lower-timeframe BUYs outvote one daily
  SELL (`MultiTimeframe.HigherTimeframesOutvoted`).
- **The volume ratio is read on two different scales.** The oracle stores it as
  a plain ratio and calls a bar High confidence above 1.0. The vocabulary and
  the planner read the same column as a percentage and confirm only above 100.
  The model keeps both as written, and `Vocabulary.VolumeScalesDisagree`
  exhibits the mismatch.
- **One comparison in the oracle is strict, two elsewhere are not.** The
  per-bar signal uses a strict |E| > threshold. The entry analyser and the
  vocabulary use a non-strict |E| >= threshold. `Entry.ThresholdIsInclusive`
  shows a bar at exactly the threshold that gets a side from the entry
  analyser but HOLD from the oracle.

## Model

| member | source | states |
|---|---|---|
| Oracle.CalculateVwapAndDeviation | backend/oracle.py:48-86 | one equilibrium record (Z', deviation, Sigma, E) per bar |
| Oracle.ZPrimeWithinTypicalRange | backend/oracle.py:58-69 | with a positive window volume, Z' times the volume sum is the volume-weighted typical-price sum, so Z' lies within the window's typical-price range |
| Oracle.ZeroVolumeFallsBackToClose | backend/oracle.py:65-69 | a window without volume makes Z' the close, and the deviation 0 |
| Oracle.WarmUpBarsAreFlat | backend/oracle.py:58-81 | before a full window, Z' is the close, the deviation is 0, Sigma is undefined and E is exactly 0.0 |
| Oracle.EIsScaledDeviation | backend/oracle.py:76-81 | when Sigma > 1e-10, E times Sigma is the deviation and E has its sign; otherwise E is exactly 0.0 |
| Oracle.TpVolumeSumBounds | backend/oracle.py:58-62 | typical prices within [lo, hi] bound the weighted sum by lo and hi times the volume sum |
| Oracle.CycleColumn | backend/oracle.py:118-150 | one optional cycle record per bar |
| Oracle.TReversalWithinPeriod | backend/oracle.py:138-144 | the normalised phase lies in [0, 1) turns, and T_reversal lies in (0, Dominant_Period], equal to the period exactly at phase 0 |
| Oracle.CalculateFftPhase | backend/oracle.py:90-155 | no cycle field before a full window (so none on a series shorter than the period); every later bar holds the cycle of the window ending there |
| Oracle.SignalGates | backend/oracle.py:192-208 | BUY iff eligible, abs(E) > threshold, T_reversal < period times pct and E < 0; SELL likewise with E > 0; the direction matches the signal |
| Oracle.ThresholdBoundaryHolds | backend/oracle.py:192 | abs(E) equal to the threshold never trades, and the deviation gate is false |
| Oracle.ConfidenceFollowsVolume | backend/oracle.py:169-216 | ineligible bars keep every default; on eligible bars the confidence is High iff ratio > 1.0, Low iff ratio <= 1.0, N/A when the ratio is undefined, whatever the signal |
| Oracle.GenerateSignalsRolling | backend/oracle.py:159-221 | every bar's signal columns are the per-bar rule applied to its E, T_reversal, period and volume ratio |
| Oracle.Closes | backend/oracle.py:99 | one close per bar, the price series the FFT reads |
| Oracle.AnalyzedRows | backend/oracle.py:326-328 | one analysed row per bar |
| Oracle.AnalyzeBars | backend/oracle.py:326-328 | running the three steps in turn yields the analysed frame |
| Oracle.WarmUpBarsHold | backend/oracle.py:169-189 | E is always defined in the frame, and every bar before the first full FFT window is HOLD with no direction or confidence |
| Oracle.SpectralFieldsTogether | backend/oracle.py:146-150 | a bar carries Dominant_Freq and Spectral_Power exactly when it carries Dominant_Period, and none of them before a full FFT window |
| Oracle.GenerateSignal | backend/oracle.py:224-273 | INSUFFICIENT_DATA iff the last bar lacks E, T_reversal or the period (then N/A direction and confidence, no threshold and no details); otherwise the last bar's signal, direction and confidence, the given sigma threshold and the last row; the timeframe is always the configured 1h and the symbol is never empty |
| Trend.DirectionalMovementExclusive | backend/trend_analysis.py:44-54 | +DM and -DM are non-negative, never both positive, and a positive one equals its difference |
| Trend.PlusDMColumn | backend/trend_analysis.py:41-48 | one +DM value per bar |
| Trend.MinusDMColumn | backend/trend_analysis.py:50-54 | one -DM value per bar |
| Trend.TrendStrengthRange | backend/trend_analysis.py:65 | for non-negative smoothed movements the strength lies in [0, 100) |
| Trend.UpVotes | backend/trend_analysis.py:68-71 | the number of Uptrend votes is at most 3 |
| Trend.ConsensusIsMajority | backend/trend_analysis.py:68-71 | Uptrend iff at least two votes are Uptrend; the consensus always agrees with two of the three votes |
| Trend.DetectTrend | backend/trend_analysis.py:12-78 | one trend row per bar |
| Trend.DetectTrendVotes | backend/trend_analysis.py:25-62 | the MA vote is Uptrend iff both averages exist and the short one is above; the DM vote iff the DI difference exists and is positive; the consensus is their majority |
| Trend.RollingMeanNonNegative | backend/trend_analysis.py:57-58 | a complete rolling mean of a non-negative column exists and is non-negative |
| Trend.DetectTrendStrength | backend/trend_analysis.py:57-65 | the smoothed movements exist exactly from bar 13 on, are non-negative, and then the strength lies in [0, 100) |
| Trend.PriceRanges | backend/trend_analysis.py:96 | one range per bar |
| Trend.EfficiencyRatio | backend/trend_analysis.py:108-110 | defined exactly from bar volatility_period on, and never negative |
| Trend.RegimeRules | backend/trend_analysis.py:113-126 | Unknown iff an input is undefined; Volatile iff volatility exceeds the percentile; otherwise Trending iff efficiency > 0.5, else Ranging |
| Trend.DetectMarketRegime | backend/trend_analysis.py:81-135 | one regime per bar, Unknown for the first volatility_period bars |
| Trend.QualityFollowsContext | backend/trend_analysis.py:146-176 | High quality iff mean-reversion-favourable or trend-aligned; Low iff counter-trend or volatile; HOLD bars and bars without T_reversal stay Neutral/Medium |
| Trend.InterpretPhaseWithTrend | backend/trend_analysis.py:138-181 | every bar's context and quality follow the table from its signal, T_reversal, trend and regime |
| Trend.ConsistencyLooksBackOnly | backend/trend_analysis.py:193-194 | the score at bar i depends only on the periods of bars i-lookback .. i-1 |
| Trend.ConsistencyWithinRange | backend/trend_analysis.py:196-201 | for positive periods the score lies in [0, 100] |
| Trend.ConsistencyScore | backend/trend_analysis.py:194-202 | one bar's score is the clamped coefficient-of-variation score of the defined periods in its window |
| Trend.CalculateCycleConsistency | backend/trend_analysis.py:184-206 | every bar's consistency is the specified score, undefined before the lookback |
| Trend.AdjustmentIsOneTier | backend/trend_analysis.py:229-246 | HOLD bars and N/A never change; otherwise at most one tier, down only from High on Low quality, up only on High quality with consistency > 70 |
| Trend.AdjustConfidence | backend/trend_analysis.py:229-246 | every bar's new confidence is the one-tier adjustment of its old one |
| Trend.EnhanceSignalWithContext | backend/trend_analysis.py:209-250 | every row keeps its columns except the adjusted confidence, and carries its trend, regime, context, quality and consistency |
| Backtest.ForwardReturn | backend/backtest.py:24-26 | undefined exactly for the last p bars |
| Backtest.ForwardReturnIsGrowth | backend/backtest.py:24-26 | a defined return r carries close[t] to close[t+p] = close[t] times (1 + r/100) |
| Backtest.ForwardReturnExample | backend/backtest.py:24-26 | a fall from 100 to 90 is a -10% return, and the last bars have none |
| Backtest.SignalReturns | backend/backtest.py:66-76 | at most one oriented return per bar |
| Backtest.Negated | backend/backtest.py:72-76 | every element negated |
| Backtest.SellReturnsAreNegatedBuyReturns | backend/backtest.py:72-76 | the SELL sample is the negated BUY sample of the same bars with the labels swapped |
| Backtest.HorizonStatsOrdered | backend/backtest.py:78-84 | worst <= median <= best, worst <= mean <= best, the win rate is a percentage, and worst and best are sample values |
| Backtest.RowCloses | backend/backtest.py:24-26 | one close per row |
| Backtest.Signals | backend/backtest.py:44-64 | one signal per row |
| Backtest.OfSignal | backend/backtest.py:44-64 | the rows carrying the label, drawn from the frame |
| Backtest.SignalStatsOf | backend/backtest.py:44-53 | only {count 0, percentage 0} iff the label never occurs |
| Backtest.SignalStatsProperties | backend/backtest.py:44-85 | an occurring label has a count within the frame, a percentage in (0, 100], a non-negative high-confidence share, and ordered statistics per horizon |
| Backtest.AnalyzeSignalPerformance | backend/backtest.py:31-89 | total and valid bars equal the frame length; BUY and SELL report no occurrences exactly when absent |
| Backtest.Trunc | backend/backtest.py:129 | truncation toward zero |
| Backtest.FirstAbove | backend/backtest.py:141-149 | the first offset whose close exceeds the level, none iff no close does |
| Backtest.FirstBelow | backend/backtest.py:151-159 | the first offset whose close is below the level, none iff no close is |
| Backtest.Score | backend/backtest.py:139-159 | a scored bar is never counted as unpredicted |
| Backtest.LookaheadWindow | backend/backtest.py:129-131 | the window is min(int(T_reversal)+5, bars left): at most each and equal to one of them |
| Backtest.OutcomeAt | backend/backtest.py:121-127 | not predicted exactly when T_reversal is undefined or timing is false |
| Backtest.ScoreMeaning | backend/backtest.py:139-159 | BUY accurate iff some look-ahead close exceeds 1.01 times the close, SELL iff one is below 0.99 times it, with error the distance from the first such offset to int(T_reversal); HOLD scores nothing |
| Backtest.LookaheadStaysInFrame | backend/backtest.py:129-138 | the look-ahead closes are the next window bars, all inside the frame |
| Backtest.TallyConsistent | backend/backtest.py:121-159 | accurate + false <= total, one error per accurate bar, and total is the number of predicted bars |
| Backtest.ToReals | backend/backtest.py:161-168 | the same values as reals |
| Backtest.ReportConsistent | backend/backtest.py:161-168 | accurate + false <= total; the rate is set iff total > 0 and is a percentage; the average error is 0.0 without accurate bars and never negative |
| Backtest.ScoreWindow | backend/backtest.py:139-159 | scoring the look-ahead closes gives the specified outcome |
| Backtest.ScorePrediction | backend/backtest.py:122-159 | one predicted bar's outcome is the specified one |
| Backtest.AnalyzePhaseAccuracy | backend/backtest.py:92-170 | the loop's report is the summary of the tally over all bars |
| MultiTimeframe.AnalyzeMultipleTimeframes | backend/multi_timeframe.py:68-92 | one result per fetched frame, in order, holding its analysed rows and the snapshot of its last bar |
| MultiTimeframe.SignalsOf | backend/multi_timeframe.py:113-117 | one signal per timeframe |
| MultiTimeframe.Occurrences | backend/multi_timeframe.py:113-117 | a count within the list length |
| MultiTimeframe.CountsPartition | backend/multi_timeframe.py:113-117 | the BUY, SELL and HOLD counts sum to the number of timeframes |
| MultiTimeframe.CalculateTimeframeConfluence | backend/multi_timeframe.py:102-107 | no confluence exactly for empty results |
| MultiTimeframe.ConfluenceRules | backend/multi_timeframe.py:113-136 | BUY iff buy beats sell and hold, SELL likewise, HOLD otherwise scored by the hold count; the score is a percentage bucketed at 75 and 50 |
| MultiTimeframe.SplitVoteIsWeakHold | backend/multi_timeframe.py:120-136 | a 2-2-1 split is a weak HOLD at 20% |
| MultiTimeframe.TimeframeWeight | backend/multi_timeframe.py:230-251 | every weight lies in 1..13 |
| MultiTimeframe.TotalWeight | backend/multi_timeframe.py:249-254 | at least one per timeframe |
| MultiTimeframe.WeightsPartition | backend/multi_timeframe.py:249-254 | the three signal weights sum to the total weight |
| MultiTimeframe.ScoresSumToHundred | backend/multi_timeframe.py:257-258 | normalised scores sum to 100 |
| MultiTimeframe.AlignTimeframes | backend/multi_timeframe.py:222-269 | an error exactly for empty input; otherwise normalised accumulated weights and the first maximal signal |
| MultiTimeframe.AlignmentProperties | backend/multi_timeframe.py:246-266 | the scores are non-negative and sum to 100; the dominant score is maximal, ties going to BUY then SELL |
| MultiTimeframe.DominantIsMaximal | backend/multi_timeframe.py:261 | the chosen key has the largest score; a later key wins only when strictly larger than every earlier one |
| MultiTimeframe.HigherTimeframesOutvoted | backend/multi_timeframe.py:230-261 | 1h and 4h BUY (5 + 7) outweigh a 1d SELL (10) |
| ApiWrapper.HoursPerBar | backend/api_wrapper.py:35-42 | 1, 4 or 24 hours |
| ApiWrapper.LimitCoversDays | backend/api_wrapper.py:35-42 | limit times hours per bar is days times 24; unknown timeframes get the hourly limit; 1d <= 4h <= 1h |
| ApiWrapper.LabelReturns | backend/api_wrapper.py:118-126 | one optional return per bar carrying the label |
| ApiWrapper.RunBacktest | backend/api_wrapper.py:100-101 | no result exactly for an empty analysis |
| ApiWrapper.WinRateProperties | backend/api_wrapper.py:123 | the win rate is a percentage, and times the count gives 100 times the number of defined positive returns |
| ApiWrapper.ReturnSummaryProperties | backend/api_wrapper.py:124-125 | mean and median are defined iff some return is, and then lie between the least and greatest defined return |
| ApiWrapper.StatsForProperties | backend/api_wrapper.py:118-126 | without horizon 10 the entry reports zeros; with it, it summarises the label's ten-bar returns |
| ApiWrapper.RunBacktestKeys | backend/api_wrapper.py:110-126 | an entry exists exactly for the labels that occur, each the label's statistics |
| ApiWrapper.SellReturnsAreNotFlipped | backend/api_wrapper.py:104-126 | the defined SELL returns are the negation of the oriented SELL sample of the full analysis |
| ApiWrapper.BuyReturnsAgree | backend/api_wrapper.py:104-126 | the defined BUY returns are exactly the BUY sample of the full analysis |
| ApiWrapper.DecideRules | backend/api_wrapper.py:177-185 | BUY iff buy > sell, SELL iff sell > buy, HOLD at 50 on a tie; the winner scores its share |
| ApiWrapper.ConfluenceRules | backend/api_wrapper.py:172-190 | none iff no signals; otherwise the decision on the BUY and SELL counts, whatever the HOLDs |
| ApiWrapper.AgreesWithFullConfluence | backend/api_wrapper.py:172-190 | the wrapper and the full confluence agree, except where HOLDs are at least as many as the wrapper's winner |
| ApiWrapper.LoneBuyOutvotedOnlyByHolds | backend/api_wrapper.py:177-179 | one BUY and two HOLDs give BUY at a third |
| ApiWrapper.LatestSignals | backend/api_wrapper.py:158-169 | at most one signal per timeframe |
| ApiWrapper.AnalyzeMultipleTimeframes | backend/api_wrapper.py:135-196 | entries and signals of the succeeded timeframes in order, and a confluence iff some succeeded |
| ApiWrapper.EntriesAndSignals | backend/api_wrapper.py:158-169 | entries are keyed exactly by the succeeded timeframes, never more than the collected signals |
| ApiWrapper.DuplicateTimeframeVotesTwice | backend/api_wrapper.py:158-169 | a timeframe named twice is listed once but votes twice |
| Entry.CalculateSigmaBands | backend/entry_analyzer.py:22-41 | the filled dictionary is the band map |
| Entry.BandIndices | backend/entry_analyzer.py:34 | 2n+1 indices within -n..n |
| Entry.BandCount | backend/entry_analyzer.py:34-41 | 2n+1 levels |
| Entry.SigmaBandsProperties | backend/entry_analyzer.py:34-41 | 2n+1 levels with Z' at 0, levels i and -i averaging to Z', neighbours sigma apart |
| Entry.LevelArithmetic | backend/entry_analyzer.py:36-41 | opposite levels average to Z'; neighbouring levels are sigma apart |
| Entry.LaddersMirror | backend/entry_analyzer.py:44-129 | every zone sits E_at_entry sigmas from Z'; long and short prices average to Z' with opposite E and equal risk and reward |
| Entry.LongLadderOrder | backend/entry_analyzer.py:56-85 | with a threshold in [1, 2.5], conservative <= standard <= aggressive < target |
| Entry.UserEntryMeaning | backend/entry_analyzer.py:155-201 | E at entry recovers entry - Z'; LONG iff entry < Z'; distance is abs(entry - Z'); stop 3 sigma beyond Z'; a ratio exists iff risk > 0 and recovers the distance percentage |
| Entry.QualityTiers | backend/entry_analyzer.py:169-185 | Excellent/Good at the threshold by timing; Moderate at 1.5, Fair at 1.0, else Poor; timing matters only at the threshold |
| Entry.LongRiskPositive | backend/entry_analyzer.py:188-201 | a positive long entry above its stop has positive risk and a finite ratio |
| Entry.EntryAnalysisRules | backend/entry_analyzer.py:222-285 | errors exactly for no data or a missing or zero sigma or Z'; LONG iff abs(E) >= threshold and E < 0, SHORT iff abs(E) >= threshold and E >= 0, else HOLD; the bands are the three-band map around Z'; LONG carries the long ladder, SHORT the short ladder, HOLD both; timing uses a tenth of a positive period |
| Entry.ThresholdIsInclusive | backend/entry_analyzer.py:260-272 | E exactly at the threshold picks LONG here, while the per-bar signal holds |
| Entry.AnalyzeEntryPoint | backend/entry_analyzer.py:288-315 | fails exactly when the analysis does; the user evaluation is present iff a price is given and uses the analysis's Z', sigma, price and timing |
| Vocabulary.StateRules | backend/genesis_vocabulary.py:36-55 | UNDEFINED iff E is undefined; beyond the threshold the side follows E and timing picks COHERENT; COHERENT needs timing; timing matters only beyond the threshold |
| Vocabulary.MiddleBands | backend/genesis_vocabulary.py:44-56 | with a threshold >= 1 the bands between 1 sigma and the threshold are fixed and the final branch is unreachable |
| Vocabulary.LowThresholdIsAsymmetric | backend/genesis_vocabulary.py:39-47 | below one sigma, with threshold 0.5, E = -0.8 drifts long while E = 0.8 is harmonic |
| Vocabulary.PhaseBuckets | backend/genesis_vocabulary.py:70-82 | undefined iff T or the period is missing or the period is 0; otherwise the elapsed share (1 - T/P) times 100, bucketed at 25, 50 and 75 |
| Vocabulary.OraclePhaseIsElapsedShare | backend/genesis_vocabulary.py:73 | for an oracle cycle the percentage is the phase in turns times 100, within [0, 100) |
| Vocabulary.FactorCount | backend/genesis_vocabulary.py:101 | at most three factors |
| Vocabulary.CoherenceCountsFactors | backend/genesis_vocabulary.py:101-110 | the level depends only on how many factors hold: 3 Maximum, 2 Strong, 1 Weak, 0 No |
| Vocabulary.ActionTable | backend/genesis_vocabulary.py:124-146 | STRONG iff coherent with Maximum or Strong, CAUTIOUS iff coherent otherwise, WATCH iff drifting, HOLD iff harmonic, OBSERVE iff undefined |
| Vocabulary.NarrativeConsistent | backend/genesis_vocabulary.py:176-224 | volume confirmed iff ratio > 100; deviation factor iff E is defined with abs(E) >= threshold; coherent with volume is a strong entry |
| Vocabulary.GenerateGenesisNarrative | backend/genesis_vocabulary.py:238-239 | an error exactly for an empty frame |
| Vocabulary.NarrativeDefaults | backend/genesis_vocabulary.py:244-255 | a missing ratio is never a confirmation; a coherent state needs a positive period with T_reversal under a tenth of it |
| Vocabulary.VolumeScalesDisagree | backend/genesis_vocabulary.py:182 | a ratio of 50 is High confidence for the oracle yet unconfirmed here |
| Advisor.TradeHistory.constructor | backend/advanced_llm_analyzer.py:31-33 | an empty log |
| Advisor.TradeHistory.AddTrade | backend/advanced_llm_analyzer.py:53-66 | appends exactly one trade to the symbol's list, creating it if absent, leaving every other symbol unchanged |
| Advisor.TradeHistory.GetLastTrade | backend/advanced_llm_analyzer.py:69-73 | none iff the symbol is unknown or empty; otherwise its last trade |
| Advisor.TradeHistory.GetAllTrades | backend/advanced_llm_analyzer.py:75-77 | the symbol's list, or [] when unknown |
| Advisor.RecordThenRecall | backend/advanced_llm_analyzer.py:53-73 | a recorded trade is recalled as the last one, and another symbol's last trade is unaffected |
| Advisor.LevelsMirrorAndOrder | backend/advanced_llm_analyzer.py:141-149 | the two sides mirror about Z'; the long side is ordered for sigma >= 0; its entries are the entry ladder's with threshold 2 |
| Advisor.SizingSpendsBudget | backend/advanced_llm_analyzer.py:256-264 | the stages cost the budget; the average entry is the 2:1:1 mean of the stage prices, between the least and greatest |
| Advisor.GenerateActionableAnalysis | backend/advanced_llm_analyzer.py:127-128 | an error exactly for an empty frame |
| Advisor.AnalysisFlags | backend/advanced_llm_analyzer.py:133-161 | the fallbacks for missing values; deviation iff abs(E) >= 2; volume iff ratio > 100 (100 when absent); timing iff under a tenth of a positive period; the confidence counts the flags |
| Advisor.RecommendationRules | backend/advanced_llm_analyzer.py:445-461 | a plan iff abs(E) >= 2; ENTER iff in the zone, HOLD otherwise, WATCH CLOSELY never; execute iff the zone and volume |
| Advisor.ProfitsMeasureDistance | backend/advanced_llm_analyzer.py:219-229 | each percentage times the price is 100 times the distance in the position's favour; a long above its stop has positive risk |
| Config.ValidateConfig | backend/config.py:94-113 | true iff valid; otherwise exactly the violated checks, in order |
| Config.ViolationsEmptyIffValid | backend/config.py:94-113 | nothing is reported iff all four checks hold |
| Config.ViolationsAreFailures | backend/config.py:96-111 | only failed checks are reported |
| Config.ViolationsInOrder | backend/config.py:96-111 | errors appear in check order, so none twice |
| Config.ViolationsReportEachFailure | backend/config.py:96-111 | each failed check is reported with its values, and only then |
| Config.PowerOfTwoTest | backend/config.py:107-108 | n & (n-1) == 0 iff n is 0 or a positive power of two |
| Config.FftCheckMeaning | backend/config.py:107-108 | FFT period 0 passes, and negative periods fail |
| Config.ShippedConfigIsValid | backend/config.py:75-91 | the shipped constants pass |
| Stats.MedianWithinRange | backend/backtest.py:78-84 | a median lies between the minimum and maximum |
| Stats.MeanWithinRange | backend/backtest.py:78-84 | a mean lies between the minimum and maximum |

## Left out

- The FFT, the rolling standard deviation, polyfit slopes, the rolling volatility of returns and its 75th percentile. These need floating point, square roots or transcendental functions, so they are parameters or input columns.
- Oracle.GenerateSignalsRolling: requires every complete volume window to have a positive average. The source divides by it unguarded, which can give inf or NaN.
- Trend.EfficiencyRatio (and Trend.DetectMarketRegime, Trend.EnhanceSignalWithContext): requires high >= low on every bar. The source divides by the summed ranges plus 1e-10 unguarded, which with inverted bars can give inf or a negative ratio.
- Backtest.ForwardReturn and the statistics built on it require non-zero closes. Division by a zero close is not modelled.
- Advisor.GenerateActionableAnalysis: requires a non-zero latest close, for the same reason.
- Data acquisition and transport: exchange initialisation, fetching of bars and timeframes, the HTTP servers and the ASCII charts. These are network I/O and UI.
- The printing, prose and LLM parts: narrative strings and f-string formatting, `format_for_display`, model loading, the user-status, position-comparison and why-this-entry texts. Texts are represented by which fixed text is chosen, not by their wording.
- Timestamps and the file persistence of the trade log. The log is kept in memory.
- The True_Range and ATR columns of `detect_market_regime`, which are computed but never used.
- `get_regime_statistics`, `analyze_market_conditions`, `generate_backtest_report` and `export_signals_to_csv`. These are reporting over the modelled columns.
- `run_oracle_analysis` as a whole. Only its three pipeline steps are composed (`Oracle.AnalyzeBars`).
- The std of forward returns in `analyze_signal_performance` is an input.
- The `trend` field of the wrapper's per-timeframe entry is not modelled, because it reads a column outside the modelled frame.
- Config.ValidateConfig: the text of the raised ValueError is represented by a list of error values carrying the same numbers.
- MultiTimeframe.AlignTimeframes: takes a list of results in insertion order; the uniqueness of Python dict keys is not enforced.
- MultiTimeframe.CalculateTimeframeConfluence (and MultiTimeframe.AnalyzeMultipleTimeframes): the fetched frames and the results are lists that may repeat a timeframe, which would then vote twice; the source's dict keyed by timeframe holds each timeframe once.
