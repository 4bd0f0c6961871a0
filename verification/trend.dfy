/** Trend and regime context for the oracle's signals (backend/trend_analysis.py):
    three trend votes and their majority, the efficiency-ratio/volatility
    regime, the phase-context and signal-quality table, the cycle-consistency
    score and the one-tier confidence adjustment.

    The rolling regression slope, the rolling volatility of returns and its
    75th percentile are inputs: `lrSlope`, the `volatility` column and `q75`. */
module Trend {
  import opened Base
  import opened Stats
  import O = Oracle

  datatype Trend = Uptrend | Downtrend

  datatype Regime = Trending | Ranging | Volatile | Unknown

  // ---------------------------------------------------------------------
  // detect_trend
  // ---------------------------------------------------------------------

  /** The rolling mean of `period` values ending at t. */
  function RollingMean(xs: seq<real>, period: nat, t: nat): Option<real>
    requires 1 <= period && t < |xs|
  {
    if t + 1 >= period then Some(Sum(O.Window(xs, period, t)) / period as real) else None
  }

  /** A comparison with an undefined value is false, so it votes Downtrend. */
  function VoteAbove(a: Option<real>, b: real): Trend
  {
    if a.Some? && a.value > b then Uptrend else Downtrend
  }

  function MaTrend(smaShort: Option<real>, smaLong: Option<real>): Trend
  {
    if smaShort.Some? && smaLong.Some? && smaShort.value > smaLong.value then Uptrend else Downtrend
  }

  /** high[t] - high[t-1]; undefined at the first bar. */
  function HighDiff(bars: seq<O.Bar>, t: nat): Option<real>
    requires t < |bars|
  {
    if t == 0 then None else Some(bars[t].high - bars[t - 1].high)
  }

  /** low[t-1] - low[t]; undefined at the first bar. */
  function LowDiff(bars: seq<O.Bar>, t: nat): Option<real>
    requires t < |bars|
  {
    if t == 0 then None else Some(bars[t - 1].low - bars[t].low)
  }

  function PlusDM(highDiff: Option<real>, lowDiff: Option<real>): real
  {
    if highDiff.Some? && lowDiff.Some? && highDiff.value > lowDiff.value && highDiff.value > 0.0 then highDiff.value
    else 0.0
  }

  function MinusDM(highDiff: Option<real>, lowDiff: Option<real>): real
  {
    if highDiff.Some? && lowDiff.Some? && lowDiff.value > highDiff.value && lowDiff.value > 0.0 then lowDiff.value
    else 0.0
  }

  /** Directional movement is never negative and never points both ways. */
  lemma DirectionalMovementExclusive(highDiff: Option<real>, lowDiff: Option<real>)
    ensures PlusDM(highDiff, lowDiff) >= 0.0 && MinusDM(highDiff, lowDiff) >= 0.0
    ensures !(PlusDM(highDiff, lowDiff) > 0.0 && MinusDM(highDiff, lowDiff) > 0.0)
    ensures PlusDM(highDiff, lowDiff) > 0.0 ==> PlusDM(highDiff, lowDiff) == highDiff.value
    ensures MinusDM(highDiff, lowDiff) > 0.0 ==> MinusDM(highDiff, lowDiff) == lowDiff.value
  {
  }

  function PlusDMColumn(bars: seq<O.Bar>): (c: seq<real>)
    ensures |c| == |bars|
  {
    seq(|bars|, t requires 0 <= t < |bars| => PlusDM(HighDiff(bars, t), LowDiff(bars, t)))
  }

  function MinusDMColumn(bars: seq<O.Bar>): (c: seq<real>)
    ensures |c| == |bars|
  {
    seq(|bars|, t requires 0 <= t < |bars| => MinusDM(HighDiff(bars, t), LowDiff(bars, t)))
  }

  /** The smoothing window of the directional movement. */
  const SmoothingPeriod: nat := 14

  function TrendStrength(plusSmooth: real, minusSmooth: real): real
    requires plusSmooth + minusSmooth + O.Epsilon != 0.0
  {
    Abs(plusSmooth - minusSmooth) / (plusSmooth + minusSmooth + O.Epsilon) * 100.0
  }

  lemma QuotientBelowOne(a: real, d: real)
    requires 0.0 <= a < d
    ensures 0.0 <= a / d < 1.0
  {
    var q := a / d;
    assert q * d == a;
  }

  /** For non-negative smoothed movements the strength lies in [0, 100). */
  lemma TrendStrengthRange(plusSmooth: real, minusSmooth: real)
    requires plusSmooth >= 0.0 && minusSmooth >= 0.0
    ensures 0.0 <= TrendStrength(plusSmooth, minusSmooth) < 100.0
  {
    QuotientBelowOne(Abs(plusSmooth - minusSmooth), plusSmooth + minusSmooth + O.Epsilon);
  }

  /** The number of Uptrend votes. */
  function UpVotes(ma: Trend, lr: Trend, dm: Trend): (n: nat)
    ensures n <= 3
  {
    (if ma == Uptrend then 1 else 0) + (if lr == Uptrend then 1 else 0) + (if dm == Uptrend then 1 else 0)
  }

  function Consensus(ma: Trend, lr: Trend, dm: Trend): Trend
  {
    if UpVotes(ma, lr, dm) >= 2 then Uptrend else Downtrend
  }

  /** The consensus is Uptrend exactly when two of the three votes agree on
      it, and in every case it agrees with at least two of the votes. */
  lemma ConsensusIsMajority(ma: Trend, lr: Trend, dm: Trend)
    ensures Consensus(ma, lr, dm) == Uptrend <==>
      (ma == Uptrend && lr == Uptrend) || (ma == Uptrend && dm == Uptrend) || (lr == Uptrend && dm == Uptrend)
    ensures var c := Consensus(ma, lr, dm);
      (ma == c && lr == c) || (ma == c && dm == c) || (lr == c && dm == c)
  {
  }

  datatype TrendRow = TrendRow(
    smaShort: Option<real>, smaLong: Option<real>, maTrend: Trend,
    lrSlope: Option<real>, lrTrend: Trend,
    plusSmooth: Option<real>, minusSmooth: Option<real>, diDiff: Option<real>, dmTrend: Trend,
    strength: Option<real>, consensus: Trend)

  function SlopeAt(closes: seq<real>, shortPeriod: nat, lrSlope: seq<real> -> real, t: nat): Option<real>
    requires 1 <= shortPeriod && t < |closes|
  {
    if t + 1 >= shortPeriod then
      Some(if shortPeriod < 2 then 0.0 else lrSlope(O.Window(closes, shortPeriod, t)))
    else None
  }

  function TrendRowAt(bars: seq<O.Bar>, shortPeriod: nat, longPeriod: nat, lrSlope: seq<real> -> real, t: nat): TrendRow
    requires 1 <= shortPeriod && 1 <= longPeriod && t < |bars|
  {
    var closes := O.Closes(bars);
    var smaShort := RollingMean(closes, shortPeriod, t);
    var smaLong := RollingMean(closes, longPeriod, t);
    var slope := SlopeAt(closes, shortPeriod, lrSlope, t);
    var plus := RollingMean(PlusDMColumn(bars), SmoothingPeriod, t);
    var minus := RollingMean(MinusDMColumn(bars), SmoothingPeriod, t);
    var di := if plus.Some? && minus.Some? then Some(plus.value - minus.value) else None;
    var strength :=
      if plus.Some? && minus.Some? && plus.value + minus.value + O.Epsilon != 0.0 then
        Some(TrendStrength(plus.value, minus.value))
      else None;
    var ma := MaTrend(smaShort, smaLong);
    var lr := VoteAbove(slope, 0.0);
    var dm := VoteAbove(di, 0.0);
    TrendRow(smaShort, smaLong, ma, slope, lr, plus, minus, di, dm, strength, Consensus(ma, lr, dm))
  }

  /** The columns added by detect_trend. */
  function DetectTrend(bars: seq<O.Bar>, shortPeriod: nat, longPeriod: nat, lrSlope: seq<real> -> real): (rows: seq<TrendRow>)
    requires 1 <= shortPeriod && 1 <= longPeriod
    ensures |rows| == |bars|
  {
    seq(|bars|, t requires 0 <= t < |bars| => TrendRowAt(bars, shortPeriod, longPeriod, lrSlope, t))
  }

  /** The moving-average vote is Uptrend exactly when both averages exist and
      the short one is above; likewise the directional vote and the +DI - -DI
      difference; the consensus is the majority of the three votes. */
  lemma DetectTrendVotes(bars: seq<O.Bar>, shortPeriod: nat, longPeriod: nat, lrSlope: seq<real> -> real, t: nat)
    requires 1 <= shortPeriod && 1 <= longPeriod && t < |bars|
    ensures var r := DetectTrend(bars, shortPeriod, longPeriod, lrSlope)[t];
      (r.maTrend == Uptrend <==> r.smaShort.Some? && r.smaLong.Some? && r.smaShort.value > r.smaLong.value) &&
      (r.dmTrend == Uptrend <==> r.diDiff.Some? && r.diDiff.value > 0.0) &&
      r.consensus == Consensus(r.maTrend, r.lrTrend, r.dmTrend)
  {
  }

  /** A rolling mean of a non-negative column is non-negative. */
  lemma RollingMeanNonNegative(xs: seq<real>, period: nat, t: nat)
    requires 1 <= period && t < |xs| && t + 1 >= period
    requires forall i :: 0 <= i < |xs| ==> xs[i] >= 0.0
    ensures RollingMean(xs, period, t).Some? && RollingMean(xs, period, t).value >= 0.0
  {
    var w := O.Window(xs, period, t);
    assert forall i :: 0 <= i < |w| ==> w[i] == xs[t + 1 - period + i];
    SumNonNegative(w);
  }

  /** The smoothed movements exist from bar SmoothingPeriod - 1 on and are
      non-negative there, so the strength then exists and lies in [0, 100). */
  lemma DetectTrendStrength(bars: seq<O.Bar>, shortPeriod: nat, longPeriod: nat, lrSlope: seq<real> -> real, t: nat)
    requires 1 <= shortPeriod && 1 <= longPeriod && t < |bars|
    ensures var r := DetectTrend(bars, shortPeriod, longPeriod, lrSlope)[t];
      (r.plusSmooth.Some? <==> t + 1 >= SmoothingPeriod) &&
      (r.plusSmooth.Some? ==> r.plusSmooth.value >= 0.0 && r.minusSmooth.value >= 0.0) &&
      (r.plusSmooth.Some? ==> r.strength.Some? && 0.0 <= r.strength.value < 100.0)
  {
    if t + 1 >= SmoothingPeriod {
      var pc, mc := PlusDMColumn(bars), MinusDMColumn(bars);
      forall i | 0 <= i < |bars|
        ensures pc[i] >= 0.0 && mc[i] >= 0.0
      {
        DirectionalMovementExclusive(HighDiff(bars, i), LowDiff(bars, i));
      }
      RollingMeanNonNegative(pc, SmoothingPeriod, t);
      RollingMeanNonNegative(mc, SmoothingPeriod, t);
      TrendStrengthRange(RollingMean(pc, SmoothingPeriod, t).value, RollingMean(mc, SmoothingPeriod, t).value);
    }
  }

  // ---------------------------------------------------------------------
  // detect_market_regime
  // ---------------------------------------------------------------------

  /** Every bar's high is at least its low. */
  ghost predicate RangesNonNegative(bars: seq<O.Bar>)
  {
    forall i :: 0 <= i < |bars| ==> bars[i].high >= bars[i].low
  }

  function PriceRanges(bars: seq<O.Bar>): (r: seq<real>)
    ensures |r| == |bars|
  {
    seq(|bars|, i requires 0 <= i < |bars| => bars[i].high - bars[i].low)
  }

  /** |close[t] - close[t - p]| over the summed bar ranges of the last p bars. */
  function EfficiencyRatio(bars: seq<O.Bar>, volatilityPeriod: nat, t: nat): (er: Option<real>)
    requires RangesNonNegative(bars) && 1 <= volatilityPeriod && t < |bars|
    ensures er.Some? <==> t >= volatilityPeriod
    ensures er.Some? ==> er.value >= 0.0
  {
    if t >= volatilityPeriod then
      var w := O.Window(PriceRanges(bars), volatilityPeriod, t);
      assert forall i :: 0 <= i < |w| ==> w[i] == bars[t + 1 - volatilityPeriod + i].high - bars[t + 1 - volatilityPeriod + i].low;
      SumNonNegative(w);
      Some(Abs(bars[t].close - bars[t - volatilityPeriod].close) / (Sum(w) + O.Epsilon))
    else None
  }

  /** The threshold above which a move counts as trending. */
  const TrendingEfficiency: real := 0.5

  function ClassifyRegime(efficiencyRatio: Option<real>, volatility: Option<real>, q75: real): Regime
  {
    if efficiencyRatio.None? || volatility.None? then Unknown
    else if volatility.value > q75 then Volatile
    else if efficiencyRatio.value > TrendingEfficiency then Trending
    else Ranging
  }

  /** Unknown exactly on undefined inputs; volatility above the percentile
      wins over efficiency; otherwise efficiency above 0.5 is Trending. */
  lemma RegimeRules(efficiencyRatio: Option<real>, volatility: Option<real>, q75: real)
    ensures var r := ClassifyRegime(efficiencyRatio, volatility, q75);
      (r == Unknown <==> efficiencyRatio.None? || volatility.None?) &&
      (r == Volatile <==> efficiencyRatio.Some? && volatility.Some? && volatility.value > q75) &&
      (r == Trending <==> efficiencyRatio.Some? && volatility.Some? && volatility.value <= q75 &&
                          efficiencyRatio.value > TrendingEfficiency) &&
      (r == Ranging <==> efficiencyRatio.Some? && volatility.Some? && volatility.value <= q75 &&
                         efficiencyRatio.value <= TrendingEfficiency)
  {
  }

  /** The Market_Regime column. */
  function DetectMarketRegime(bars: seq<O.Bar>, volatilityPeriod: nat, volatility: seq<Option<real>>, q75: real): (r: seq<Regime>)
    requires RangesNonNegative(bars) && 1 <= volatilityPeriod && |volatility| == |bars|
    ensures |r| == |bars|
    ensures forall t :: 0 <= t < volatilityPeriod && t < |bars| ==> r[t] == Unknown
  {
    seq(|bars|, t requires 0 <= t < |bars| =>
      ClassifyRegime(EfficiencyRatio(bars, volatilityPeriod, t), volatility[t], q75))
  }

  // ---------------------------------------------------------------------
  // interpret_phase_with_trend
  // ---------------------------------------------------------------------

  datatype PhaseContext = Neutral | MeanReversionFavorable | TrendAligned | CounterTrend | HighVolatility

  datatype Quality = Low | Medium | High

  function ContextAt(signal: O.Signal, tReversal: Option<real>, trend: Trend, regime: Regime): (PhaseContext, Quality)
  {
    if tReversal.None? || signal == O.Hold then (Neutral, Medium)
    else match regime
      case Ranging => (MeanReversionFavorable, High)
      case Trending =>
        if (signal == O.Buy && trend == Uptrend) || (signal == O.Sell && trend == Downtrend) then (TrendAligned, High)
        else (CounterTrend, Low)
      case Volatile => (HighVolatility, Low)
      case Unknown => (Neutral, Medium)
  }

  /** The quality follows from the context: favourable contexts are High,
      adverse ones Low, and Neutral is Medium; HOLD bars and bars without a
      reversal time stay Neutral. */
  lemma QualityFollowsContext(signal: O.Signal, tReversal: Option<real>, trend: Trend, regime: Regime)
    ensures var (ctx, q) := ContextAt(signal, tReversal, trend, regime);
      (q == High <==> ctx == MeanReversionFavorable || ctx == TrendAligned) &&
      (q == Low <==> ctx == CounterTrend || ctx == HighVolatility) &&
      (q == Medium <==> ctx == Neutral) &&
      (tReversal.None? || signal == O.Hold ==> ctx == Neutral) &&
      (ctx == TrendAligned ==> regime == Trending && (signal == O.Buy <==> trend == Uptrend)) &&
      (ctx == CounterTrend ==> regime == Trending && (signal == O.Buy <==> trend == Downtrend))
  {
  }

  /** Fills Phase_Context and Signal_Quality bar by bar. */
  method InterpretPhaseWithTrend(signals: seq<O.Signal>, tReversal: seq<Option<real>>, trends: seq<Trend>, regimes: seq<Regime>)
    returns (contexts: seq<PhaseContext>, qualities: seq<Quality>)
    requires |tReversal| == |trends| == |regimes| == |signals|
    ensures |contexts| == |qualities| == |signals|
    ensures forall i :: 0 <= i < |signals| ==>
      (contexts[i], qualities[i]) == ContextAt(signals[i], tReversal[i], trends[i], regimes[i])
  {
    var n := |signals|;
    var ctx := new PhaseContext[n](_ => Neutral);
    var quality := new Quality[n](_ => Medium);
    var i := 0;
    while i < n
      invariant 0 <= i <= n
      invariant forall k :: 0 <= k < i ==> (ctx[k], quality[k]) == ContextAt(signals[k], tReversal[k], trends[k], regimes[k])
      invariant forall k :: i <= k < n ==> ctx[k] == Neutral && quality[k] == Medium
    {
      if tReversal[i].None? || signals[i] == O.Hold {
        i := i + 1;
        continue;
      }
      var signal, trend := signals[i], trends[i];
      match regimes[i] {
        case Ranging =>
          ctx[i], quality[i] := MeanReversionFavorable, High;
        case Trending =>
          if (signal == O.Buy && trend == Uptrend) || (signal == O.Sell && trend == Downtrend) {
            ctx[i], quality[i] := TrendAligned, High;
          } else {
            ctx[i], quality[i] := CounterTrend, Low;
          }
        case Volatile =>
          ctx[i], quality[i] := HighVolatility, Low;
        case Unknown =>
      }
      i := i + 1;
    }
    contexts, qualities := ctx[..], quality[..];
  }

  // ---------------------------------------------------------------------
  // calculate_cycle_consistency
  // ---------------------------------------------------------------------

  ghost predicate ValidStdev(stdev: seq<real> -> real)
  {
    forall w :: stdev(w) >= 0.0
  }

  function RealMax(a: real, b: real): real
  {
    if b > a then b else a
  }

  /** max(0, 100 - 100 * std/(mean + 1e-10)) over the recent periods.  A
      single value has no sample deviation and a zero denominator gives an
      infinite or undefined ratio; in both cases max(0, ...) yields 0. */
  function ConsistencyOf(recent: seq<real>, stdev: seq<real> -> real): real
    requires |recent| > 0
  {
    var d := Mean(recent) + O.Epsilon;
    if |recent| < 2 || d == 0.0 then 0.0
    else RealMax(0.0, 100.0 - stdev(recent) / d * 100.0)
  }

  /** Cycle_Consistency at bar i: uses the Dominant_Period values of bars
      i - lookback .. i - 1 that are defined, and is undefined when there are
      none or when i < lookback. */
  function ConsistencyAt(periods: seq<Option<real>>, lookback: nat, stdev: seq<real> -> real, i: nat): Option<real>
    requires i < |periods|
  {
    if i < lookback then None
    else
      var recent := Defined(periods[i - lookback..i]);
      if |recent| > 0 then Some(ConsistencyOf(recent, stdev)) else None
  }

  /** The score depends only on the lookback window before bar i. */
  lemma ConsistencyLooksBackOnly(p1: seq<Option<real>>, p2: seq<Option<real>>, lookback: nat, stdev: seq<real> -> real, i: nat)
    requires i < |p1| && i < |p2| && lookback <= i
    requires p1[i - lookback..i] == p2[i - lookback..i]
    ensures ConsistencyAt(p1, lookback, stdev, i) == ConsistencyAt(p2, lookback, stdev, i)
  {
  }

  /** For positive periods and a non-negative deviation the score lies in
      [0, 100]. */
  lemma ConsistencyWithinRange(recent: seq<real>, stdev: seq<real> -> real)
    requires |recent| > 0 && ValidStdev(stdev)
    requires forall k :: 0 <= k < |recent| ==> recent[k] > 0.0
    ensures 0.0 <= ConsistencyOf(recent, stdev) <= 100.0
  {
    MinMaxBound(recent);
    MeanWithinRange(recent);
    var d := Mean(recent) + O.Epsilon;
    assert d > 0.0;
    if |recent| >= 2 {
      var s := stdev(recent);
      assert s >= 0.0;
      assert s / d >= 0.0;
    }
  }

  /** The score of bar i, from the defined periods of the lookback window
      before it; undefined when none of them is defined. */
  method ConsistencyScore(periods: seq<Option<real>>, lookback: nat, stdev: seq<real> -> real, i: nat)
    returns (score: Option<real>)
    requires lookback <= i < |periods|
    ensures score == ConsistencyAt(periods, lookback, stdev, i)
  {
    var recent := Defined(periods[i - lookback..i]);
    if |recent| > 0 {
      score := Some(ConsistencyOf(recent, stdev));
    } else {
      score := None;
    }
  }

  /** Fills Cycle_Consistency for bars lookback .. n - 1. */
  method CalculateCycleConsistency(periods: seq<Option<real>>, lookback: nat, stdev: seq<real> -> real)
    returns (consistency: seq<Option<real>>)
    ensures |consistency| == |periods|
    ensures forall i :: 0 <= i < |periods| ==> consistency[i] == ConsistencyAt(periods, lookback, stdev, i)
  {
    var n := |periods|;
    var a := new Option<real>[n](_ => None);
    var i := lookback;
    while i < n
      invariant forall k :: 0 <= k < n && k < lookback ==> a[k] == None
      invariant forall k :: lookback <= k < i && k < n ==> a[k] == ConsistencyAt(periods, lookback, stdev, k)
    {
      // an undefined score leaves the bar's NaN in place
      var score := ConsistencyScore(periods, lookback, stdev, i);
      a[i] := score;
      i := i + 1;
    }
    consistency := a[..];
    forall k | 0 <= k < n && k < lookback
      ensures consistency[k] == ConsistencyAt(periods, lookback, stdev, k)
    {
      ConsistencyBeforeLookback(periods, lookback, stdev, k);
    }
  }

  lemma ConsistencyBeforeLookback(periods: seq<Option<real>>, lookback: nat, stdev: seq<real> -> real, k: nat)
    requires k < |periods| && k < lookback
    ensures ConsistencyAt(periods, lookback, stdev, k) == None
  {
  }

  // ---------------------------------------------------------------------
  // enhance_signal_with_context
  // ---------------------------------------------------------------------

  /** The consistency above which a high-quality signal is promoted. */
  const ConsistencyPromotion: real := 70.0

  /** Both rules read the confidence the bar had before the adjustment. */
  function AdjustedConfidence(signal: O.Signal, confidence: O.Confidence, quality: Quality, consistency: Option<real>): O.Confidence
  {
    if signal == O.Hold then confidence
    else if quality == Low && confidence == O.High then O.Medium
    else if quality == High && consistency.Some? && consistency.value > ConsistencyPromotion then
      (if confidence == O.Low then O.Medium else if confidence == O.Medium then O.High else confidence)
    else confidence
  }

  function Tier(c: O.Confidence): int
  {
    match c
    case NoConfidence => 0
    case Low => 1
    case Medium => 2
    case High => 3
  }

  /** HOLD bars and N/A confidences never change; otherwise the confidence
      moves by at most one tier, down only on Low quality and up only on High
      quality with a consistency above 70. */
  lemma AdjustmentIsOneTier(signal: O.Signal, confidence: O.Confidence, quality: Quality, consistency: Option<real>)
    ensures var c := AdjustedConfidence(signal, confidence, quality, consistency);
      (signal == O.Hold || confidence == O.NoConfidence ==> c == confidence) &&
      -1 <= Tier(c) - Tier(confidence) <= 1 &&
      (Tier(c) < Tier(confidence) <==> signal != O.Hold && quality == Low && confidence == O.High) &&
      (Tier(c) > Tier(confidence) <==>
        signal != O.Hold && quality == High && consistency.Some? && consistency.value > ConsistencyPromotion &&
        (confidence == O.Low || confidence == O.Medium))
  {
  }

  /** The confidence adjustment loop. */
  method AdjustConfidence(signals: seq<O.Signal>, confidences: seq<O.Confidence>, qualities: seq<Quality>, consistency: seq<Option<real>>)
    returns (adjusted: seq<O.Confidence>)
    requires |confidences| == |qualities| == |consistency| == |signals|
    ensures |adjusted| == |signals|
    ensures forall i :: 0 <= i < |signals| ==>
      adjusted[i] == AdjustedConfidence(signals[i], confidences[i], qualities[i], consistency[i])
  {
    var n := |signals|;
    var a := new O.Confidence[n](i requires 0 <= i < n => confidences[i]);
    var i := 0;
    while i < n
      invariant 0 <= i <= n
      invariant forall k :: 0 <= k < i ==> a[k] == AdjustedConfidence(signals[k], confidences[k], qualities[k], consistency[k])
      invariant forall k :: i <= k < n ==> a[k] == confidences[k]
    {
      if signals[i] == O.Hold {
        i := i + 1;
        continue;
      }
      var current := a[i];
      if qualities[i] == Low && current == O.High {
        a[i] := O.Medium;
      }
      if qualities[i] == High && consistency[i].Some? && consistency[i].value > ConsistencyPromotion {
        if current == O.Low {
          a[i] := O.Medium;
        } else if current == O.Medium {
          a[i] := O.High;
        }
      }
      i := i + 1;
    }
    adjusted := a[..];
  }

  /** Parameters of the context step: SMA windows, regime window and the
      consistency lookback. */
  datatype ContextSettings = ContextSettings(shortPeriod: nat, longPeriod: nat, volatilityPeriod: nat, lookback: nat)

  /** The shipped defaults: 20/50 averages, a 20-bar regime window and a
      10-bar consistency lookback. */
  const DefaultContext := ContextSettings(20, 50, 20, 10)

  datatype EnhancedRow = EnhancedRow(
    row: O.Row, trend: TrendRow, regime: Regime, context: PhaseContext, quality: Quality, consistency: Option<real>)

  /** detect_trend, detect_market_regime, interpret_phase_with_trend and
      calculate_cycle_consistency, then the confidence adjustment. */
  method EnhanceSignalWithContext(rows: seq<O.Row>, s: ContextSettings, lrSlope: seq<real> -> real,
                                  volatility: seq<Option<real>>, q75: real, stdev: seq<real> -> real)
    returns (enhanced: seq<EnhancedRow>)
    requires 1 <= s.shortPeriod && 1 <= s.longPeriod && 1 <= s.volatilityPeriod
    requires |volatility| == |rows|
    requires RangesNonNegative(seq(|rows|, i requires 0 <= i < |rows| => rows[i].bar))
    ensures |enhanced| == |rows|
    ensures forall i :: 0 <= i < |rows| ==>
      var e := enhanced[i];
      e.row == rows[i].(confidence := AdjustedConfidence(rows[i].signal, rows[i].confidence, e.quality, e.consistency)) &&
      (e.context, e.quality) == ContextAt(rows[i].signal, rows[i].tReversal, e.trend.consensus, e.regime) &&
      e.consistency == ConsistencyAt(seq(|rows|, k requires 0 <= k < |rows| => rows[k].dominantPeriod), s.lookback, stdev, i)
  {
    var n := |rows|;
    var bars := seq(n, i requires 0 <= i < n => rows[i].bar);
    var trends := DetectTrend(bars, s.shortPeriod, s.longPeriod, lrSlope);
    var regimes := DetectMarketRegime(bars, s.volatilityPeriod, volatility, q75);
    var signals := seq(n, i requires 0 <= i < n => rows[i].signal);
    var contexts, qualities := InterpretPhaseWithTrend(
      signals,
      seq(n, i requires 0 <= i < n => rows[i].tReversal),
      seq(n, i requires 0 <= i < n => trends[i].consensus),
      regimes);
    var consistency := CalculateCycleConsistency(seq(n, i requires 0 <= i < n => rows[i].dominantPeriod), s.lookback, stdev);
    var adjusted := AdjustConfidence(signals, seq(n, i requires 0 <= i < n => rows[i].confidence), qualities, consistency);
    enhanced := seq(n, i requires 0 <= i < n =>
      EnhancedRow(rows[i].(confidence := adjusted[i]), trends[i], regimes[i], contexts[i], qualities[i], consistency[i]));
  }
}
