/** The rule-based action planner (backend/advanced_llm_analyzer.py): an
    in-memory trade log per symbol, and the levels, entry flags, confidence,
    50/25/25 staged sizing and recommendation derived from the latest bar. */
module Advisor {
  import opened Base
  import O = Oracle
  import Entry
  import Vocabulary

  // ---------------------------------------------------------------------
  // TradeHistory
  // ---------------------------------------------------------------------

  /** One recorded trade (its timestamp is not modelled). */
  datatype Trade = Trade(entry: real, exit: Option<real>, quantity: real, profitPct: Option<real>)

  /** The trade log: a list of trades per symbol, appended to in place. */
  class TradeHistory {
    var history: map<string, seq<Trade>>

    /** A log with no symbols (the file it would be loaded from is not
        modelled). */
    constructor()
      ensures history == map[]
    {
      history := map[];
    }

    /** The trades recorded for a symbol, oldest first; none when unknown. */
    function Trades(symbol: string): seq<Trade>
      reads this
    {
      if symbol in history then history[symbol] else []
    }

    /** Appends one trade to the symbol's list, creating the list when the
        symbol is new, and leaves every other symbol's list as it was. */
    method AddTrade(symbol: string, entry: real, exit: Option<real>, quantity: real, profitPct: Option<real>)
      modifies this
      ensures history == old(history)[symbol := old(Trades(symbol)) + [Trade(entry, exit, quantity, profitPct)]]
      ensures Trades(symbol) == old(Trades(symbol)) + [Trade(entry, exit, quantity, profitPct)]
      ensures forall s :: s != symbol ==> Trades(s) == old(Trades(s))
      ensures history.Keys == old(history.Keys) + {symbol}
    {
      if symbol !in history {
        history := history[symbol := []];
      }
      history := history[symbol := history[symbol] + [Trade(entry, exit, quantity, profitPct)]];
    }

    /** The most recently added trade for the symbol, if it has any. */
    method GetLastTrade(symbol: string) returns (t: Option<Trade>)
      ensures t.None? <==> symbol !in history || |history[symbol]| == 0
      ensures t.Some? ==> |Trades(symbol)| > 0 && t.value == Trades(symbol)[|Trades(symbol)| - 1]
    {
      if symbol in history && |history[symbol]| > 0 {
        t := Some(history[symbol][|history[symbol]| - 1]);
      } else {
        t := None;
      }
    }

    /** Every trade of the symbol; the empty list for an unknown symbol. */
    method GetAllTrades(symbol: string) returns (ts: seq<Trade>)
      ensures symbol !in history ==> ts == []
      ensures symbol in history ==> ts == history[symbol]
    {
      if symbol in history {
        ts := history[symbol];
      } else {
        ts := [];
      }
    }
  }

  /** Recording a trade and then asking for the last one gives that trade
      back, and another symbol's last trade is unaffected. */
  method RecordThenRecall(log: TradeHistory, symbol: string, other: string, entry: real, exit: Option<real>)
    returns (last: Option<Trade>, otherLast: Option<Trade>)
    modifies log
    ensures last == Some(Trade(entry, exit, 0.0, None))
    ensures other != symbol ==>
      (otherLast.None? <==> |old(log.Trades(other))| == 0) &&
      (otherLast.Some? ==> otherLast.value == old(log.Trades(other))[|old(log.Trades(other))| - 1])
  {
    log.AddTrade(symbol, entry, exit, 0.0, None);
    last := log.GetLastTrade(symbol);
    otherLast := log.GetLastTrade(other);
  }

  // ---------------------------------------------------------------------
  // generate_actionable_analysis: inputs, levels and flags
  // ---------------------------------------------------------------------

  /** Whether the latest bar carries a volume-ratio column, and its value
      (None stands for NaN). */
  datatype VolumeColumn = MissingColumn | Present(ratio: Option<real>)

  /** The columns of the latest bar that the planner reads. */
  datatype Latest = Latest(
    close: real, zPrime: Option<real>, sigma: Option<real>, e: Option<real>,
    volume: VolumeColumn, tReversal: Option<real>, dominantPeriod: Option<real>, signal: O.Signal)

  /** The latest bar of an oracle frame, which always has the column. */
  function LatestOf(r: O.Row): Latest
  {
    Latest(r.bar.close, r.zPrime, r.sigma, r.e, Present(r.volumeRatio), r.tReversal, r.dominantPeriod, r.signal)
  }

  /** Deviation, in sigmas, that marks the entry zone. */
  const EntryDeviation: real := 2.0
  /** Volume ratio, as a percentage, above which volume confirms. */
  const VolumeConfirmation: real := 100.0
  const DefaultVolumeRatio: real := 100.0

  datatype Levels = Levels(
    aggressive: real, standard: real, conservative: real, stopLoss: real,
    primary: real, secondary: real, stretch: real)

  /** Entries below Z' (and targets above) for a negative deviation;
      mirrored otherwise. */
  function LevelsOf(z: real, sigma: real, e: real): Levels
  {
    if e < 0.0 then
      Levels(z - 1.0 * sigma, z - 2.0 * sigma, z - 2.5 * sigma, z - 3.0 * sigma, z, z + 1.0 * sigma, z + 2.0 * sigma)
    else
      Levels(z + 1.0 * sigma, z + 2.0 * sigma, z + 2.5 * sigma, z + 3.0 * sigma, z, z - 1.0 * sigma, z - 2.0 * sigma)
  }

  function LevelSeq(l: Levels): seq<real>
  {
    [l.aggressive, l.standard, l.conservative, l.stopLoss, l.primary, l.secondary, l.stretch]
  }

  /** The two sides mirror each other about Z'; for a non-negative sigma the
      long side is ordered stop <= conservative <= standard <= aggressive <=
      Z' <= secondary <= stretch; and its entries are the entry ladder's
      with a two-sigma threshold. */
  lemma LevelsMirrorAndOrder(z: real, sigma: real)
    ensures var long, short := LevelsOf(z, sigma, -1.0), LevelsOf(z, sigma, 0.0);
      forall k :: 0 <= k < 7 ==> LevelSeq(long)[k] + LevelSeq(short)[k] == 2.0 * z
    ensures var long := LevelsOf(z, sigma, -1.0);
      sigma >= 0.0 ==>
        long.stopLoss <= long.conservative <= long.standard <= long.aggressive <= long.primary <= long.secondary <= long.stretch
    ensures var long, ladder := LevelsOf(z, sigma, -1.0), Entry.OptimalEntryLong(z, sigma, EntryDeviation);
      long.aggressive == ladder.aggressive.price && long.standard == ladder.standard.price &&
      long.conservative == ladder.conservative.price && long.primary == ladder.target.price
    ensures var short, ladder := LevelsOf(z, sigma, 0.0), Entry.OptimalEntryShort(z, sigma, EntryDeviation);
      short.aggressive == ladder.aggressive.price && short.standard == ladder.standard.price &&
      short.conservative == ladder.conservative.price && short.primary == ladder.target.price
  {
  }

  datatype PositionType = LongPosition | ShortPosition

  datatype AdvisorConfidence = LowConfidence | MediumConfidence | HighConfidence

  /** HIGH with all three flags, MEDIUM with exactly two, LOW otherwise. */
  function ConfidenceOf(deviationSignal: bool, volumeConfirmed: bool, timing: bool): AdvisorConfidence
  {
    var n := Vocabulary.FactorCount(volumeConfirmed, deviationSignal, timing);
    if n == 3 then HighConfidence else if n == 2 then MediumConfidence else LowConfidence
  }

  // ---------------------------------------------------------------------
  // _build_contextual_analysis: profits, sizing, recommendation
  // ---------------------------------------------------------------------

  /** Percentage moves from the current price to each target and to the
      stop, measured in the position's favour. */
  datatype Profits = Profits(primary: real, secondary: real, stretch: real, risk: real)

  function ProfitsOf(position: PositionType, price: real, l: Levels): Profits
    requires price != 0.0
  {
    if position == LongPosition then
      Profits((l.primary - price) / price * 100.0, (l.secondary - price) / price * 100.0,
              (l.stretch - price) / price * 100.0, (price - l.stopLoss) / price * 100.0)
    else
      Profits((price - l.primary) / price * 100.0, (price - l.secondary) / price * 100.0,
              (price - l.stretch) / price * 100.0, (l.stopLoss - price) / price * 100.0)
  }

  /** The budget spread over the three stages. */
  const Budget: real := 100.0

  /** Stage one buys half the budget at the market, stages two and three a
      quarter each at the aggressive and conservative levels. */
  datatype Plan = Plan(qty50: real, qty25: real, cost50: real, cost25: real, totalQty: real, avgEntry: real,
                       aggressive: real, conservative: real, stopLoss: real, riskPct: real)

  function PlanOf(price: real, l: Levels, riskPct: real): Plan
    requires price != 0.0
  {
    var qty50 := Budget * 0.5 / price;
    var qty25 := Budget * 0.25 / price;
    var total := qty50 + qty25 + qty25;
    var avg := if total > 0.0 then (price * qty50 + l.aggressive * qty25 + l.conservative * qty25) / total else price;
    Plan(qty50, qty25, Budget * 0.5, Budget * 0.25, total, avg, l.aggressive, l.conservative, l.stopLoss, riskPct)
  }

  /** At a positive price the stages cost exactly the budget, the average
      entry is the 2:1:1 weighted mean of the market, aggressive and
      conservative prices, and so lies between the least and the greatest. */
  lemma SizingSpendsBudget(price: real, l: Levels, riskPct: real)
    requires price > 0.0
    ensures var p := PlanOf(price, l, riskPct);
      p.totalQty * price == Budget && p.cost50 + 2.0 * p.cost25 == Budget &&
      p.qty50 == 2.0 * p.qty25 &&
      p.avgEntry == (2.0 * price + l.aggressive + l.conservative) / 4.0 &&
      Min3(price, l.aggressive, l.conservative) <= p.avgEntry <= Max3(price, l.aggressive, l.conservative)
  {
    var p := PlanOf(price, l, riskPct);
    var k := 25.0 / price;
    assert k > 0.0;
    assert p.qty25 == k;
    assert p.qty50 == 2.0 * k;
    assert p.totalQty == 4.0 * k;
    assert k * price == 25.0;
    var n := price * p.qty50 + l.aggressive * p.qty25 + l.conservative * p.qty25;
    assert n == k * (2.0 * price + l.aggressive + l.conservative);
    assert p.avgEntry == n / (4.0 * k);
    DivideCommonFactor(k, 2.0 * price + l.aggressive + l.conservative);
  }

  lemma DivideCommonFactor(k: real, x: real)
    requires k > 0.0
    ensures (k * x) / (4.0 * k) == x / 4.0
  {
    assert (x / 4.0) * (4.0 * k) == k * x;
  }

  function Min3(a: real, b: real, c: real): real
  {
    if a <= b && a <= c then a else if b <= c then b else c
  }

  function Max3(a: real, b: real, c: real): real
  {
    if a >= b && a >= c then a else if b >= c then b else c
  }

  datatype Recommendation = EnterNow(price: real) | WatchClosely | HoldForZone

  function BuildRecommendation(isEntryZone: bool, deviationSignal: bool, volumeConfirmed: bool, price: real): Recommendation
  {
    if isEntryZone && (deviationSignal || volumeConfirmed) then EnterNow(price)
    else if isEntryZone then WatchClosely
    else HoldForZone
  }

  datatype FinalMessage = ExecuteNow | WaitForVolume | NotYet

  function BuildFinalMessage(isEntryZone: bool, deviationSignal: bool, volumeConfirmed: bool): FinalMessage
  {
    if isEntryZone && deviationSignal && volumeConfirmed then ExecuteNow
    else if isEntryZone then WaitForVolume
    else NotYet
  }

  datatype Analysis = Analysis(
    currentPrice: real, z: real, sigma: real, e: real, volumeRatio: Option<real>, signal: O.Signal,
    position: PositionType, isEntryZone: bool, levels: Levels,
    deviationSignal: bool, volumeConfirmed: bool, timing: bool, confidence: AdvisorConfidence,
    profits: Profits, plan: Option<Plan>, recommendation: Recommendation, finalMessage: FinalMessage)

  datatype AdvisorError = NoDataAvailable

  /** The volume ratio used: the column's value (None for NaN), or 100 when
      the column is missing. */
  function VolumeRatioOf(v: VolumeColumn): Option<real>
  {
    match v
    case MissingColumn => Some(DefaultVolumeRatio)
    case Present(r) => r
  }

  function ContextualAnalysis(latest: Latest): Analysis
    requires latest.close != 0.0
  {
    var price := latest.close;
    var z := if latest.zPrime.Some? then latest.zPrime.value else price;
    var sigma := if latest.sigma.Some? then latest.sigma.value else 0.0;
    var e := if latest.e.Some? then latest.e.value else 0.0;
    var volumeRatio := VolumeRatioOf(latest.volume);
    var levels := LevelsOf(z, sigma, e);
    var deviationSignal := Abs(e) >= EntryDeviation;
    var volumeConfirmed := volumeRatio.Some? && volumeRatio.value > VolumeConfirmation;
    var timing := latest.tReversal.Some? && latest.dominantPeriod.Some? && latest.dominantPeriod.value > 0.0 &&
                  latest.tReversal.value < latest.dominantPeriod.value * 0.10;
    var position := if e < 0.0 then LongPosition else ShortPosition;
    var isEntryZone := Abs(e) >= EntryDeviation;
    var profits := ProfitsOf(position, price, levels);
    var plan := if isEntryZone && (deviationSignal || volumeConfirmed) then Some(PlanOf(price, levels, profits.risk)) else None;
    Analysis(price, z, sigma, e, volumeRatio, latest.signal, position, isEntryZone, levels,
             deviationSignal, volumeConfirmed, timing, ConfidenceOf(deviationSignal, volumeConfirmed, timing),
             profits, plan, BuildRecommendation(isEntryZone, deviationSignal, volumeConfirmed, price),
             BuildFinalMessage(isEntryZone, deviationSignal, volumeConfirmed))
  }

  /** The analysis of the latest bar; the source divides by the current
      price, so a zero close there is outside what it handles. */
  function GenerateActionableAnalysis(bars: seq<Latest>): (r: Result<Analysis, AdvisorError>)
    requires |bars| > 0 ==> bars[|bars| - 1].close != 0.0
    ensures r.Failure? <==> |bars| == 0
  {
    if |bars| == 0 then Failure(NoDataAvailable)
    else Success(ContextualAnalysis(bars[|bars| - 1]))
  }

  /** Missing values fall back to the price, zero sigma and zero deviation;
      the flags use |E| >= 2 (inclusive), a ratio above 100 (100 when the
      column is absent, never confirmed when NaN) and a positive period with
      T_reversal under a tenth of it; confidence counts the flags. */
  lemma AnalysisFlags(latest: Latest)
    requires latest.close != 0.0
    ensures var a := ContextualAnalysis(latest);
      (latest.zPrime.None? ==> a.z == latest.close) &&
      (latest.sigma.None? ==> a.sigma == 0.0) &&
      (latest.e.None? ==> a.e == 0.0 && a.position == ShortPosition && !a.deviationSignal) &&
      (a.deviationSignal <==> latest.e.Some? && Abs(latest.e.value) >= 2.0) &&
      (a.volumeConfirmed <==>
        (latest.volume.Present? && latest.volume.ratio.Some? && latest.volume.ratio.value > 100.0)) &&
      (latest.volume.MissingColumn? ==> a.volumeRatio == Some(100.0)) &&
      (a.timing <==>
        latest.tReversal.Some? && latest.dominantPeriod.Some? && latest.dominantPeriod.value > 0.0 &&
        latest.tReversal.value < latest.dominantPeriod.value * 0.10) &&
      (a.confidence == HighConfidence <==> a.deviationSignal && a.volumeConfirmed && a.timing) &&
      (a.confidence == MediumConfidence <==>
        (a.deviationSignal && a.volumeConfirmed && !a.timing) ||
        (a.deviationSignal && !a.volumeConfirmed && a.timing) ||
        (!a.deviationSignal && a.volumeConfirmed && a.timing))
  {
  }

  /** A plan exists exactly in the entry zone |E| >= 2; the entry zone and
      the deviation flag coincide, so the recommendation is ENTER there and
      HOLD elsewhere and the WATCH CLOSELY branch is never taken; the final
      message asks to execute exactly when volume also confirms. */
  lemma RecommendationRules(latest: Latest)
    requires latest.close != 0.0
    ensures var a := ContextualAnalysis(latest);
      (a.plan.Some? <==> Abs(a.e) >= 2.0) &&
      a.isEntryZone == a.deviationSignal &&
      (a.recommendation == EnterNow(latest.close) <==> a.isEntryZone) &&
      (a.recommendation == HoldForZone <==> !a.isEntryZone) &&
      a.recommendation != WatchClosely &&
      (a.finalMessage == ExecuteNow <==> a.isEntryZone && a.volumeConfirmed) &&
      (a.finalMessage == WaitForVolume <==> a.isEntryZone && !a.volumeConfirmed) &&
      (a.plan.Some? ==> a.plan.value.stopLoss == a.levels.stopLoss && a.plan.value.riskPct == a.profits.risk)
  {
  }

  /** The profit to a target scaled by the price gives back the distance to
      it in the position's favour, and a long position at a positive price
      above its stop carries positive risk. */
  lemma ProfitsMeasureDistance(position: PositionType, price: real, l: Levels)
    requires price != 0.0
    ensures var p := ProfitsOf(position, price, l);
      (position == LongPosition ==>
        p.primary * price == (l.primary - price) * 100.0 && p.risk * price == (price - l.stopLoss) * 100.0) &&
      (position == ShortPosition ==>
        p.primary * price == (price - l.primary) * 100.0 && p.risk * price == (l.stopLoss - price) * 100.0) &&
      (position == LongPosition && price > 0.0 && price > l.stopLoss ==> p.risk > 0.0)
  {
    var p := ProfitsOf(position, price, l);
    if position == LongPosition {
      assert (l.primary - price) / price * price == l.primary - price;
      assert (price - l.stopLoss) / price * price == price - l.stopLoss;
      if price > 0.0 && price > l.stopLoss {
        assert (price - l.stopLoss) / price > 0.0;
      }
    } else {
      assert (price - l.primary) / price * price == price - l.primary;
      assert (l.stopLoss - price) / price * price == l.stopLoss - price;
    }
  }
}
