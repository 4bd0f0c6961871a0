/** The simplified interface for front ends (backend/api_wrapper.py): the
    bar limit for a timeframe, the reduced backtest summary, and the
    multi-timeframe loop with its BUY-versus-SELL confluence. */
module ApiWrapper {
  import opened Base
  import opened Stats
  import O = Oracle
  import B = Backtest
  import M = MultiTimeframe

  // ---------------------------------------------------------------------
  // analyze_symbol: the bar limit
  // ---------------------------------------------------------------------

  /** The number of bars requested for `days` days. */
  function Limit(timeframe: string, days: int): int
  {
    if timeframe == "1h" then days * 24
    else if timeframe == "4h" then days * 6
    else if timeframe == "1d" then days
    else days * 24
  }

  /** The hours one bar spans; an unknown timeframe is treated as hourly. */
  function HoursPerBar(timeframe: string): (h: nat)
    ensures h == 1 || h == 4 || h == 24
  {
    if timeframe == "4h" then 4 else if timeframe == "1d" then 24 else 1
  }

  /** The limit covers exactly the requested days at the timeframe's bar
      length, and an unlisted timeframe gets the hourly limit. */
  lemma LimitCoversDays(timeframe: string, days: int)
    ensures Limit(timeframe, days) * HoursPerBar(timeframe) == days * 24
    ensures timeframe !in {"1h", "4h", "1d"} ==> Limit(timeframe, days) == Limit("1h", days)
    ensures days >= 0 ==> 0 <= Limit("1d", days) <= Limit("4h", days) <= Limit("1h", days)
  {
  }

  // ---------------------------------------------------------------------
  // run_backtest
  // ---------------------------------------------------------------------

  /** The only holding period the summary reports on. */
  const ReportedPeriod: nat := 10

  /** The forward returns at horizon p of the bars in [0, k) labelled
      `kind`, in bar order, undefined ones kept (and not sign-flipped). */
  function LabelReturns(rows: seq<O.Row>, kind: O.Signal, p: nat, k: nat): (rs: seq<Option<real>>)
    requires k <= |rows| && B.NonZeroCloses(B.RowCloses(rows))
    ensures |rs| == CountIf(rows[..k], B.IsSignal(kind))
  {
    if k == 0 then []
    else
      assert rows[..k][..k - 1] == rows[..k - 1];
      var init := LabelReturns(rows, kind, p, k - 1);
      if rows[k - 1].signal == kind then init + [B.ForwardReturn(B.RowCloses(rows), p, k - 1)] else init
  }

  /** A return counts as a win only when it is defined and positive. */
  function IsGain(r: Option<real>): bool
  {
    r.Some? && r.value > 0.0
  }

  datatype LabelStats = LabelStats(count: nat, winRate10: real, meanReturn10: Option<real>, medianReturn10: Option<real>)

  datatype BacktestSummary = BacktestSummary(totalBars: nat, performance: map<O.Signal, LabelStats>)

  function MedianDefined(rs: seq<Option<real>>): Option<real>
  {
    var d := Defined(rs);
    if |d| > 0 then Some(Median(d)) else None
  }

  /** The statistics of a kind with `count` bars and the ten-bar returns
      `rs` of those bars. */
  function Summary(count: nat, rs: seq<Option<real>>): LabelStats
    requires count > 0
  {
    LabelStats(count, WinRate(count, rs), B.MeanDefined(rs), MedianDefined(rs))
  }

  /** The percentage of the `count` bars whose return is a gain. */
  function WinRate(count: nat, rs: seq<Option<real>>): real
    requires count > 0
  {
    CountIf(rs, IsGain) as real / count as real * 100.0
  }

  function StatsFor(rows: seq<O.Row>, kind: O.Signal, periods: seq<nat>): LabelStats
    requires B.NonZeroCloses(B.RowCloses(rows))
    requires CountIf(rows, B.IsSignal(kind)) > 0
  {
    var count := CountIf(rows, B.IsSignal(kind));
    if ReportedPeriod in periods then Summary(count, LabelReturns(rows, kind, ReportedPeriod, |rows|))
    else LabelStats(count, 0.0, Some(0.0), Some(0.0))
  }

  function RunBacktest(rows: seq<O.Row>, periods: seq<nat>): (r: Option<BacktestSummary>)
    requires B.NonZeroCloses(B.RowCloses(rows))
    ensures r.None? <==> |rows| == 0
  {
    if |rows| == 0 then None
    else
      Some(BacktestSummary(|rows|,
        map kind | kind in {O.Buy, O.Sell, O.Hold} && CountIf(rows, B.IsSignal(kind)) > 0 ::
          StatsFor(rows, kind, periods)))
  }

  /** The win rate is the share of all the kind's bars whose return is
      defined and positive (an undefined return counts as a loss), so it is
      a percentage. */
  lemma WinRateProperties(count: nat, rs: seq<Option<real>>)
    requires count == |rs| > 0
    ensures 0.0 <= WinRate(count, rs) <= 100.0
    ensures WinRate(count, rs) * count as real == CountIf(rs, IsGain) as real * 100.0
  {
    ShareFacts(WinRate(count, rs), CountIf(rs, IsGain), count);
  }

  /** The mean and the median are undefined without a defined return, and
      otherwise lie between the least and greatest defined return. */
  lemma ReturnSummaryProperties(rs: seq<Option<real>>)
    ensures var mean, median := B.MeanDefined(rs), MedianDefined(rs);
      (mean.Some? <==> |Defined(rs)| > 0) &&
      (median.Some? <==> |Defined(rs)| > 0) &&
      (mean.Some? ==>
        MinOf(Defined(rs)) <= mean.value <= MaxOf(Defined(rs)) &&
        MinOf(Defined(rs)) <= median.value <= MaxOf(Defined(rs)))
  {
    var d := Defined(rs);
    if |d| > 0 {
      MeanWithinRange(d);
      MedianWithinRange(d);
    }
  }

  /** Without the ten-bar horizon a kind's entry reports zeros; with it,
      the entry summarises the kind's ten-bar returns, one per bar. */
  lemma StatsForProperties(rows: seq<O.Row>, kind: O.Signal, periods: seq<nat>)
    requires B.NonZeroCloses(B.RowCloses(rows)) && CountIf(rows, B.IsSignal(kind)) > 0
    ensures var st := StatsFor(rows, kind, periods);
      var rs := LabelReturns(rows, kind, ReportedPeriod, |rows|);
      st.count == CountIf(rows, B.IsSignal(kind)) == |rs| &&
      (ReportedPeriod !in periods ==> st == LabelStats(st.count, 0.0, Some(0.0), Some(0.0))) &&
      (ReportedPeriod in periods ==> st == Summary(st.count, rs))
  {
    assert rows[..|rows|] == rows;
  }

  /** A share of a whole, as a percentage, scales back to the part. */
  lemma ShareFacts(share: real, part: nat, whole: nat)
    requires part <= whole && whole > 0 && share == part as real / whole as real * 100.0
    ensures share * whole as real == part as real * 100.0
    ensures 0.0 <= share <= 100.0
  {
    PercentageWithinRange(part, whole);
  }

  /** Exactly the kinds that occur get an entry, each the kind's statistics. */
  lemma RunBacktestKeys(rows: seq<O.Row>, periods: seq<nat>)
    requires |rows| > 0 && B.NonZeroCloses(B.RowCloses(rows))
    ensures var r := RunBacktest(rows, periods).value;
      r.totalBars == |rows| &&
      (forall kind :: kind in r.performance <==> CountIf(rows, B.IsSignal(kind)) > 0) &&
      (forall kind :: kind in r.performance ==> r.performance[kind] == StatsFor(rows, kind, periods))
  {
    var r := RunBacktest(rows, periods).value;
    forall kind
      ensures kind in r.performance <==> CountIf(rows, B.IsSignal(kind)) > 0
    {
      match kind
      case Buy =>
      case Sell =>
      case Hold =>
    }
  }

  /** The summary does not flip SELL returns: its defined SELL returns are
      the negation of the oriented SELL sample of the full signal analysis. */
  lemma {:induction false} SellReturnsAreNotFlipped(rows: seq<O.Row>, p: nat, k: nat)
    requires k <= |rows| && B.NonZeroCloses(B.RowCloses(rows))
    ensures Defined(LabelReturns(rows, O.Sell, p, k)) ==
      B.Negated(B.SignalReturns(B.RowCloses(rows), B.Signals(rows), O.Sell, p, k))
  {
    if k > 0 {
      SellReturnsAreNotFlipped(rows, p, k - 1);
      if rows[k - 1].signal == O.Sell {
        SellStepOnSell(rows, p, k);
      } else {
        assert B.Signals(rows)[k - 1] == rows[k - 1].signal;
      }
    }
  }

  lemma SellStepOnSell(rows: seq<O.Row>, p: nat, k: nat)
    requires 0 < k <= |rows| && B.NonZeroCloses(B.RowCloses(rows)) && rows[k - 1].signal == O.Sell
    requires Defined(LabelReturns(rows, O.Sell, p, k - 1)) ==
      B.Negated(B.SignalReturns(B.RowCloses(rows), B.Signals(rows), O.Sell, p, k - 1))
    ensures Defined(LabelReturns(rows, O.Sell, p, k)) ==
      B.Negated(B.SignalReturns(B.RowCloses(rows), B.Signals(rows), O.Sell, p, k))
  {
    var f := B.ForwardReturn(B.RowCloses(rows), p, k - 1);
    var init := LabelReturns(rows, O.Sell, p, k - 1);
    var oriented := B.SignalReturns(B.RowCloses(rows), B.Signals(rows), O.Sell, p, k - 1);
    assert B.Signals(rows)[k - 1] == O.Sell;
    assert LabelReturns(rows, O.Sell, p, k) == init + [f];
    assert B.SignalReturns(B.RowCloses(rows), B.Signals(rows), O.Sell, p, k) ==
      oriented + (if f.Some? then [-f.value] else []);
    NegatedStep(init, oriented, f);
  }

  lemma NegatedStep(init: seq<Option<real>>, oriented: seq<real>, f: Option<real>)
    requires Defined(init) == B.Negated(oriented)
    ensures Defined(init + [f]) == B.Negated(oriented + (if f.Some? then [-f.value] else []))
  {
    DefinedSnoc(init, f);
    if f.Some? {
      NegatedSnoc(oriented, -f.value);
    } else {
      assert oriented + [] == oriented;
    }
  }

  lemma NegatedSnoc(xs: seq<real>, x: real)
    ensures B.Negated(xs + [x]) == B.Negated(xs) + [-x]
  {
  }

  /** ... while its defined BUY returns are exactly the BUY sample. */
  lemma BuyReturnsAgree(rows: seq<O.Row>, p: nat, k: nat)
    requires k <= |rows| && B.NonZeroCloses(B.RowCloses(rows))
    ensures Defined(LabelReturns(rows, O.Buy, p, k)) ==
      B.SignalReturns(B.RowCloses(rows), B.Signals(rows), O.Buy, p, k)
  {
    BuyAgreement(rows, p, k);
  }

  /** The BUY agreement up to bar k, named so that the induction step can
      take its hypothesis whole. */
  ghost predicate BuyAgrees(rows: seq<O.Row>, p: nat, k: nat)
    requires k <= |rows| && B.NonZeroCloses(B.RowCloses(rows))
  {
    Defined(LabelReturns(rows, O.Buy, p, k)) == B.SignalReturns(B.RowCloses(rows), B.Signals(rows), O.Buy, p, k)
  }

  lemma {:induction false} BuyAgreement(rows: seq<O.Row>, p: nat, k: nat)
    requires k <= |rows| && B.NonZeroCloses(B.RowCloses(rows))
    ensures BuyAgrees(rows, p, k)
  {
    if k > 0 {
      BuyAgreement(rows, p, k - 1);
      var extra := BuyStep(rows, p, k);
      SameAppend(Defined(LabelReturns(rows, O.Buy, p, k)), Defined(LabelReturns(rows, O.Buy, p, k - 1)),
        B.SignalReturns(B.RowCloses(rows), B.Signals(rows), O.Buy, p, k),
        B.SignalReturns(B.RowCloses(rows), B.Signals(rows), O.Buy, p, k - 1), extra);
    }
  }

  lemma SameAppend(xs: seq<real>, xsBefore: seq<real>, ys: seq<real>, ysBefore: seq<real>, extra: seq<real>)
    requires xs == xsBefore + extra
    requires ys == ysBefore + extra
    requires xsBefore == ysBefore
    ensures xs == ys
  {
  }

  /** Bar k - 1 adds the same value, or none, to both BUY samples. */
  lemma BuyStep(rows: seq<O.Row>, p: nat, k: nat) returns (extra: seq<real>)
    requires 0 < k <= |rows| && B.NonZeroCloses(B.RowCloses(rows))
    ensures Defined(LabelReturns(rows, O.Buy, p, k)) == Defined(LabelReturns(rows, O.Buy, p, k - 1)) + extra
    ensures B.SignalReturns(B.RowCloses(rows), B.Signals(rows), O.Buy, p, k) ==
      B.SignalReturns(B.RowCloses(rows), B.Signals(rows), O.Buy, p, k - 1) + extra
  {
    var f := B.ForwardReturn(B.RowCloses(rows), p, k - 1);
    extra := if rows[k - 1].signal == O.Buy && f.Some? then [f.value] else [];
    var init := LabelReturns(rows, O.Buy, p, k - 1);
    assert B.Signals(rows)[k - 1] == rows[k - 1].signal;
    if rows[k - 1].signal == O.Buy {
      assert LabelReturns(rows, O.Buy, p, k) == init + [f];
      DefinedSnoc(init, f);
    } else {
      assert LabelReturns(rows, O.Buy, p, k) == init;
    }
  }

  lemma DefinedSnoc(xs: seq<Option<real>>, x: Option<real>)
    ensures Defined(xs + [x]) == Defined(xs) + (if x.Some? then [x.value] else [])
  {
    assert (xs + [x])[..|xs + [x]| - 1] == xs;
  }

  // ---------------------------------------------------------------------
  // analyze_multiple_timeframes
  // ---------------------------------------------------------------------

  /** The recommendation of the wrapper: BUY or SELL by a strict majority of
      one over the other, HOLD at a fixed 50 otherwise. */
  datatype WrapperConfluence = WrapperConfluence(score: real, recommendation: O.Signal)

  /** The score given to a tie between BUY and SELL. */
  const TieScore: real := 50.0

  function Confluence(signals: seq<O.Signal>): Option<WrapperConfluence>
  {
    if |signals| == 0 then None
    else Some(Decide(M.Occurrences(signals, O.Buy), M.Occurrences(signals, O.Sell), |signals|))
  }

  function Decide(buy: nat, sell: nat, total: nat): WrapperConfluence
    requires total > 0
  {
    if buy > sell then WrapperConfluence(buy as real / total as real * 100.0, O.Buy)
    else if sell > buy then WrapperConfluence(sell as real / total as real * 100.0, O.Sell)
    else WrapperConfluence(TieScore, O.Hold)
  }

  /** BUY exactly when BUY outnumbers SELL, SELL exactly when SELL
      outnumbers BUY, and HOLD at 50 on a tie; the winner's score is its
      share of all the votes. */
  lemma DecideRules(buy: nat, sell: nat, total: nat)
    requires buy + sell <= total && total > 0
    ensures var c := Decide(buy, sell, total);
      (c.recommendation == O.Buy <==> buy > sell) &&
      (c.recommendation == O.Sell <==> sell > buy) &&
      (c.recommendation == O.Hold <==> buy == sell) &&
      (c.recommendation == O.Hold ==> c.score == 50.0) &&
      (c.recommendation == O.Buy ==> c.score * total as real == buy as real * 100.0) &&
      (c.recommendation == O.Sell ==> c.score * total as real == sell as real * 100.0) &&
      0.0 <= c.score <= 100.0
  {
    var c := Decide(buy, sell, total);
    if buy > sell {
      ShareFacts(c.score, buy, total);
    } else if sell > buy {
      ShareFacts(c.score, sell, total);
    }
  }

  /** No confluence without signals; otherwise the decision rules apply to
      the BUY and SELL counts, whatever the number of HOLDs. */
  lemma ConfluenceRules(signals: seq<O.Signal>)
    ensures Confluence(signals).None? <==> |signals| == 0
    ensures |signals| > 0 ==>
      var buy, sell := M.Occurrences(signals, O.Buy), M.Occurrences(signals, O.Sell);
      buy + sell <= |signals| && Confluence(signals).value == Decide(buy, sell, |signals|)
  {
    M.CountsPartition(signals);
  }

  /** The wrapper and the full confluence agree on the winner except when
      HOLDs are at least as many as the side the wrapper picked. */
  lemma AgreesWithFullConfluence(results: seq<M.TimeframeResult>)
    requires |results| > 0
    ensures var signals := M.SignalsOf(results);
      var c := Confluence(signals).value;
      var full := M.CalculateTimeframeConfluence(results);
      var hold := M.Occurrences(signals, O.Hold);
      (c.recommendation == O.Buy && M.Occurrences(signals, O.Buy) > hold ==> full.dominant == O.Buy) &&
      (c.recommendation == O.Sell && M.Occurrences(signals, O.Sell) > hold ==> full.dominant == O.Sell) &&
      (c.recommendation == O.Hold ==> full.dominant == O.Hold) &&
      (c.recommendation != full.dominant ==> full.dominant == O.Hold)
  {
  }

  /** One BUY against two HOLDs: the wrapper recommends BUY at a third,
      while the full confluence reports a HOLD majority. */
  lemma LoneBuyOutvotedOnlyByHolds()
    ensures Confluence([O.Buy, O.Hold, O.Hold]) == Some(WrapperConfluence(100.0 / 3.0, O.Buy))
  {
    var s := [O.Buy, O.Hold, O.Hold];
    assert s[..2] == [O.Buy, O.Hold] && s[..2][..1] == [O.Buy] && s[..1] == [O.Buy];
    assert M.Occurrences([O.Buy], O.Buy) == 1 && M.Occurrences([O.Buy], O.Sell) == 0;
    assert M.Occurrences(s[..2], O.Buy) == 1 && M.Occurrences(s[..2], O.Sell) == 0;
    assert M.Occurrences(s, O.Buy) == 1 && M.Occurrences(s, O.Sell) == 0;
  }

  /** What the wrapper reports for one timeframe. */
  datatype TimeframeEntry = TimeframeEntry(signal: O.Signal, deviation: Option<real>, volumeRatio: Option<real>)

  /** A timeframe's analysis succeeded when it produced a non-empty frame. */
  predicate Succeeded(frame: Option<seq<O.Row>>)
  {
    frame.Some? && |frame.value| > 0
  }

  function Last(frame: Option<seq<O.Row>>): O.Row
    requires Succeeded(frame)
  {
    frame.value[|frame.value| - 1]
  }

  /** The latest signals of the first k timeframes that succeeded, in order. */
  function LatestSignals(frames: seq<Option<seq<O.Row>>>, k: nat): (s: seq<O.Signal>)
    requires k <= |frames|
    ensures |s| <= k
  {
    if k == 0 then []
    else LatestSignals(frames, k - 1) + (if Succeeded(frames[k - 1]) then [Last(frames[k - 1]).signal] else [])
  }

  /** The per-timeframe entries of the first k timeframes; a timeframe named
      twice keeps its later entry. */
  function Entries(timeframes: seq<string>, frames: seq<Option<seq<O.Row>>>, k: nat): map<string, TimeframeEntry>
    requires k <= |frames| == |timeframes|
  {
    if k == 0 then map[]
    else
      var init := Entries(timeframes, frames, k - 1);
      if Succeeded(frames[k - 1]) then
        var last := Last(frames[k - 1]);
        init[timeframes[k - 1] := TimeframeEntry(last.signal, last.e, last.volumeRatio)]
      else init
  }

  /** The analyses of the timeframes are inputs (one optional frame per
      timeframe, None where fetching or analysis failed); failed timeframes
      are skipped, and the confluence is present only when one succeeded. */
  method AnalyzeMultipleTimeframes(timeframes: seq<string>, frames: seq<Option<seq<O.Row>>>)
    returns (entries: map<string, TimeframeEntry>, signals: seq<O.Signal>, confluence: Option<WrapperConfluence>)
    requires |frames| == |timeframes|
    ensures entries == Entries(timeframes, frames, |frames|)
    ensures signals == LatestSignals(frames, |frames|)
    ensures confluence == Confluence(signals)
    ensures confluence.None? <==> forall i :: 0 <= i < |frames| ==> !Succeeded(frames[i])
  {
    entries := map[];
    signals := [];
    for i := 0 to |timeframes|
      invariant entries == Entries(timeframes, frames, i)
      invariant signals == LatestSignals(frames, i)
      invariant |signals| == 0 <==> forall j :: 0 <= j < i ==> !Succeeded(frames[j])
    {
      var frame := frames[i];
      if frame.Some? && |frame.value| > 0 {
        var latest := frame.value[|frame.value| - 1];
        entries := entries[timeframes[i] := TimeframeEntry(latest.signal, latest.e, latest.volumeRatio)];
        signals := signals + [latest.signal];
      }
    }
    confluence := Confluence(signals);
  }

  /** Entries are keyed exactly by the timeframes that succeeded, one signal
      is collected per success, and a timeframe named twice is listed once
      but votes twice. */
  lemma {:induction false} EntriesAndSignals(timeframes: seq<string>, frames: seq<Option<seq<O.Row>>>, k: nat)
    requires k <= |frames| == |timeframes|
    ensures forall tf :: tf in Entries(timeframes, frames, k) <==>
      exists i :: 0 <= i < k && timeframes[i] == tf && Succeeded(frames[i])
    ensures |Entries(timeframes, frames, k)| <= |LatestSignals(frames, k)|
  {
    if k > 0 {
      EntriesAndSignals(timeframes, frames, k - 1);
      var init := Entries(timeframes, frames, k - 1);
      if Succeeded(frames[k - 1]) {
        assert Entries(timeframes, frames, k).Keys == init.Keys + {timeframes[k - 1]};
        assert |init.Keys + {timeframes[k - 1]}| <= |init.Keys| + 1;
      }
    }
  }

  lemma DuplicateTimeframeVotesTwice(frame: seq<O.Row>)
    requires |frame| > 0
    ensures |Entries(["1h", "1h"], [Some(frame), Some(frame)], 2)| == 1
    ensures |LatestSignals([Some(frame), Some(frame)], 2)| == 2
  {
    var last := frame[|frame| - 1];
    var e := TimeframeEntry(last.signal, last.e, last.volumeRatio);
    assert Entries(["1h", "1h"], [Some(frame), Some(frame)], 1) == map["1h" := e];
    assert Entries(["1h", "1h"], [Some(frame), Some(frame)], 2) == map["1h" := e];
  }
}
