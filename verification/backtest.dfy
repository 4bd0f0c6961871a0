/** Historical evaluation of the oracle's signals (backend/backtest.py):
    forward returns, per-signal return statistics with the SELL sign flip, and
    the look-ahead check of the predicted reversal times. */
module Backtest {
  import opened Base
  import opened Stats
  import O = Oracle

  // ---------------------------------------------------------------------
  // calculate_forward_returns
  // ---------------------------------------------------------------------

  /** No close is zero, so every return is a finite percentage. */
  ghost predicate NonZeroCloses(closes: seq<real>)
  {
    forall t :: 0 <= t < |closes| ==> closes[t] != 0.0
  }

  /** Forward_Return_p at bar t: the percentage change from close[t] to
      close[t + p], undefined for the last p bars. */
  function ForwardReturn(closes: seq<real>, p: nat, t: nat): (r: Option<real>)
    requires t < |closes| && closes[t] != 0.0
    ensures r.None? <==> t + p >= |closes|
  {
    if t + p < |closes| then Some((closes[t + p] / closes[t] - 1.0) * 100.0) else None
  }

  /** A defined forward return is the growth that carries close[t] to
      close[t + p]. */
  lemma ForwardReturnIsGrowth(closes: seq<real>, p: nat, t: nat)
    requires t < |closes| && closes[t] != 0.0
    ensures var r := ForwardReturn(closes, p, t);
      r.Some? ==> closes[t + p] == closes[t] * (1.0 + r.value / 100.0)
  {
    if t + p < |closes| {
      var ratio := closes[t + p] / closes[t];
      assert closes[t] * ratio == closes[t + p];
      assert (ratio - 1.0) * 100.0 / 100.0 == ratio - 1.0;
    }
  }

  /** A fall from 100 to 90 is a -10% forward return. */
  lemma ForwardReturnExample()
    ensures ForwardReturn([100.0, 95.0, 90.0], 2, 0) == Some(-10.0)
    ensures ForwardReturn([100.0, 95.0, 90.0], 2, 1) == None
  {
  }

  // ---------------------------------------------------------------------
  // analyze_signal_performance
  // ---------------------------------------------------------------------

  /** SELL returns are negated: a falling price is a gain for a SELL. */
  function Oriented(signal: O.Signal, r: real): real
  {
    if signal == O.Sell then -r else r
  }

  /** The defined forward returns at horizon p of the bars in [0, k) whose
      signal is `signal`, oriented for that signal, in bar order. */
  function SignalReturns(closes: seq<real>, signals: seq<O.Signal>, signal: O.Signal, p: nat, k: nat): (rs: seq<real>)
    requires k <= |closes| == |signals| && NonZeroCloses(closes)
    ensures |rs| <= k
  {
    if k == 0 then []
    else
      var init := SignalReturns(closes, signals, signal, p, k - 1);
      if signals[k - 1] == signal && ForwardReturn(closes, p, k - 1).Some? then
        init + [Oriented(signal, ForwardReturn(closes, p, k - 1).value)]
      else init
  }

  function SwapSide(s: O.Signal): O.Signal
  {
    match s
    case Buy => O.Sell
    case Sell => O.Buy
    case Hold => O.Hold
  }

  function Negated(xs: seq<real>): (ys: seq<real>)
    ensures |ys| == |xs| && forall i :: 0 <= i < |xs| ==> ys[i] == -xs[i]
  {
    seq(|xs|, i requires 0 <= i < |xs| => -xs[i])
  }

  /** SELL statistics are BUY statistics of the same bars with every return
      negated, and vice versa: swapping the two labels negates the sample. */
  lemma {:induction false} SellReturnsAreNegatedBuyReturns(closes: seq<real>, signals: seq<O.Signal>, p: nat, k: nat)
    requires k <= |closes| == |signals| && NonZeroCloses(closes)
    ensures var swapped := seq(|signals|, i requires 0 <= i < |signals| => SwapSide(signals[i]));
      SignalReturns(closes, signals, O.Sell, p, k) == Negated(SignalReturns(closes, swapped, O.Buy, p, k))
  {
    var swapped := seq(|signals|, i requires 0 <= i < |signals| => SwapSide(signals[i]));
    if k > 0 {
      SellReturnsAreNegatedBuyReturns(closes, signals, p, k - 1);
      var a := SignalReturns(closes, signals, O.Sell, p, k - 1);
      var b := SignalReturns(closes, swapped, O.Buy, p, k - 1);
      assert a == Negated(b);
      if signals[k - 1] == O.Sell && ForwardReturn(closes, p, k - 1).Some? {
        var r := ForwardReturn(closes, p, k - 1).value;
        assert Negated(b + [r]) == Negated(b) + [-r];
      }
    }
  }

  function IsWin(r: real): bool
  {
    r > 0.0
  }

  datatype HorizonStats = HorizonStats(mean: real, median: real, std: Option<real>, winRate: real, best: real, worst: real)

  /** Statistics of a non-empty sample of oriented returns; the sample
      deviation (ddof = 1) is an input and is undefined for one value. */
  function HorizonStatsOf(rs: seq<real>, stdev: seq<real> -> real): HorizonStats
    requires |rs| > 0
  {
    HorizonStats(
      Mean(rs), Median(rs),
      if |rs| >= 2 then Some(stdev(rs)) else None,
      CountIf(rs, IsWin) as real / |rs| as real * 100.0,
      MaxOf(rs), MinOf(rs))
  }

  /** worst <= median <= best, worst <= mean <= best, and the win rate is a
      percentage. */
  lemma HorizonStatsOrdered(rs: seq<real>, stdev: seq<real> -> real)
    requires |rs| > 0
    ensures var h := HorizonStatsOf(rs, stdev);
      h.worst <= h.median <= h.best && h.worst <= h.mean <= h.best &&
      0.0 <= h.winRate <= 100.0 &&
      h.worst in rs && h.best in rs
  {
    MeanWithinRange(rs);
    MedianWithinRange(rs);
    MinMaxBound(rs);
    PercentageWithinRange(CountIf(rs, IsWin), |rs|);
  }

  datatype SignalStats =
    | NoOccurrences
    | Occurrences(count: nat, percentage: real, avgE: Option<real>, avgVolumeRatio: Option<real>,
                  highConfidencePct: real, forwardReturns: map<nat, HorizonStats>)

  /** The mean of the defined values, undefined when there are none. */
  function MeanDefined(xs: seq<Option<real>>): Option<real>
  {
    var d := Defined(xs);
    if |d| > 0 then Some(Mean(d)) else None
  }

  function RowCloses(rows: seq<O.Row>): (c: seq<real>)
    ensures |c| == |rows|
  {
    seq(|rows|, i requires 0 <= i < |rows| => rows[i].bar.close)
  }

  function Signals(rows: seq<O.Row>): (s: seq<O.Signal>)
    ensures |s| == |rows|
  {
    seq(|rows|, i requires 0 <= i < |rows| => rows[i].signal)
  }

  function OfSignal(rows: seq<O.Row>, signal: O.Signal): (sel: seq<O.Row>)
    ensures |sel| <= |rows|
    ensures forall r :: r in sel ==> r in rows && r.signal == signal
  {
    if rows == [] then []
    else
      var init := OfSignal(rows[..|rows| - 1], signal);
      if rows[|rows| - 1].signal == signal then init + [rows[|rows| - 1]] else init
  }

  function IsSignal(signal: O.Signal): O.Row -> bool
  {
    (r: O.Row) => r.signal == signal
  }

  function IsHighConfidence(r: O.Row): bool
  {
    r.confidence == O.High
  }

  /** The statistics of one signal label over the frame. */
  function SignalStatsOf(rows: seq<O.Row>, signal: O.Signal, periods: set<nat>, stdev: seq<real> -> real): (st: SignalStats)
    requires NonZeroCloses(RowCloses(rows))
    ensures st == NoOccurrences <==> CountIf(rows, IsSignal(signal)) == 0
  {
    var count := CountIf(rows, IsSignal(signal));
    if count == 0 then NoOccurrences
    else
      var closes := RowCloses(rows);
      var sel := OfSignal(rows, signal);
      Occurrences(
        count,
        count as real / |rows| as real * 100.0,
        MeanDefined(seq(|sel|, i requires 0 <= i < |sel| => sel[i].e)),
        MeanDefined(seq(|sel|, i requires 0 <= i < |sel| => sel[i].volumeRatio)),
        CountIf(sel, IsHighConfidence) as real / count as real * 100.0,
        map p | p in periods && |SignalReturns(closes, Signals(rows), signal, p, |rows|)| > 0 ::
          HorizonStatsOf(SignalReturns(closes, Signals(rows), signal, p, |rows|), stdev))
  }

  /** A label that occurs reports a positive count within the frame, a
      percentage in (0, 100], a non-negative high-confidence share, and for
      every horizon that has returns ordered statistics and a win rate that
      is a percentage. */
  lemma SignalStatsProperties(rows: seq<O.Row>, signal: O.Signal, periods: set<nat>, stdev: seq<real> -> real)
    requires NonZeroCloses(RowCloses(rows))
    ensures var st := SignalStatsOf(rows, signal, periods, stdev);
      st.Occurrences? ==>
        0 < st.count <= |rows| && 0.0 < st.percentage <= 100.0 &&
        0.0 <= st.highConfidencePct &&
        forall p :: p in st.forwardReturns ==>
          p in periods &&
          st.forwardReturns[p].worst <= st.forwardReturns[p].median <= st.forwardReturns[p].best &&
          st.forwardReturns[p].worst <= st.forwardReturns[p].mean <= st.forwardReturns[p].best &&
          0.0 <= st.forwardReturns[p].winRate <= 100.0
  {
    var st := SignalStatsOf(rows, signal, periods, stdev);
    if st.Occurrences? {
      var count := CountIf(rows, IsSignal(signal));
      PositiveShare(count, |rows|);
      var sel := OfSignal(rows, signal);
      NonNegativeShare(CountIf(sel, IsHighConfidence), count);
      forall p | p in st.forwardReturns
        ensures st.forwardReturns[p].worst <= st.forwardReturns[p].median <= st.forwardReturns[p].best
        ensures st.forwardReturns[p].worst <= st.forwardReturns[p].mean <= st.forwardReturns[p].best
        ensures 0.0 <= st.forwardReturns[p].winRate <= 100.0
      {
        HorizonStatsOrdered(SignalReturns(RowCloses(rows), Signals(rows), signal, p, |rows|), stdev);
      }
    }
  }

  lemma PositiveShare(part: nat, whole: nat)
    requires 0 < part <= whole
    ensures 0.0 < part as real / whole as real * 100.0 <= 100.0
  {
    PercentageWithinRange(part, whole);
    assert part as real / whole as real > 0.0;
  }

  lemma NonNegativeShare(part: nat, whole: nat)
    requires whole > 0
    ensures part as real / whole as real * 100.0 >= 0.0
  {
  }

  /** The report of analyze_signal_performance. */
  datatype PerformanceReport = PerformanceReport(totalBars: nat, validBars: nat, buy: SignalStats, sell: SignalStats)

  function AnalyzeSignalPerformance(rows: seq<O.Row>, periods: set<nat>, stdev: seq<real> -> real): (r: PerformanceReport)
    requires NonZeroCloses(RowCloses(rows))
    ensures r.totalBars == r.validBars == |rows|
    ensures r.buy == NoOccurrences <==> CountIf(rows, IsSignal(O.Buy)) == 0
    ensures r.sell == NoOccurrences <==> CountIf(rows, IsSignal(O.Sell)) == 0
  {
    PerformanceReport(|rows|, |rows|, SignalStatsOf(rows, O.Buy, periods, stdev), SignalStatsOf(rows, O.Sell, periods, stdev))
  }

  // ---------------------------------------------------------------------
  // analyze_phase_accuracy
  // ---------------------------------------------------------------------

  /** Python's int() on a float: truncation toward zero. */
  function Trunc(x: real): (n: int)
    ensures x >= 0.0 ==> n as real <= x < n as real + 1.0
    ensures x < 0.0 ==> n as real - 1.0 < x <= n as real
  {
    if x >= 0.0 then x.Floor else -((-x).Floor)
  }

  /** The offset of the first value above `level` (numpy's argmax of the
      mask), if any value is above it. */
  function FirstAbove(xs: seq<real>, level: real): (r: Option<nat>)
    ensures r.None? <==> forall j :: 0 <= j < |xs| ==> xs[j] <= level
    ensures r.Some? ==>
      r.value < |xs| && xs[r.value] > level && forall j :: 0 <= j < r.value ==> xs[j] <= level
  {
    if xs == [] then None
    else if xs[0] > level then Some(0)
    else
      match FirstAbove(xs[1..], level)
      case None => None
      case Some(k) => Some(k + 1)
  }

  /** The offset of the first value below `level`, if any. */
  function FirstBelow(xs: seq<real>, level: real): (r: Option<nat>)
    ensures r.None? <==> forall j :: 0 <= j < |xs| ==> xs[j] >= level
    ensures r.Some? ==>
      r.value < |xs| && xs[r.value] < level && forall j :: 0 <= j < r.value ==> xs[j] >= level
  {
    if xs == [] then None
    else if xs[0] < level then Some(0)
    else
      match FirstBelow(xs[1..], level)
      case None => None
      case Some(k) => Some(k + 1)
  }

  /** The 1% move that confirms a reversal. */
  const UpMove: real := 1.01
  const DownMove: real := 0.99
  /** Bars looked at beyond the predicted reversal time. */
  const LookaheadBuffer: int := 5

  /** A bar with a defined reversal time and the timing gate set. */
  predicate Predicted(r: O.Row)
  {
    r.tReversal.Some? && r.timingSignal
  }

  /** What one bar contributes to the accuracy counts. */
  datatype Outcome = NotPredicted | Unscored | Accurate(error: nat) | Missed

  function IntAbs(x: int): nat
  {
    if x < 0 then -x else x
  }

  /** The outcome of a scored prediction whose look-ahead closes are
      `future`. */
  function Score(signal: O.Signal, price: real, future: seq<real>, tRev: int): (o: Outcome)
    ensures o != NotPredicted
  {
    if signal == O.Buy then
      match FirstAbove(future, price * UpMove)
      case Some(k) => Accurate(IntAbs(k - tRev))
      case None => Missed
    else if signal == O.Sell then
      match FirstBelow(future, price * DownMove)
      case Some(k) => Accurate(IntAbs(k - tRev))
      case None => Missed
    else Unscored
  }

  /** min(int(T_reversal) + 5, bars left after pos). */
  function LookaheadWindow(rows: seq<O.Row>, pos: nat): (w: int)
    requires pos < |rows| && Predicted(rows[pos])
    ensures w <= |rows| - pos - 1 && w <= Trunc(rows[pos].tReversal.value) + LookaheadBuffer
    ensures w == Trunc(rows[pos].tReversal.value) + LookaheadBuffer || w == |rows| - pos - 1
  {
    Min(Trunc(rows[pos].tReversal.value) + LookaheadBuffer, |rows| - pos - 1)
  }

  function OutcomeAt(rows: seq<O.Row>, pos: nat): (o: Outcome)
    requires pos < |rows|
    ensures o == NotPredicted <==> !Predicted(rows[pos])
  {
    if !Predicted(rows[pos]) then NotPredicted
    else
      var window := LookaheadWindow(rows, pos);
      if window <= 0 then Unscored
      else Score(rows[pos].signal, rows[pos].bar.close, RowCloses(rows)[pos + 1..pos + 1 + window],
                 Trunc(rows[pos].tReversal.value))
  }

  /** A BUY is accurate exactly when some look-ahead close exceeds 1.01
      times its close, a SELL when one is below 0.99 times it, and the error
      is the distance from the first such offset to int(T_reversal); a HOLD
      is counted in neither bucket. */
  lemma ScoreMeaning(signal: O.Signal, price: real, future: seq<real>, tRev: int)
    ensures var o := Score(signal, price, future, tRev);
      (signal == O.Hold ==> o == Unscored) &&
      (signal == O.Buy ==>
        (o.Accurate? <==> exists j :: 0 <= j < |future| && future[j] > price * UpMove) &&
        (o.Accurate? ==>
          exists k :: 0 <= k < |future| && future[k] > price * UpMove &&
            o.error == IntAbs(k - tRev) && forall j :: 0 <= j < k ==> future[j] <= price * UpMove)) &&
      (signal == O.Sell ==>
        (o.Accurate? <==> exists j :: 0 <= j < |future| && future[j] < price * DownMove) &&
        (o.Accurate? ==>
          exists k :: 0 <= k < |future| && future[k] < price * DownMove &&
            o.error == IntAbs(k - tRev) && forall j :: 0 <= j < k ==> future[j] >= price * DownMove))
  {
    var o := Score(signal, price, future, tRev);
    if signal == O.Buy && o.Accurate? {
      var k := FirstAbove(future, price * UpMove).value;
      assert future[k] > price * UpMove;
    }
    if signal == O.Sell && o.Accurate? {
      var k := FirstBelow(future, price * DownMove).value;
      assert future[k] < price * DownMove;
    }
  }

  /** The look-ahead window of a predicted bar holds the closes of the next
      `window` bars, all inside the frame. */
  lemma LookaheadStaysInFrame(rows: seq<O.Row>, pos: nat)
    requires pos < |rows| && Predicted(rows[pos]) && LookaheadWindow(rows, pos) > 0
    ensures var w := LookaheadWindow(rows, pos);
      var future := RowCloses(rows)[pos + 1..pos + 1 + w];
      |future| == w && pos + w < |rows| &&
      forall k :: 0 <= k < w ==> future[k] == rows[pos + 1 + k].bar.close
  {
  }

  /** Running counts over the bars before some position. */
  datatype Tally = Tally(total: nat, accurate: nat, missed: nat, errors: seq<nat>)

  function Count(t: Tally, o: Outcome): Tally
  {
    match o
    case NotPredicted => t
    case Unscored => t.(total := t.total + 1)
    case Accurate(e) => Tally(t.total + 1, t.accurate + 1, t.missed, t.errors + [e])
    case Missed => t.(total := t.total + 1, missed := t.missed + 1)
  }

  function TallyBefore(rows: seq<O.Row>, k: nat): Tally
    requires k <= |rows|
  {
    if k == 0 then Tally(0, 0, 0, [])
    else Count(TallyBefore(rows, k - 1), OutcomeAt(rows, k - 1))
  }

  /** Every predicted bar is counted once in the total and at most once in
      a bucket; every accurate bar contributes one error; the total is the
      number of predicted bars. */
  lemma {:induction false} TallyConsistent(rows: seq<O.Row>, k: nat)
    requires k <= |rows|
    ensures var t := TallyBefore(rows, k);
      t.accurate + t.missed <= t.total && |t.errors| == t.accurate &&
      t.total == CountIf(rows[..k], Predicted)
  {
    if k > 0 {
      TallyConsistent(rows, k - 1);
      CountStep(TallyBefore(rows, k - 1), OutcomeAt(rows, k - 1));
      assert rows[..k] == rows[..k - 1] + [rows[k - 1]];
      CountIfAppend(rows[..k - 1], rows[k - 1], Predicted);
    }
  }

  /** Counting one outcome keeps the buckets within the total and adds to
      the total exactly when the bar was predicted. */
  lemma CountStep(t: Tally, o: Outcome)
    requires t.accurate + t.missed <= t.total && |t.errors| == t.accurate
    ensures var u := Count(t, o);
      u.accurate + u.missed <= u.total && |u.errors| == u.accurate &&
      u.total == t.total + (if o == NotPredicted then 0 else 1)
  {
  }

  function ToReals(xs: seq<nat>): (ys: seq<real>)
    ensures |ys| == |xs| && forall i :: 0 <= i < |xs| ==> ys[i] == xs[i] as real
  {
    seq(|xs|, i requires 0 <= i < |xs| => xs[i] as real)
  }

  datatype PhaseAccuracy = PhaseAccuracy(
    totalPredictions: nat, accuratePredictions: nat, falsePredictions: nat,
    avgErrorBars: real, medianErrorBars: Option<real>, accuracyRate: Option<real>)

  function Report(t: Tally): PhaseAccuracy
  {
    PhaseAccuracy(
      t.total, t.accurate, t.missed,
      if |t.errors| > 0 then Mean(ToReals(t.errors)) else 0.0,
      if |t.errors| > 0 then Some(Median(ToReals(t.errors))) else None,
      if t.total > 0 then Some(t.accurate as real / t.total as real * 100.0) else None)
  }

  /** The summary obeys accurate + false <= total; the accuracy rate is set
      exactly when some bar was predicted and is a percentage; the average
      error stays 0.0 without accurate predictions and is never negative. */
  lemma ReportConsistent(rows: seq<O.Row>)
    ensures var r := Report(TallyBefore(rows, |rows|));
      r.accuratePredictions + r.falsePredictions <= r.totalPredictions &&
      r.totalPredictions == CountIf(rows, Predicted) &&
      (r.accuracyRate.Some? <==> r.totalPredictions > 0) &&
      (r.accuracyRate.Some? ==> 0.0 <= r.accuracyRate.value <= 100.0) &&
      (r.accuratePredictions == 0 ==> r.avgErrorBars == 0.0 && r.medianErrorBars.None?) &&
      r.avgErrorBars >= 0.0
  {
    var t := TallyBefore(rows, |rows|);
    TallyConsistent(rows, |rows|);
    assert rows[..|rows|] == rows;
    if t.total > 0 {
      PercentageWithinRange(t.accurate, t.total);
    }
    if |t.errors| > 0 {
      var xs := ToReals(t.errors);
      MeanWithinRange(xs);
      MinMaxBound(xs);
    }
  }

  /** Scores one prediction against the closes of its look-ahead window. */
  method ScoreWindow(signal: O.Signal, price: real, future: seq<real>, tRev: int) returns (o: Outcome)
    ensures o == Score(signal, price, future, tRev)
  {
    o := Unscored;
    if signal == O.Buy {
      match FirstAbove(future, price * UpMove)
      case Some(k) =>
        o := Accurate(IntAbs(k - tRev));
      case None =>
        o := Missed;
    } else if signal == O.Sell {
      match FirstBelow(future, price * DownMove)
      case Some(k) =>
        o := Accurate(IntAbs(k - tRev));
      case None =>
        o := Missed;
    }
  }

  /** Looks ahead from one predicted bar: the window, the first confirming
      close and the error of the prediction. */
  method ScorePrediction(rows: seq<O.Row>, pos: nat) returns (o: Outcome)
    requires pos < |rows| && Predicted(rows[pos])
    ensures o == OutcomeAt(rows, pos)
  {
    var row := rows[pos];
    var window := LookaheadWindow(rows, pos);
    if window <= 0 {
      return Unscored;
    }
    var future := RowCloses(rows)[pos + 1..pos + 1 + window];
    o := ScoreWindow(row.signal, row.bar.close, future, Trunc(row.tReversal.value));
  }

  /** The look-ahead loop over the predicted bars. */
  method AnalyzePhaseAccuracy(rows: seq<O.Row>) returns (r: PhaseAccuracy)
    ensures r == Report(TallyBefore(rows, |rows|))
  {
    var total, accurate, missed := 0, 0, 0;
    var errors: seq<nat> := [];
    var pos := 0;
    while pos < |rows|
      invariant 0 <= pos <= |rows|
      invariant TallyBefore(rows, pos) == Tally(total, accurate, missed, errors)
    {
      if !Predicted(rows[pos]) {
        pos := pos + 1;
        continue;
      }
      total := total + 1;
      var outcome := ScorePrediction(rows, pos);
      match outcome {
        case Accurate(e) =>
          errors := errors + [e];
          accurate := accurate + 1;
        case Missed =>
          missed := missed + 1;
        case _ =>
      }
      pos := pos + 1;
    }
    r := Report(Tally(total, accurate, missed, errors));
  }
}
