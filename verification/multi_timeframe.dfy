/** Several timeframes of one symbol (backend/multi_timeframe.py): the
    per-timeframe run of the pipeline, the unweighted confluence of the
    latest signals with its agreement buckets, and the weighted alignment in
    which higher timeframes count more. */
module MultiTimeframe {
  import opened Base
  import O = Oracle

  /** What is kept of each timeframe's last bar. */
  datatype Snapshot = Snapshot(
    signal: O.Signal, direction: O.Direction, confidence: O.Confidence,
    e: Option<real>, phaseDeg: Option<real>, tReversal: Option<real>, volumeRatio: Option<real>)

  /** One entry of the per-timeframe results, in insertion order. */
  datatype TimeframeResult = TimeframeResult(timeframe: string, rows: seq<O.Row>, snapshot: Snapshot)

  /** A turn is 360 degrees. */
  function SnapshotOf(last: O.Row): Snapshot
  {
    Snapshot(last.signal, last.direction, last.confidence, last.e,
             if last.phase.Some? then Some(last.phase.value * 360.0) else None,
             last.tReversal, last.volumeRatio)
  }

  /** A fetched frame is never empty (empty fetches are dropped). */
  ghost predicate Fetched(data: seq<(string, seq<O.Bar>)>, s: O.Settings, fft: seq<real> -> Option<O.Spectrum>)
  {
    forall i :: 0 <= i < |data| ==> |data[i].1| > 0 && O.Analysable(data[i].1, s, fft)
  }

  /** Runs the three pipeline steps on every fetched frame and records the
      last bar of each. */
  method AnalyzeMultipleTimeframes(data: seq<(string, seq<O.Bar>)>, s: O.Settings,
                                   stdev: seq<real> -> real, fft: seq<real> -> Option<O.Spectrum>)
    returns (results: seq<TimeframeResult>)
    requires Fetched(data, s, fft)
    ensures |results| == |data|
    ensures forall i :: 0 <= i < |data| ==>
      var rows := O.AnalyzedRows(data[i].1, s, stdev, fft);
      results[i] == TimeframeResult(data[i].0, rows, SnapshotOf(rows[|rows| - 1]))
  {
    results := [];
    for i := 0 to |data|
      invariant |results| == i
      invariant forall k :: 0 <= k < i ==>
        var rows := O.AnalyzedRows(data[k].1, s, stdev, fft);
        results[k] == TimeframeResult(data[k].0, rows, SnapshotOf(rows[|rows| - 1]))
    {
      var (tf, bars) := data[i];
      var rows := O.AnalyzeBars(bars, s, stdev, fft);
      results := results + [TimeframeResult(tf, rows, SnapshotOf(rows[|rows| - 1]))];
    }
  }

  // ---------------------------------------------------------------------
  // calculate_timeframe_confluence
  // ---------------------------------------------------------------------

  function SignalsOf(results: seq<TimeframeResult>): (s: seq<O.Signal>)
    ensures |s| == |results|
  {
    seq(|results|, i requires 0 <= i < |results| => results[i].snapshot.signal)
  }

  function Occurrences(signals: seq<O.Signal>, x: O.Signal): (n: nat)
    ensures n <= |signals|
  {
    if signals == [] then 0
    else Occurrences(signals[..|signals| - 1], x) + (if signals[|signals| - 1] == x then 1 else 0)
  }

  /** Every signal is BUY, SELL or HOLD, so the three counts cover the list. */
  lemma {:induction false} CountsPartition(signals: seq<O.Signal>)
    ensures Occurrences(signals, O.Buy) + Occurrences(signals, O.Sell) + Occurrences(signals, O.Hold) == |signals|
  {
    if signals != [] {
      CountsPartition(signals[..|signals| - 1]);
    }
  }

  datatype Agreement = Strong | Moderate | Weak

  function AgreementOf(score: real): Agreement
  {
    if score >= 75.0 then Strong else if score >= 50.0 then Moderate else Weak
  }

  datatype Confluence =
    | NoConfluence
    | Confluence(score: real, dominant: O.Signal, agreement: Agreement,
                 buyCount: nat, sellCount: nat, holdCount: nat, total: nat)

  function CalculateTimeframeConfluence(results: seq<TimeframeResult>): (c: Confluence)
    ensures c == NoConfluence <==> results == []
  {
    if results == [] then NoConfluence
    else
      var signals := SignalsOf(results);
      var buy, sell, hold := Occurrences(signals, O.Buy), Occurrences(signals, O.Sell), Occurrences(signals, O.Hold);
      var total := |signals|;
      var (dominant, count) :=
        if buy > sell && buy > hold then (O.Buy, buy)
        else if sell > buy && sell > hold then (O.Sell, sell)
        else (O.Hold, hold);
      var score := count as real / total as real * 100.0;
      Confluence(score, dominant, AgreementOf(score), buy, sell, hold, total)
  }

  /** BUY and SELL win only with a strict plurality over both other counts;
      every other case is HOLD, scored by the HOLD count even when HOLD is
      not the largest.  The counts cover all timeframes, the score is a
      percentage and the agreement buckets it at 75 and 50. */
  lemma ConfluenceRules(results: seq<TimeframeResult>)
    requires results != []
    ensures var c := CalculateTimeframeConfluence(results);
      c.buyCount + c.sellCount + c.holdCount == c.total == |results| &&
      (c.dominant == O.Buy <==> c.buyCount > c.sellCount && c.buyCount > c.holdCount) &&
      (c.dominant == O.Sell <==> c.sellCount > c.buyCount && c.sellCount > c.holdCount) &&
      (c.dominant == O.Hold ==> c.score == c.holdCount as real / c.total as real * 100.0) &&
      0.0 <= c.score <= 100.0 &&
      (c.agreement == Strong <==> c.score >= 75.0) &&
      (c.agreement == Moderate <==> 50.0 <= c.score < 75.0) &&
      (c.agreement == Weak <==> c.score < 50.0)
  {
    var signals := SignalsOf(results);
    CountsPartition(signals);
    var c := CalculateTimeframeConfluence(results);
    var count := if c.dominant == O.Buy then c.buyCount else if c.dominant == O.Sell then c.sellCount else c.holdCount;
    PercentageWithinRange(count, c.total);
  }

  /** A two-two-one split between BUY, SELL and HOLD is a weak HOLD at 20%. */
  lemma SplitVoteIsWeakHold()
    ensures var s := Snapshot(O.Buy, O.Long, O.High, None, None, None, None);
      var t := Snapshot(O.Sell, O.Short, O.High, None, None, None, None);
      var h := Snapshot(O.Hold, O.NoDirection, O.NoConfidence, None, None, None, None);
      var c := CalculateTimeframeConfluence([
        TimeframeResult("1h", [], s), TimeframeResult("4h", [], s),
        TimeframeResult("1d", [], t), TimeframeResult("1w", [], t),
        TimeframeResult("15m", [], h)]);
      c.dominant == O.Hold && c.score == 20.0 && c.agreement == Weak
  {
    var s := Snapshot(O.Buy, O.Long, O.High, None, None, None, None);
    var t := Snapshot(O.Sell, O.Short, O.High, None, None, None, None);
    var h := Snapshot(O.Hold, O.NoDirection, O.NoConfidence, None, None, None, None);
    var rs := [TimeframeResult("1h", [], s), TimeframeResult("4h", [], s),
               TimeframeResult("1d", [], t), TimeframeResult("1w", [], t),
               TimeframeResult("15m", [], h)];
    var signals := SignalsOf(rs);
    assert signals == [O.Buy, O.Buy, O.Sell, O.Sell, O.Hold];
    assert signals[..4] == [O.Buy, O.Buy, O.Sell, O.Sell];
    assert signals[..3] == [O.Buy, O.Buy, O.Sell];
    assert signals[..2] == [O.Buy, O.Buy];
    assert signals[..1] == [O.Buy];
    assert signals[..2][..1] == signals[..1];
    assert signals[..3][..2] == signals[..2];
    assert signals[..4][..3] == signals[..3];
    assert signals[..4] == signals[..|signals| - 1];
    assert Occurrences(signals[..1], O.Buy) == 1;
    assert Occurrences(signals[..1], O.Sell) == 0;
    assert Occurrences(signals[..1], O.Hold) == 0;
    assert Occurrences(signals[..2], O.Buy) == 2;
    assert Occurrences(signals[..2], O.Sell) == 0;
    assert Occurrences(signals[..2], O.Hold) == 0;
    assert Occurrences(signals[..3], O.Buy) == 2;
    assert Occurrences(signals[..3], O.Sell) == 1;
    assert Occurrences(signals[..3], O.Hold) == 0;
    assert Occurrences(signals[..4], O.Buy) == 2;
    assert Occurrences(signals[..4], O.Sell) == 2;
    assert Occurrences(signals[..4], O.Hold) == 0;
    assert Occurrences(signals, O.Buy) == 2;
    assert Occurrences(signals, O.Sell) == 2;
    assert Occurrences(signals, O.Hold) == 1;
  }

  // ---------------------------------------------------------------------
  // align_timeframes
  // ---------------------------------------------------------------------

  /** Listed timeframes weigh 1 to 13 from one minute to one month; any
      other weighs 5. */
  function TimeframeWeight(tf: string): (w: nat)
    ensures 1 <= w <= 13
  {
    match tf
    case "1m" => 1
    case "5m" => 2
    case "15m" => 3
    case "30m" => 4
    case "1h" => 5
    case "2h" => 6
    case "4h" => 7
    case "6h" => 8
    case "12h" => 9
    case "1d" => 10
    case "3d" => 11
    case "1w" => 12
    case "1M" => 13
    case _ => 5
  }

  /** The weights of the first k results whose signal is `signal`. */
  function WeightFor(results: seq<TimeframeResult>, signal: O.Signal, k: nat): nat
    requires k <= |results|
  {
    if k == 0 then 0
    else
      var w := if results[k - 1].snapshot.signal == signal then TimeframeWeight(results[k - 1].timeframe) else 0;
      WeightFor(results, signal, k - 1) + w
  }

  function TotalWeight(results: seq<TimeframeResult>, k: nat): (w: nat)
    requires k <= |results|
    ensures w >= k
  {
    if k == 0 then 0 else TotalWeight(results, k - 1) + TimeframeWeight(results[k - 1].timeframe)
  }

  lemma {:induction false} WeightsPartition(results: seq<TimeframeResult>, k: nat)
    requires k <= |results|
    ensures WeightFor(results, O.Buy, k) + WeightFor(results, O.Sell, k) + WeightFor(results, O.Hold, k) == TotalWeight(results, k)
  {
    if k > 0 {
      WeightsPartition(results, k - 1);
    }
  }

  /** Python's max over the keys BUY, SELL, HOLD in that order: the first
      key with the largest score. */
  function DominantOf(buy: real, sell: real, hold: real): O.Signal
  {
    if buy >= sell && buy >= hold then O.Buy else if sell >= hold then O.Sell else O.Hold
  }

  datatype Alignment = Alignment(buyScore: real, sellScore: real, holdScore: real, dominant: O.Signal, dominantScore: real)

  datatype AlignError = DivisionByZero

  function ScoreOf(a: Alignment, s: O.Signal): real
  {
    match s
    case Buy => a.buyScore
    case Sell => a.sellScore
    case Hold => a.holdScore
  }

  function Normalised(weight: nat, total: nat): real
    requires total > 0
  {
    weight as real / total as real * 100.0
  }

  lemma ScoresSumToHundred(b: nat, s: nat, h: nat, total: nat)
    requires total > 0 && b + s + h == total
    ensures Normalised(b, total) + Normalised(s, total) + Normalised(h, total) == 100.0
  {
    var t := total as real;
    var inverse := 1.0 / t;
    assert t * inverse == 1.0;
    assert b as real / t == b as real * inverse;
    assert s as real / t == s as real * inverse;
    assert h as real / t == h as real * inverse;
    assert (b as real + s as real + h as real) * inverse == 1.0;
  }

  /** Accumulates each signal's weight over the timeframes, normalises the
      three scores by the total weight and picks the dominant one.  An
      empty input divides by a zero total. */
  method AlignTimeframes(results: seq<TimeframeResult>) returns (r: Result<Alignment, AlignError>)
    ensures results == [] <==> r.Failure?
    ensures r.Success? ==>
      var total := TotalWeight(results, |results|);
      r.value.buyScore == Normalised(WeightFor(results, O.Buy, |results|), total) &&
      r.value.sellScore == Normalised(WeightFor(results, O.Sell, |results|), total) &&
      r.value.holdScore == Normalised(WeightFor(results, O.Hold, |results|), total) &&
      r.value.dominant == DominantOf(r.value.buyScore, r.value.sellScore, r.value.holdScore) &&
      r.value.dominantScore == ScoreOf(r.value, r.value.dominant)
  {
    var buy, sell, hold := 0, 0, 0;
    var total := 0;
    for i := 0 to |results|
      invariant buy == WeightFor(results, O.Buy, i) && sell == WeightFor(results, O.Sell, i)
      invariant hold == WeightFor(results, O.Hold, i) && total == TotalWeight(results, i)
    {
      var weight := TimeframeWeight(results[i].timeframe);
      match results[i].snapshot.signal {
        case Buy => buy := buy + weight;
        case Sell => sell := sell + weight;
        case Hold => hold := hold + weight;
      }
      total := total + weight;
    }
    assert total >= |results|;
    if total == 0 {
      return Failure(DivisionByZero);
    }
    var buyScore, sellScore, holdScore := Normalised(buy, total), Normalised(sell, total), Normalised(hold, total);
    var dominant := DominantOf(buyScore, sellScore, holdScore);
    var dominantScore := match dominant
      case Buy => buyScore
      case Sell => sellScore
      case Hold => holdScore;
    var a := Alignment(buyScore, sellScore, holdScore, dominant, dominantScore);
    assert ScoreOf(a, dominant) == dominantScore;
    r := Success(a);
  }

  /** The weighted scores are non-negative percentages summing to 100, and
      the dominant signal has the largest score, ties going to BUY, then SELL. */
  lemma AlignmentProperties(results: seq<TimeframeResult>, a: Alignment)
    requires results != []
    requires var total := TotalWeight(results, |results|);
      a.buyScore == Normalised(WeightFor(results, O.Buy, |results|), total) &&
      a.sellScore == Normalised(WeightFor(results, O.Sell, |results|), total) &&
      a.holdScore == Normalised(WeightFor(results, O.Hold, |results|), total) &&
      a.dominant == DominantOf(a.buyScore, a.sellScore, a.holdScore) &&
      a.dominantScore == ScoreOf(a, a.dominant)
    ensures a.buyScore >= 0.0 && a.sellScore >= 0.0 && a.holdScore >= 0.0
    ensures a.buyScore + a.sellScore + a.holdScore == 100.0
    ensures a.dominantScore >= a.buyScore && a.dominantScore >= a.sellScore && a.dominantScore >= a.holdScore
    ensures a.dominant == O.Sell ==> a.sellScore > a.buyScore
    ensures a.dominant == O.Hold ==> a.holdScore > a.buyScore && a.holdScore > a.sellScore
  {
    var n := |results|;
    var b, s, h, t := WeightFor(results, O.Buy, n), WeightFor(results, O.Sell, n), WeightFor(results, O.Hold, n), TotalWeight(results, n);
    WeightsPartition(results, n);
    ScoresSumToHundred(b, s, h, t);
    NormalisedNonNegative(b, t);
    NormalisedNonNegative(s, t);
    NormalisedNonNegative(h, t);
    DominantIsMaximal(a.buyScore, a.sellScore, a.holdScore);
  }

  lemma NormalisedNonNegative(weight: nat, total: nat)
    requires total > 0
    ensures Normalised(weight, total) >= 0.0
  {
  }

  /** The first key with the largest score: no other score is larger, and a
      later key wins only with a strictly larger score than every earlier one. */
  lemma DominantIsMaximal(buy: real, sell: real, hold: real)
    ensures var d := DominantOf(buy, sell, hold);
      var m := if d == O.Buy then buy else if d == O.Sell then sell else hold;
      m >= buy && m >= sell && m >= hold &&
      (d == O.Sell ==> sell > buy) &&
      (d == O.Hold ==> hold > buy && hold > sell)
  {
  }

  /** One-hour and four-hour BUY against a daily SELL: 5 + 7 outweighs 10. */
  lemma HigherTimeframesOutvoted()
    ensures var s := Snapshot(O.Buy, O.Long, O.High, None, None, None, None);
      var t := Snapshot(O.Sell, O.Short, O.High, None, None, None, None);
      var rs := [TimeframeResult("1h", [], s), TimeframeResult("4h", [], s), TimeframeResult("1d", [], t)];
      WeightFor(rs, O.Buy, 3) == 12 && WeightFor(rs, O.Sell, 3) == 10 && TotalWeight(rs, 3) == 22 &&
      DominantOf(Normalised(12, 22), Normalised(10, 22), Normalised(0, 22)) == O.Buy
  {
    assert TimeframeWeight("1h") == 5;
    assert TimeframeWeight("4h") == 7;
    assert TimeframeWeight("1d") == 10;
    var s := Snapshot(O.Buy, O.Long, O.High, None, None, None, None);
    var t := Snapshot(O.Sell, O.Short, O.High, None, None, None, None);
    var rs := [TimeframeResult("1h", [], s), TimeframeResult("4h", [], s), TimeframeResult("1d", [], t)];
    assert WeightFor(rs, O.Buy, 1) == 5 && WeightFor(rs, O.Sell, 1) == 0 && TotalWeight(rs, 1) == 5;
    assert WeightFor(rs, O.Buy, 2) == 12 && WeightFor(rs, O.Sell, 2) == 0 && TotalWeight(rs, 2) == 12;
  }
}
