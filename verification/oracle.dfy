/** The signal pipeline of backend/oracle.py: the rolling volume-weighted
    equilibrium Z', the sigma-scaled deviation E, the rolling spectral phase
    and its time to reversal, the per-bar BUY/SELL/HOLD rule, and the oracle
    state of the most recent bar.

    The rolling standard deviation and the FFT are not computed here: the
    first is the parameter `stdev` (a sample standard deviation, ddof = 1), the
    second the parameter `fft` (dominant frequency, phase and magnitude of a
    window).  Phases are carried in turns (the angle divided by 2*pi), so the
    model needs no pi. */
module Oracle {
  import opened Base

  datatype Bar = Bar(open: real, high: real, low: real, close: real, volume: real)

  datatype Signal = Buy | Sell | Hold

  datatype Direction = Long | Short | NoDirection

  /** `NoConfidence` is the source's 'N/A'. */
  datatype Confidence = NoConfidence | Low | Medium | High

  /** The guard below which Sigma counts as zero. */
  const Epsilon: real := 0.0000000001

  /** The pipeline's configuration: VWAP window, FFT window, the deviation
      threshold in sigmas and the reversal threshold as a fraction of the
      dominant period. */
  datatype Settings = Settings(vwapPeriod: nat, fftPeriod: nat, sigmaThreshold: real, reversalThresholdPercent: real)

  ghost predicate ValidSettings(s: Settings)
  {
    s.vwapPeriod >= 1 && s.fftPeriod >= 1
  }

  // ---------------------------------------------------------------------
  // Equilibrium Z' and deviation E (calculate_vwap_and_deviation)
  // ---------------------------------------------------------------------

  function TypicalPrice(b: Bar): real
  {
    (b.high + b.low + b.close) / 3.0
  }

  /** The `period` values ending at index `t` (a pandas rolling window). */
  function Window<T>(xs: seq<T>, period: nat, t: nat): seq<T>
    requires 1 <= period <= t + 1 <= |xs|
  {
    xs[t + 1 - period..t + 1]
  }

  function VolumeSum(w: seq<Bar>): real
  {
    if w == [] then 0.0 else VolumeSum(w[..|w| - 1]) + w[|w| - 1].volume
  }

  function TpVolumeSum(w: seq<Bar>): real
  {
    if w == [] then 0.0 else TpVolumeSum(w[..|w| - 1]) + TypicalPrice(w[|w| - 1]) * w[|w| - 1].volume
  }

  /** Z' at bar t: the volume-weighted typical price of the trailing window,
      or the close when the window is incomplete or holds no volume. */
  function ZPrime(bars: seq<Bar>, period: nat, t: nat): real
    requires 1 <= period && t < |bars|
  {
    if t + 1 >= period && VolumeSum(Window(bars, period, t)) > 0.0 then
      TpVolumeSum(Window(bars, period, t)) / VolumeSum(Window(bars, period, t))
    else
      bars[t].close
  }

  /** The Deviation column: close - Z'. */
  function Deviations(bars: seq<Bar>, period: nat): (d: seq<real>)
    requires 1 <= period
    ensures |d| == |bars|
  {
    seq(|bars|, t requires 0 <= t < |bars| => bars[t].close - ZPrime(bars, period, t))
  }

  /** The Sigma column: the rolling sample standard deviation of the
      deviation, undefined until a full window exists and for a one-bar
      window (ddof = 1). */
  function SigmaAt(bars: seq<Bar>, period: nat, stdev: seq<real> -> real, t: nat): Option<real>
    requires 1 <= period && t < |bars|
  {
    if period >= 2 && t + 1 >= period then Some(stdev(Window(Deviations(bars, period), period, t)))
    else None
  }

  /** E: the deviation in sigmas, or exactly 0.0 when Sigma is undefined or
      not above Epsilon. */
  function EOf(deviation: real, sigma: Option<real>): real
  {
    if sigma.Some? && sigma.value > Epsilon then deviation / sigma.value else 0.0
  }

  datatype Equilibrium = Equilibrium(zPrime: real, deviation: real, sigma: Option<real>, e: real)

  function EquilibriumAt(bars: seq<Bar>, period: nat, stdev: seq<real> -> real, t: nat): Equilibrium
    requires 1 <= period && t < |bars|
  {
    var z := ZPrime(bars, period, t);
    var d := bars[t].close - z;
    var s := SigmaAt(bars, period, stdev, t);
    Equilibrium(z, d, s, EOf(d, s))
  }

  /** The columns added by calculate_vwap_and_deviation. */
  function CalculateVwapAndDeviation(bars: seq<Bar>, period: nat, stdev: seq<real> -> real): (eq: seq<Equilibrium>)
    requires 1 <= period
    ensures |eq| == |bars|
  {
    seq(|bars|, t requires 0 <= t < |bars| => EquilibriumAt(bars, period, stdev, t))
  }

  lemma {:induction false} TpVolumeSumBounds(w: seq<Bar>, lo: real, hi: real)
    requires forall i :: 0 <= i < |w| ==> w[i].volume >= 0.0 && lo <= TypicalPrice(w[i]) <= hi
    ensures lo * VolumeSum(w) <= TpVolumeSum(w) <= hi * VolumeSum(w)
  {
    if w != [] {
      var init, last := w[..|w| - 1], w[|w| - 1];
      assert forall i :: 0 <= i < |init| ==> init[i] == w[i];
      TpVolumeSumBounds(init, lo, hi);
      assert VolumeSum(w) == VolumeSum(init) + last.volume;
      assert TpVolumeSum(w) == TpVolumeSum(init) + TypicalPrice(last) * last.volume;
      WeightedStep(VolumeSum(init), TpVolumeSum(init), last.volume, TypicalPrice(last), lo, hi);
    }
  }

  /** One more weighted term keeps the weighted sum between the bounds. */
  lemma WeightedStep(v: real, tp: real, vol: real, price: real, lo: real, hi: real)
    requires lo * v <= tp <= hi * v
    requires vol >= 0.0 && lo <= price <= hi
    ensures lo * (v + vol) <= tp + price * vol <= hi * (v + vol)
  {
    assert (price - lo) * vol >= 0.0;
    assert (hi - price) * vol >= 0.0;
  }

  /** With non-negative volumes and a positive window volume, Z' is a
      weighted mean: it lies within the range of the window's typical prices. */
  lemma ZPrimeWithinTypicalRange(bars: seq<Bar>, period: nat, t: nat, lo: real, hi: real)
    requires 1 <= period <= t + 1 <= |bars|
    requires forall i :: t + 1 - period <= i <= t ==> bars[i].volume >= 0.0 && lo <= TypicalPrice(bars[i]) <= hi
    requires VolumeSum(Window(bars, period, t)) > 0.0
    ensures ZPrime(bars, period, t) * VolumeSum(Window(bars, period, t)) == TpVolumeSum(Window(bars, period, t))
    ensures lo <= ZPrime(bars, period, t) <= hi
  {
    var w := Window(bars, period, t);
    assert forall i :: 0 <= i < |w| ==> w[i] == bars[t + 1 - period + i];
    TpVolumeSumBounds(w, lo, hi);
    WeightedMeanWithin(TpVolumeSum(w), VolumeSum(w), lo, hi);
  }

  /** Dividing a weighted sum by its positive total weight lands between
      the bounds of the weighted values. */
  lemma WeightedMeanWithin(tp: real, v: real, lo: real, hi: real)
    requires v > 0.0 && lo * v <= tp <= hi * v
    ensures (tp / v) * v == tp
    ensures lo <= tp / v <= hi
  {
    QuotientLowerBound(tp, v, lo);
    QuotientUpperBound(tp, v, hi);
  }

  lemma {:induction false} VolumeSumZero(w: seq<Bar>)
    requires forall i :: 0 <= i < |w| ==> w[i].volume == 0.0
    ensures VolumeSum(w) == 0.0
  {
    if w != [] {
      VolumeSumZero(w[..|w| - 1]);
    }
  }

  /** A window without volume falls back to the close, so the deviation is 0
      and no division by zero occurs. */
  lemma ZeroVolumeFallsBackToClose(bars: seq<Bar>, period: nat, t: nat)
    requires 1 <= period <= t + 1 <= |bars|
    requires forall i :: t + 1 - period <= i <= t ==> bars[i].volume == 0.0
    ensures ZPrime(bars, period, t) == bars[t].close
    ensures Deviations(bars, period)[t] == 0.0
  {
    var w := Window(bars, period, t);
    assert forall i :: 0 <= i < |w| ==> w[i] == bars[t + 1 - period + i];
    VolumeSumZero(w);
  }

  /** Before a full window exists Z' is the close, the deviation is 0, Sigma
      is undefined and E is exactly 0.0 (not undefined). */
  lemma WarmUpBarsAreFlat(bars: seq<Bar>, period: nat, stdev: seq<real> -> real, t: nat)
    requires 1 <= period && t < |bars| && t + 1 < period
    ensures EquilibriumAt(bars, period, stdev, t) == Equilibrium(bars[t].close, 0.0, None, 0.0)
  {
  }

  /** E is the deviation measured in sigmas when Sigma exceeds Epsilon
      (E * Sigma recovers the deviation, and E has the deviation's sign);
      otherwise E is exactly 0.0. */
  lemma EIsScaledDeviation(deviation: real, sigma: Option<real>)
    ensures sigma.Some? && sigma.value > Epsilon ==>
      EOf(deviation, sigma) * sigma.value == deviation &&
      (EOf(deviation, sigma) < 0.0 <==> deviation < 0.0) &&
      (EOf(deviation, sigma) > 0.0 <==> deviation > 0.0)
    ensures !(sigma.Some? && sigma.value > Epsilon) ==> EOf(deviation, sigma) == 0.0
  {
    if sigma.Some? && sigma.value > Epsilon {
      var s := sigma.value;
      var e := deviation / s;
      assert e * s == deviation;
      if e < 0.0 { assert e * s < 0.0; }
      if e > 0.0 { assert e * s > 0.0; }
    }
  }

  // ---------------------------------------------------------------------
  // Phase and time to reversal (calculate_fft_phase)
  // ---------------------------------------------------------------------

  /** What the FFT of a detrended window yields for its dominant bin: the
      frequency in cycles per bar, the phase in turns and the magnitude. */
  datatype Spectrum = Spectrum(frequency: real, turn: real, power: real)

  /** The dominant bin excludes DC, so its frequency is positive. */
  ghost predicate ValidFft(fft: seq<real> -> Option<Spectrum>)
  {
    forall w :: fft(w).Some? ==> fft(w).value.frequency > 0.0
  }

  /** (phase + 2*pi) mod 2*pi, in turns. */
  function NormalizedTurn(turn: real): real
  {
    var x := turn + 1.0;
    x - x.Floor as real
  }

  datatype Cycle = Cycle(dominantPeriod: real, phase: real, tReversal: real, dominantFreq: real, spectralPower: real)

  function CycleOf(sp: Spectrum): Cycle
    requires sp.frequency > 0.0
  {
    var period := 1.0 / sp.frequency;
    var phase := NormalizedTurn(sp.turn);
    Cycle(period, phase, (1.0 - phase) * period, sp.frequency, sp.power)
  }

  /** The cycle fields of the bar that closes window `w`, if the FFT finds
      a dominant bin. */
  function CycleAt(fft: seq<real> -> Option<Spectrum>, w: seq<real>): Option<Cycle>
    requires ValidFft(fft)
  {
    match fft(w)
    case None => None
    case Some(sp) => Some(CycleOf(sp))
  }

  /** The cycle columns as a whole: defined only where a full window ends. */
  function CycleColumn(closes: seq<real>, period: nat, fft: seq<real> -> Option<Spectrum>): (c: seq<Option<Cycle>>)
    requires period >= 1 && ValidFft(fft)
    ensures |c| == |closes|
  {
    seq(|closes|, i requires 0 <= i < |closes| =>
      if i + 1 >= period then CycleAt(fft, Window(closes, period, i)) else None)
  }

  /** The phase is normalised into [0, 1) turns, the period is positive and
      the time to reversal lies in (0, Dominant_Period]; the reversal is a
      full period away exactly at phase 0. */
  lemma TReversalWithinPeriod(sp: Spectrum)
    requires sp.frequency > 0.0
    ensures 0.0 <= CycleOf(sp).phase < 1.0
    ensures CycleOf(sp).dominantPeriod > 0.0
    ensures 0.0 < CycleOf(sp).tReversal <= CycleOf(sp).dominantPeriod
    ensures CycleOf(sp).tReversal == CycleOf(sp).dominantPeriod <==> CycleOf(sp).phase == 0.0
    ensures CycleOf(sp).dominantPeriod * CycleOf(sp).dominantFreq == 1.0
  {
    var c := CycleOf(sp);
    var p := c.dominantPeriod;
    assert p * sp.frequency == 1.0;
    assert p > 0.0;
    var ph := c.phase;
    assert c.tReversal == p - ph * p;
    assert ph * p < p;
    assert ph * p >= 0.0;
    if ph != 0.0 {
      assert ph * p > 0.0;
    }
  }

  /** Rolling FFT: writes the cycle fields of bar i - 1 for every complete
      window ending at i, and leaves everything undefined for a series
      shorter than `period`. */
  method CalculateFftPhase(closes: seq<real>, period: nat, fft: seq<real> -> Option<Spectrum>) returns (cycles: seq<Option<Cycle>>)
    requires period >= 1 && ValidFft(fft)
    ensures |cycles| == |closes|
    ensures forall i :: 0 <= i < |closes| && i + 1 < period ==> cycles[i] == None
    ensures forall i :: 0 <= i < |closes| && i + 1 >= period ==> cycles[i] == CycleAt(fft, Window(closes, period, i))
  {
    var a := new Option<Cycle>[|closes|](_ => None);
    if |closes| < period {
      return a[..];
    }
    var i := period;
    while i <= |closes|
      invariant period <= i <= |closes| + 1
      invariant forall k :: 0 <= k < |closes| && (k + 1 < period || k + 1 >= i) ==> a[k] == None
      invariant forall k :: 0 <= k < |closes| && period <= k + 1 < i ==> a[k] == CycleAt(fft, Window(closes, period, k))
    {
      var series := closes[i - period..i];
      match fft(series) {
        case None =>
        case Some(sp) =>
          a[i - 1] := Some(CycleOf(sp));
      }
      i := i + 1;
    }
    cycles := a[..];
  }

  // ---------------------------------------------------------------------
  // Per-bar signals (generate_signals_rolling)
  // ---------------------------------------------------------------------

  /** Every complete volume window has a positive average, so the volume
      ratio is finite. */
  ghost predicate PositiveVolumeAverages(bars: seq<Bar>, period: nat)
  {
    period >= 1 &&
    forall t :: period <= t + 1 <= |bars| ==> VolumeSum(Window(bars, period, t)) > 0.0
  }

  /** volume / rolling mean volume, undefined until a full window exists. */
  function VolumeRatioAt(bars: seq<Bar>, period: nat, t: nat): Option<real>
    requires PositiveVolumeAverages(bars, period) && t < |bars|
  {
    if t + 1 >= period then
      Some(bars[t].volume / (VolumeSum(Window(bars, period, t)) / period as real))
    else None
  }

  datatype BarSignal = BarSignal(
    deviationSignal: bool,
    timingSignal: bool,
    reversalThresholdBars: Option<real>,
    signal: Signal,
    direction: Direction,
    volumeRatio: Option<real>,
    confidence: Confidence)

  /** The defaults every bar starts with. */
  function DefaultSignal(volumeRatio: Option<real>): BarSignal
  {
    BarSignal(false, false, None, Hold, NoDirection, volumeRatio, NoConfidence)
  }

  /** The rule applied to one bar. */
  function SignalAt(e: Option<real>, tReversal: Option<real>, dominantPeriod: Option<real>,
                    volumeRatio: Option<real>, sigmaThreshold: real, reversalPct: real): BarSignal
  {
    if e.None? || tReversal.None? || dominantPeriod.None? then DefaultSignal(volumeRatio)
    else
      var ev := e.value;
      var deviationSignal := Abs(ev) > sigmaThreshold;
      var thresholdBars := dominantPeriod.value * reversalPct;
      var timingSignal := tReversal.value < thresholdBars;
      var signal := if deviationSignal && timingSignal && ev < 0.0 then Buy
                    else if deviationSignal && timingSignal && ev > 0.0 then Sell
                    else Hold;
      var direction := if signal == Buy then Long else if signal == Sell then Short else NoDirection;
      var confidence := match volumeRatio
        case None => NoConfidence
        case Some(v) => if v > 1.0 then High else Low;
      BarSignal(deviationSignal, timingSignal, Some(thresholdBars), signal, direction, volumeRatio, confidence)
  }

  predicate Eligible(e: Option<real>, tReversal: Option<real>, dominantPeriod: Option<real>)
  {
    e.Some? && tReversal.Some? && dominantPeriod.Some?
  }

  /** BUY and SELL need both strict gates: |E| > threshold and
      T_reversal < Dominant_Period * pct; the sign of E picks the side. */
  lemma SignalGates(e: Option<real>, tReversal: Option<real>, dominantPeriod: Option<real>,
                    volumeRatio: Option<real>, sigmaThreshold: real, reversalPct: real)
    ensures var r := SignalAt(e, tReversal, dominantPeriod, volumeRatio, sigmaThreshold, reversalPct);
      (r.signal == Buy <==>
        Eligible(e, tReversal, dominantPeriod) && Abs(e.value) > sigmaThreshold &&
        tReversal.value < dominantPeriod.value * reversalPct && e.value < 0.0) &&
      (r.signal == Sell <==>
        Eligible(e, tReversal, dominantPeriod) && Abs(e.value) > sigmaThreshold &&
        tReversal.value < dominantPeriod.value * reversalPct && e.value > 0.0) &&
      (r.direction == Long <==> r.signal == Buy) &&
      (r.direction == Short <==> r.signal == Sell) &&
      (r.direction == NoDirection <==> r.signal == Hold)
  {
  }

  /** A deviation exactly at the threshold never trades. */
  lemma ThresholdBoundaryHolds(ev: real, tReversal: Option<real>, dominantPeriod: Option<real>,
                               volumeRatio: Option<real>, sigmaThreshold: real, reversalPct: real)
    requires Abs(ev) == sigmaThreshold
    ensures SignalAt(Some(ev), tReversal, dominantPeriod, volumeRatio, sigmaThreshold, reversalPct).signal == Hold
    ensures !SignalAt(Some(ev), tReversal, dominantPeriod, volumeRatio, sigmaThreshold, reversalPct).deviationSignal
  {
  }

  /** Ineligible bars keep every default; on eligible bars the confidence
      follows the volume ratio alone, whatever the signal. */
  lemma ConfidenceFollowsVolume(e: Option<real>, tReversal: Option<real>, dominantPeriod: Option<real>,
                                volumeRatio: Option<real>, sigmaThreshold: real, reversalPct: real)
    ensures var r := SignalAt(e, tReversal, dominantPeriod, volumeRatio, sigmaThreshold, reversalPct);
      (!Eligible(e, tReversal, dominantPeriod) ==> r == DefaultSignal(volumeRatio)) &&
      (Eligible(e, tReversal, dominantPeriod) ==>
        r.reversalThresholdBars.Some? &&
        (r.confidence == High <==> volumeRatio.Some? && volumeRatio.value > 1.0) &&
        (r.confidence == Low <==> volumeRatio.Some? && volumeRatio.value <= 1.0) &&
        (r.confidence == NoConfidence <==> volumeRatio.None?)) &&
      r.confidence != Medium && r.volumeRatio == volumeRatio
  {
  }

  /** Writes the signal columns bar by bar, skipping bars with an undefined
      E, T_reversal or Dominant_Period. */
  method GenerateSignalsRolling(bars: seq<Bar>, e: seq<Option<real>>, tReversal: seq<Option<real>>,
                                dominantPeriod: seq<Option<real>>, sigmaThreshold: real,
                                reversalPct: real, vwapPeriod: nat)
    returns (signals: seq<BarSignal>)
    requires |e| == |tReversal| == |dominantPeriod| == |bars|
    requires PositiveVolumeAverages(bars, vwapPeriod)
    ensures |signals| == |bars|
    ensures forall i :: 0 <= i < |bars| ==>
      signals[i] == SignalAt(e[i], tReversal[i], dominantPeriod[i], VolumeRatioAt(bars, vwapPeriod, i), sigmaThreshold, reversalPct)
  {
    var n := |bars|;
    var a := new BarSignal[n](i requires 0 <= i < n reads {} => DefaultSignal(VolumeRatioAt(bars, vwapPeriod, i)));
    var i := 0;
    while i < n
      invariant 0 <= i <= n
      invariant forall k :: 0 <= k < i ==>
        a[k] == SignalAt(e[k], tReversal[k], dominantPeriod[k], VolumeRatioAt(bars, vwapPeriod, k), sigmaThreshold, reversalPct)
      invariant forall k :: i <= k < n ==> a[k] == DefaultSignal(VolumeRatioAt(bars, vwapPeriod, k))
    {
      if Eligible(e[i], tReversal[i], dominantPeriod[i]) {
        a[i] := SignalAt(e[i], tReversal[i], dominantPeriod[i], a[i].volumeRatio, sigmaThreshold, reversalPct);
      }
      i := i + 1;
    }
    signals := a[..];
  }

  // ---------------------------------------------------------------------
  // The analysed frame and the oracle state of its last bar
  // ---------------------------------------------------------------------

  /** One bar of the analysed frame (a DataFrame row after the three steps). */
  datatype Row = Row(
    bar: Bar,
    zPrime: Option<real>, deviation: Option<real>, sigma: Option<real>, e: Option<real>,
    dominantPeriod: Option<real>, phase: Option<real>, tReversal: Option<real>,
    dominantFreq: Option<real>, spectralPower: Option<real>,
    deviationSignal: bool, timingSignal: bool, reversalThresholdBars: Option<real>,
    signal: Signal, direction: Direction, volumeRatio: Option<real>, confidence: Confidence)

  function AssembleRow(b: Bar, eq: Equilibrium, c: Option<Cycle>, s: BarSignal): Row
  {
    Row(b, Some(eq.zPrime), Some(eq.deviation), eq.sigma, Some(eq.e),
        if c.Some? then Some(c.value.dominantPeriod) else None,
        if c.Some? then Some(c.value.phase) else None,
        if c.Some? then Some(c.value.tReversal) else None,
        if c.Some? then Some(c.value.dominantFreq) else None,
        if c.Some? then Some(c.value.spectralPower) else None,
        s.deviationSignal, s.timingSignal, s.reversalThresholdBars,
        s.signal, s.direction, s.volumeRatio, s.confidence)
  }

  function Closes(bars: seq<Bar>): (c: seq<real>)
    ensures |c| == |bars|
  {
    seq(|bars|, i requires 0 <= i < |bars| => bars[i].close)
  }

  ghost predicate Analysable(bars: seq<Bar>, s: Settings, fft: seq<real> -> Option<Spectrum>)
  {
    ValidSettings(s) && ValidFft(fft) && PositiveVolumeAverages(bars, s.vwapPeriod)
  }

  /** The frame after calculate_vwap_and_deviation, calculate_fft_phase and
      generate_signals_rolling. */
  function AnalyzedRows(bars: seq<Bar>, s: Settings, stdev: seq<real> -> real, fft: seq<real> -> Option<Spectrum>): (rows: seq<Row>)
    requires Analysable(bars, s, fft)
    ensures |rows| == |bars|
  {
    var eq := CalculateVwapAndDeviation(bars, s.vwapPeriod, stdev);
    var cyc := CycleColumn(Closes(bars), s.fftPeriod, fft);
    seq(|bars|, t requires 0 <= t < |bars| =>
      var c := cyc[t];
      AssembleRow(bars[t], eq[t], c,
        SignalAt(Some(eq[t].e),
                 if c.Some? then Some(c.value.tReversal) else None,
                 if c.Some? then Some(c.value.dominantPeriod) else None,
                 VolumeRatioAt(bars, s.vwapPeriod, t), s.sigmaThreshold, s.reversalThresholdPercent)))
  }

  /** The three steps run one after the other, as every caller of the
      pipeline does. */
  method AnalyzeBars(bars: seq<Bar>, s: Settings, stdev: seq<real> -> real, fft: seq<real> -> Option<Spectrum>)
    returns (rows: seq<Row>)
    requires Analysable(bars, s, fft)
    ensures rows == AnalyzedRows(bars, s, stdev, fft)
  {
    var n := |bars|;
    var eq := CalculateVwapAndDeviation(bars, s.vwapPeriod, stdev);
    var closes := Closes(bars);
    var cycles := CalculateFftPhase(closes, s.fftPeriod, fft);
    assert cycles == CycleColumn(closes, s.fftPeriod, fft);
    var es := seq(n, t requires 0 <= t < n => Some(eq[t].e));
    var ts := seq(n, t requires 0 <= t < n => if cycles[t].Some? then Some(cycles[t].value.tReversal) else None);
    var ps := seq(n, t requires 0 <= t < n => if cycles[t].Some? then Some(cycles[t].value.dominantPeriod) else None);
    var signals := GenerateSignalsRolling(bars, es, ts, ps, s.sigmaThreshold, s.reversalThresholdPercent, s.vwapPeriod);
    rows := seq(n, t requires 0 <= t < n => AssembleRow(bars[t], eq[t], cycles[t], signals[t]));
  }

  /** In the assembled frame E is always defined, so eligibility comes from
      the cycle fields alone: every bar before the first full FFT window is
      HOLD with no direction and no confidence. */
  lemma WarmUpBarsHold(bars: seq<Bar>, s: Settings, stdev: seq<real> -> real, fft: seq<real> -> Option<Spectrum>, t: nat)
    requires Analysable(bars, s, fft) && t < |bars|
    ensures AnalyzedRows(bars, s, stdev, fft)[t].e.Some?
    ensures t + 1 < s.fftPeriod ==>
      var r := AnalyzedRows(bars, s, stdev, fft)[t];
      r.signal == Hold && r.direction == NoDirection && r.confidence == NoConfidence &&
      r.tReversal.None? && r.dominantPeriod.None? && !r.deviationSignal && !r.timingSignal
  {
  }

  /** The spectral columns are written together: a bar carries the dominant
      frequency and the spectral power exactly when it carries the period. */
  lemma SpectralFieldsTogether(bars: seq<Bar>, s: Settings, stdev: seq<real> -> real, fft: seq<real> -> Option<Spectrum>, t: nat)
    requires Analysable(bars, s, fft) && t < |bars|
    ensures var r := AnalyzedRows(bars, s, stdev, fft)[t];
      (r.dominantFreq.Some? <==> r.dominantPeriod.Some?) && (r.spectralPower.Some? <==> r.dominantPeriod.Some?)
    ensures t + 1 < s.fftPeriod ==>
      var r := AnalyzedRows(bars, s, stdev, fft)[t];
      r.dominantFreq.None? && r.spectralPower.None?
  {
  }

  /** The final signal of the most recent bar. */
  datatype FinalSignal = Decided(signal: Signal) | InsufficientData

  /** The configured chart timeframe (TIMEFRAME), echoed in every state. */
  const Timeframe: string := "1h"

  datatype OracleState = OracleState(
    symbol: string,
    timeframe: string,
    currentPrice: real,
    finalSignal: FinalSignal,
    direction: Direction,
    confidence: Confidence,
    sigmaThreshold: Option<real>,
    details: Option<Row>)

  function SymbolOrUnknown(symbol: string): string
  {
    if symbol == "" then "UNKNOWN" else symbol
  }

  /** The oracle state of the last bar (an empty or missing symbol reads as
      UNKNOWN). */
  function GenerateSignal(rows: seq<Row>, sigmaThreshold: real, symbol: string): (r: OracleState)
    requires |rows| > 0
    ensures var last := rows[|rows| - 1];
      r.timeframe == Timeframe && r.currentPrice == last.bar.close &&
      (r.finalSignal == InsufficientData <==> !Eligible(last.e, last.tReversal, last.dominantPeriod)) &&
      (r.finalSignal == InsufficientData ==>
        r.direction == NoDirection && r.confidence == NoConfidence &&
        r.sigmaThreshold == None && r.details == None) &&
      (r.finalSignal != InsufficientData ==>
        r.finalSignal == Decided(last.signal) && r.direction == last.direction &&
        r.confidence == last.confidence && r.sigmaThreshold == Some(sigmaThreshold) && r.details == Some(last))
    ensures r.symbol != ""
  {
    var last := rows[|rows| - 1];
    if last.e.None? || last.tReversal.None? || last.dominantPeriod.None? then
      OracleState(SymbolOrUnknown(symbol), Timeframe, last.bar.close, InsufficientData, NoDirection, NoConfidence, None, None)
    else
      OracleState(SymbolOrUnknown(symbol), Timeframe, last.bar.close, Decided(last.signal), last.direction, last.confidence,
                  Some(sigmaThreshold), Some(last))
  }
}
