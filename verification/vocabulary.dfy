/** The state vocabulary (backend/genesis_vocabulary.py): a five-state
    reading of the deviation E, phase buckets, coherence from counted
    factors, the action table and the narrative of the latest bar.  Each
    text is represented by which of the source's fixed texts is chosen; the
    formatted numbers inside them are the fields that carry them. */
module Vocabulary {
  import opened Base
  import O = Oracle

  // ---------------------------------------------------------------------
  // get_signal_state
  // ---------------------------------------------------------------------

  datatype State = Undefined | CoherentLong | DriftingLong | Harmonic | DriftingShort | CoherentShort

  /** Which of the state descriptions accompanies the state. */
  datatype StateNote =
    | InsufficientCoherenceData
    | PhaseLockBelow | SignificantUndervaluation | MildDissonanceBelow
    | InEquilibrium
    | PhaseLockAbove | SignificantOvervaluation | MildDissonanceAbove
    | ResidualEquilibrium

  datatype StateReading = StateReading(state: State, note: StateNote)

  /** The default coherence threshold in sigmas. */
  const DefaultThreshold: real := 2.0

  function SignalState(e: Option<real>, timing: bool, threshold: real): StateReading
  {
    if e.None? then StateReading(Undefined, InsufficientCoherenceData)
    else
      var ev := e.value;
      if ev < -threshold then
        (if timing then StateReading(CoherentLong, PhaseLockBelow) else StateReading(DriftingLong, SignificantUndervaluation))
      else if ev < -1.0 then StateReading(DriftingLong, MildDissonanceBelow)
      else if Abs(ev) <= 1.0 then StateReading(Harmonic, InEquilibrium)
      else if ev > threshold then
        (if timing then StateReading(CoherentShort, PhaseLockAbove) else StateReading(DriftingShort, SignificantOvervaluation))
      else if ev > 1.0 then StateReading(DriftingShort, MildDissonanceAbove)
      else StateReading(Harmonic, ResidualEquilibrium)
  }

  /** Beyond the threshold the side follows the sign of E and timing decides
      between coherent and drifting (on the short side only once E is also
      above one sigma, which the earlier within-one-sigma test demands);
      COHERENT is never produced without timing; timing changes nothing
      unless |E| exceeds the threshold. */
  lemma StateRules(e: Option<real>, timing: bool, threshold: real)
    ensures var s := SignalState(e, timing, threshold).state;
      (s == Undefined <==> e.None?) &&
      (e.Some? && e.value < -threshold ==> s == (if timing then CoherentLong else DriftingLong)) &&
      (threshold >= 0.0 && e.Some? && e.value > threshold && e.value > 1.0 ==> s == (if timing then CoherentShort else DriftingShort)) &&
      ((s == CoherentLong || s == CoherentShort) ==> timing && Abs(e.value) > threshold) &&
      (e.Some? && Abs(e.value) <= threshold ==> SignalState(e, timing, threshold) == SignalState(e, !timing, threshold))
  {
  }

  /** With a threshold of at least one sigma the bands between one sigma and
      the threshold are fixed and the residual branch is never reached. */
  lemma MiddleBands(ev: real, timing: bool, threshold: real)
    requires threshold >= 1.0
    ensures var r := SignalState(Some(ev), timing, threshold);
      (-threshold <= ev < -1.0 <==> r == StateReading(DriftingLong, MildDissonanceBelow)) &&
      (Abs(ev) <= 1.0 <==> r.state == Harmonic) &&
      (1.0 < ev <= threshold <==> r == StateReading(DriftingShort, MildDissonanceAbove)) &&
      r.note != ResidualEquilibrium
  {
  }

  /** Below one sigma the reading is not symmetric: with a threshold of 0.5,
      E = -0.8 is DRIFTING LONG but E = 0.8 is HARMONIC, because the
      within-one-sigma test comes before the short side is examined. */
  lemma LowThresholdIsAsymmetric()
    ensures SignalState(Some(-0.8), false, 0.5).state == DriftingLong
    ensures SignalState(Some(0.8), false, 0.5).state == Harmonic
    ensures SignalState(Some(-0.8), true, 0.5).state == CoherentLong
    ensures SignalState(Some(0.8), true, 0.5).state == Harmonic
  {
  }

  // ---------------------------------------------------------------------
  // get_phase_description
  // ---------------------------------------------------------------------

  /** The phase bucket, carrying the percentage of the cycle completed. */
  datatype PhaseReading = PhaseUndefined | EarlyCycle(pct: real) | MidCycle(pct: real)
                        | LateCycle(pct: real) | CycleCompletion(pct: real)

  function PhaseDescription(tReversal: Option<real>, dominantPeriod: Option<real>): PhaseReading
  {
    if tReversal.None? || dominantPeriod.None? || dominantPeriod.value == 0.0 then PhaseUndefined
    else
      var pct := (1.0 - tReversal.value / dominantPeriod.value) * 100.0;
      if pct < 25.0 then EarlyCycle(pct)
      else if pct < 50.0 then MidCycle(pct)
      else if pct < 75.0 then LateCycle(pct)
      else CycleCompletion(pct)
  }

  /** Undefined exactly without both values or with a zero period; the
      percentage is the share of the period already elapsed, and the
      buckets split it at 25, 50 and 75. */
  lemma PhaseBuckets(tReversal: Option<real>, dominantPeriod: Option<real>)
    ensures var r := PhaseDescription(tReversal, dominantPeriod);
      (r.PhaseUndefined? <==> tReversal.None? || dominantPeriod.None? || dominantPeriod.value == 0.0) &&
      (!r.PhaseUndefined? ==>
        r.pct * dominantPeriod.value == (dominantPeriod.value - tReversal.value) * 100.0 &&
        (r.EarlyCycle? <==> r.pct < 25.0) &&
        (r.MidCycle? <==> 25.0 <= r.pct < 50.0) &&
        (r.LateCycle? <==> 50.0 <= r.pct < 75.0) &&
        (r.CycleCompletion? <==> 75.0 <= r.pct))
  {
    var r := PhaseDescription(tReversal, dominantPeriod);
    if !r.PhaseUndefined? {
      var t, p := tReversal.value, dominantPeriod.value;
      assert t / p * p == t;
      assert r.pct * p == (1.0 - t / p) * p * 100.0;
    }
  }

  /** For a cycle computed by the oracle the percentage elapsed is the phase
      (as a fraction of a turn) times 100, so it lies in [0, 100). */
  lemma OraclePhaseIsElapsedShare(sp: O.Spectrum)
    requires sp.frequency > 0.0
    ensures var c := O.CycleOf(sp);
      var r := PhaseDescription(Some(c.tReversal), Some(c.dominantPeriod));
      !r.PhaseUndefined? && r.pct == c.phase * 100.0 && 0.0 <= r.pct < 100.0
  {
    var c := O.CycleOf(sp);
    O.TReversalWithinPeriod(sp);
    assert c.tReversal / c.dominantPeriod == 1.0 - c.phase;
  }

  // ---------------------------------------------------------------------
  // get_confidence_description / get_action_recommendation
  // ---------------------------------------------------------------------

  datatype Coherence = MaximumCoherence | StrongCoherence | WeakCoherence | NoCoherence

  function BoolToNat(b: bool): nat
  {
    if b then 1 else 0
  }

  function FactorCount(volumeConfirmed: bool, deviationSignal: bool, timing: bool): (n: nat)
    ensures n <= 3
  {
    BoolToNat(volumeConfirmed) + BoolToNat(deviationSignal) + BoolToNat(timing)
  }

  function ConfidenceDescription(volumeConfirmed: bool, deviationSignal: bool, timing: bool): Coherence
  {
    match FactorCount(volumeConfirmed, deviationSignal, timing)
    case 3 => MaximumCoherence
    case 2 => StrongCoherence
    case 1 => WeakCoherence
    case _ => NoCoherence
  }

  /** The level depends only on how many factors hold, not which: all three
      give Maximum, any two Strong, any one Weak, none No coherence. */
  lemma CoherenceCountsFactors(a: bool, b: bool, c: bool)
    ensures ConfidenceDescription(a, b, c) == ConfidenceDescription(b, a, c) == ConfidenceDescription(a, c, b)
    ensures ConfidenceDescription(a, b, c) == MaximumCoherence <==> a && b && c
    ensures ConfidenceDescription(a, b, c) == NoCoherence <==> !a && !b && !c
    ensures ConfidenceDescription(a, b, c) == StrongCoherence <==> (a && b && !c) || (a && !b && c) || (!a && b && c)
    ensures ConfidenceDescription(a, b, c) == WeakCoherence <==> (a && !b && !c) || (!a && b && !c) || (!a && !b && c)
  {
  }

  datatype Action = StrongBuy | CautiousBuy | WatchLong | HoldAction | WatchShort | StrongSell | CautiousSell | Observe

  function ActionRecommendation(state: State, level: Coherence): Action
  {
    var convinced := level == MaximumCoherence || level == StrongCoherence;
    match state
    case CoherentLong => if convinced then StrongBuy else CautiousBuy
    case DriftingLong => WatchLong
    case Harmonic => HoldAction
    case DriftingShort => WatchShort
    case CoherentShort => if convinced then StrongSell else CautiousSell
    case Undefined => Observe
  }

  /** A strong entry needs a coherent state and at least two factors; the
      drifting states only watch, the harmonic state holds and an undefined
      state only observes.  Long actions come only from long states. */
  lemma ActionTable(state: State, level: Coherence)
    ensures var a := ActionRecommendation(state, level);
      (a == StrongBuy <==> state == CoherentLong && (level == MaximumCoherence || level == StrongCoherence)) &&
      (a == CautiousBuy <==> state == CoherentLong && (level == WeakCoherence || level == NoCoherence)) &&
      (a == StrongSell <==> state == CoherentShort && (level == MaximumCoherence || level == StrongCoherence)) &&
      (a == CautiousSell <==> state == CoherentShort && (level == WeakCoherence || level == NoCoherence)) &&
      (a == WatchLong <==> state == DriftingLong) &&
      (a == WatchShort <==> state == DriftingShort) &&
      (a == HoldAction <==> state == Harmonic) &&
      (a == Observe <==> state == Undefined)
  {
  }

  // ---------------------------------------------------------------------
  // get_market_narrative / generate_genesis_narrative
  // ---------------------------------------------------------------------

  datatype EquilibriumReading = EquilibriumPending | StrongUndervaluation | MildUndervaluation
                              | StrongOvervaluation | MildOvervaluation | NearEquilibrium

  datatype VolumeReading = ExceptionalVolume | AboveAverageVolume | BelowAverageVolume

  datatype Narrative = Narrative(
    state: State, note: StateNote, phase: PhaseReading, equilibrium: EquilibriumReading,
    volume: VolumeReading, volumeConfirmed: bool, deviationSignal: bool,
    confidence: Coherence, action: Action)

  /** The volume ratio, as a percentage of the average, above which volume
      confirms a signal. */
  const VolumeConfirmation: real := 100.0
  const ExceptionalVolumeLevel: real := 150.0

  function EquilibriumOf(e: Option<real>, zPrime: Option<real>): EquilibriumReading
  {
    if e.None? || zPrime.None? then EquilibriumPending
    else if e.value < -2.0 then StrongUndervaluation
    else if e.value < -1.0 then MildUndervaluation
    else if e.value > 2.0 then StrongOvervaluation
    else if e.value > 1.0 then MildOvervaluation
    else NearEquilibrium
  }

  function VolumeOf(volumeRatio: real): VolumeReading
  {
    if volumeRatio > ExceptionalVolumeLevel then ExceptionalVolume
    else if volumeRatio > VolumeConfirmation then AboveAverageVolume
    else BelowAverageVolume
  }

  function MarketNarrative(e: Option<real>, zPrime: Option<real>, tReversal: Option<real>,
                           dominantPeriod: Option<real>, volumeRatio: real, timing: bool,
                           threshold: real): Narrative
  {
    var reading := SignalState(e, timing, threshold);
    var volumeConfirmed := volumeRatio > VolumeConfirmation;
    var deviationSignal := if e.Some? then Abs(e.value) >= threshold else false;
    var level := ConfidenceDescription(volumeConfirmed, deviationSignal, timing);
    Narrative(reading.state, reading.note, PhaseDescription(tReversal, dominantPeriod),
              EquilibriumOf(e, zPrime), VolumeOf(volumeRatio), volumeConfirmed, deviationSignal,
              level, ActionRecommendation(reading.state, level))
  }

  /** The narrative's parts agree with each other: volume is confirmed
      exactly above 100 (and then the volume reading is not below average);
      the deviation factor uses the inclusive threshold and needs a defined
      E; a coherent state with volume confirmation is always a strong entry. */
  lemma NarrativeConsistent(e: Option<real>, zPrime: Option<real>, tReversal: Option<real>,
                            dominantPeriod: Option<real>, volumeRatio: real, timing: bool, threshold: real)
    ensures var n := MarketNarrative(e, zPrime, tReversal, dominantPeriod, volumeRatio, timing, threshold);
      (n.volumeConfirmed <==> volumeRatio > 100.0) &&
      (n.volumeConfirmed <==> n.volume != BelowAverageVolume) &&
      (n.deviationSignal <==> e.Some? && Abs(e.value) >= threshold) &&
      (n.equilibrium == EquilibriumPending <==> e.None? || zPrime.None?) &&
      (n.state == CoherentLong && n.volumeConfirmed ==> n.action == StrongBuy) &&
      (n.state == CoherentShort && n.volumeConfirmed ==> n.action == StrongSell) &&
      n.confidence == ConfidenceDescription(n.volumeConfirmed, n.deviationSignal, timing)
  {
  }

  datatype NarrativeError = NoDataForNarrative

  /** The ratio assumed when the latest bar has none. */
  const DefaultVolumeRatio: real := 100.0

  function GenerateGenesisNarrative(rows: seq<O.Row>, threshold: real): (r: Result<Narrative, NarrativeError>)
    ensures r.Failure? <==> |rows| == 0
  {
    if |rows| == 0 then Failure(NoDataForNarrative)
    else
      var latest := rows[|rows| - 1];
      var volumeRatio := if latest.volumeRatio.Some? then latest.volumeRatio.value else DefaultVolumeRatio;
      var timing := latest.tReversal.Some? && latest.dominantPeriod.Some? && latest.dominantPeriod.value > 0.0 &&
                    latest.tReversal.value < latest.dominantPeriod.value * 0.10;
      Success(MarketNarrative(latest.e, latest.zPrime, latest.tReversal, latest.dominantPeriod,
                              volumeRatio, timing, threshold))
  }

  /** A missing volume ratio is never a confirmation; timing requires a
      positive period with T_reversal under a tenth of it. */
  lemma NarrativeDefaults(rows: seq<O.Row>, threshold: real)
    requires |rows| > 0
    ensures var latest := rows[|rows| - 1];
      var n := GenerateGenesisNarrative(rows, threshold).value;
      (latest.volumeRatio.None? ==> !n.volumeConfirmed && n.volume == BelowAverageVolume) &&
      (n.state == CoherentLong || n.state == CoherentShort ==>
        latest.dominantPeriod.Some? && latest.dominantPeriod.value > 0.0 &&
        latest.tReversal.Some? && latest.tReversal.value < latest.dominantPeriod.value * 0.10)
  {
  }

  /** The oracle stores the volume ratio as a plain ratio and calls it High
      confidence above 1.0, while this vocabulary reads the same column as a
      percentage and confirms only above 100: a bar trading at fifty times
      its average volume is High confidence for the oracle yet unconfirmed
      here. */
  lemma VolumeScalesDisagree(ev: real, tRev: real, period: real, threshold: real)
    ensures O.SignalAt(Some(ev), Some(tRev), Some(period), Some(50.0), threshold, 0.1).confidence == O.High
    ensures !MarketNarrative(Some(ev), None, Some(tRev), Some(period), 50.0, false, threshold).volumeConfirmed
  {
  }
}
