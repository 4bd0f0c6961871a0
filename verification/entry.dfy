/** Entry zones around the equilibrium (backend/entry_analyzer.py): sigma
    bands, the long and short price ladders, the evaluation of a proposed
    entry price, and the entry analysis of the latest bar. */
module Entry {
  import opened Base
  import O = Oracle

  // ---------------------------------------------------------------------
  // calculate_sigma_bands
  // ---------------------------------------------------------------------

  /** The number of bands on each side by default. */
  const DefaultBands: int := 3

  /** The level i sigmas away from Z'. */
  function BandLevel(z: real, sigma: real, i: int): real
  {
    z + i as real * sigma
  }

  /** The band levels for i in -numBands .. numBands, keyed by i (the level
      at 0 is Z' itself). */
  function SigmaBands(z: real, sigma: real, numBands: int): map<int, real>
  {
    map i | -numBands <= i <= numBands :: BandLevel(z, sigma, i)
  }

  /** Fills the band dictionary from the lowest band to the highest. */
  method CalculateSigmaBands(z: real, sigma: real, numBands: int) returns (bands: map<int, real>)
    ensures bands == SigmaBands(z, sigma, numBands)
  {
    bands := map[];
    var i := -numBands;
    while i <= numBands
      invariant i == -numBands || -numBands <= i <= numBands + 1
      invariant bands == map k | -numBands <= k < i :: BandLevel(z, sigma, k)
      decreases numBands + 1 - i
    {
      ghost var before := bands;
      if i == 0 {
        bands := bands[0 := z];
        assert BandLevel(z, sigma, 0) == z;
      } else {
        bands := bands[i := z + i as real * sigma];
      }
      assert bands == before[i := BandLevel(z, sigma, i)];
      i := i + 1;
      assert bands.Keys == (map k | -numBands <= k < i :: BandLevel(z, sigma, k)).Keys;
    }
    assert bands.Keys == SigmaBands(z, sigma, numBands).Keys;
  }

  /** The band indices -n .. n. */
  function BandIndices(n: nat): (r: set<int>)
    ensures forall i :: i in r ==> -(n as int) <= i <= n
    ensures |r| == 2 * n + 1
  {
    if n == 0 then {0}
    else
      var inner := BandIndices(n - 1);
      var low := -(n as int);
      assert low !in inner && n !in inner;
      var withLow := inner + {low};
      assert |withLow| == |inner| + 1;
      withLow + {n}
  }

  lemma {:induction false} BandIndicesCover(n: nat, i: int)
    requires -(n as int) <= i <= n
    ensures i in BandIndices(n)
  {
    if i != n && i != -(n as int) {
      BandIndicesCover(n - 1, i);
    }
  }

  /** One level for each of the 2n + 1 band indices. */
  lemma BandCount(z: real, sigma: real, n: nat)
    ensures |SigmaBands(z, sigma, n)| == 2 * n + 1
  {
    forall i | -(n as int) <= i <= n
      ensures i in BandIndices(n)
    {
      BandIndicesCover(n, i);
    }
    assert SigmaBands(z, sigma, n).Keys == BandIndices(n);
  }

  /** 2 * numBands + 1 levels, symmetric about Z': the levels i and -i
      average to Z', and consecutive levels are sigma apart. */
  lemma SigmaBandsProperties(z: real, sigma: real, numBands: nat)
    ensures |SigmaBands(z, sigma, numBands)| == 2 * numBands + 1
    ensures SigmaBands(z, sigma, numBands)[0] == z
    ensures forall i :: i in SigmaBands(z, sigma, numBands) ==>
      -i in SigmaBands(z, sigma, numBands) &&
      SigmaBands(z, sigma, numBands)[i] + SigmaBands(z, sigma, numBands)[-i] == 2.0 * z
    ensures forall i :: i in SigmaBands(z, sigma, numBands) && i + 1 in SigmaBands(z, sigma, numBands) ==>
      SigmaBands(z, sigma, numBands)[i + 1] - SigmaBands(z, sigma, numBands)[i] == sigma
  {
    BandCount(z, sigma, numBands);
    var bands := SigmaBands(z, sigma, numBands);
    forall i | i in bands
      ensures -i in bands && bands[i] + bands[-i] == 2.0 * z
    {
      LevelArithmetic(z, sigma, i);
    }
    forall i | i in bands && i + 1 in bands
      ensures bands[i + 1] - bands[i] == sigma
    {
      LevelArithmetic(z, sigma, i);
    }
  }

  /** Opposite levels average to Z' and neighbouring levels are sigma apart. */
  lemma LevelArithmetic(z: real, sigma: real, i: int)
    ensures BandLevel(z, sigma, i) + BandLevel(z, sigma, -i) == 2.0 * z
    ensures BandLevel(z, sigma, i + 1) - BandLevel(z, sigma, i) == sigma
  {
    assert (-i) as real * sigma == -(i as real * sigma);
    assert (i + 1) as real * sigma == i as real * sigma + sigma;
  }

  // ---------------------------------------------------------------------
  // get_optimal_entry_long / get_optimal_entry_short
  // ---------------------------------------------------------------------

  datatype Level = High | Medium | Low | VeryHigh | Moderate | NotApplicable

  /** One entry zone: its price, the deviation E at that price, its risk
      level and its potential reward. */
  datatype Zone = Zone(price: real, eAtEntry: real, risk: Level, reward: Level)

  datatype Ladder = Ladder(aggressive: Zone, standard: Zone, conservative: Zone, target: Zone)

  /** The aggressive and conservative depths in sigmas. */
  const AggressiveDepth: real := 1.0
  const ConservativeDepth: real := 2.5

  function OptimalEntryLong(z: real, sigma: real, threshold: real): Ladder
  {
    Ladder(
      Zone(z - AggressiveDepth * sigma, -AggressiveDepth, High, Moderate),
      Zone(z - threshold * sigma, -threshold, Medium, High),
      Zone(z - ConservativeDepth * sigma, -ConservativeDepth, Low, VeryHigh),
      Zone(z, 0.0, NotApplicable, NotApplicable))
  }

  function OptimalEntryShort(z: real, sigma: real, threshold: real): Ladder
  {
    Ladder(
      Zone(z + AggressiveDepth * sigma, AggressiveDepth, High, Moderate),
      Zone(z + threshold * sigma, threshold, Medium, High),
      Zone(z + ConservativeDepth * sigma, ConservativeDepth, Low, VeryHigh),
      Zone(z, 0.0, NotApplicable, NotApplicable))
  }

  function Zones(l: Ladder): seq<Zone>
  {
    [l.aggressive, l.standard, l.conservative, l.target]
  }

  /** Every zone's price sits exactly E_at_entry sigmas from Z' (so the
      deviation at that price is E_at_entry), and the short ladder mirrors
      the long one: prices average to Z' and deviations are opposite. */
  lemma LaddersMirror(z: real, sigma: real, threshold: real)
    ensures var long, short := OptimalEntryLong(z, sigma, threshold), OptimalEntryShort(z, sigma, threshold);
      forall k :: 0 <= k < 4 ==>
        Zones(long)[k].price == z + Zones(long)[k].eAtEntry * sigma &&
        Zones(short)[k].price == z + Zones(short)[k].eAtEntry * sigma &&
        Zones(long)[k].price + Zones(short)[k].price == 2.0 * z &&
        Zones(long)[k].eAtEntry == -Zones(short)[k].eAtEntry &&
        Zones(long)[k].risk == Zones(short)[k].risk && Zones(long)[k].reward == Zones(short)[k].reward
  {
  }

  /** With a positive sigma the long ladder descends below Z' in the order
      aggressive, conservative when the threshold lies between 1 and 2.5. */
  lemma LongLadderOrder(z: real, sigma: real, threshold: real)
    requires sigma > 0.0 && AggressiveDepth <= threshold <= ConservativeDepth
    ensures var l := OptimalEntryLong(z, sigma, threshold);
      l.conservative.price <= l.standard.price <= l.aggressive.price < l.target.price
  {
    assert threshold * sigma <= ConservativeDepth * sigma;
    assert AggressiveDepth * sigma <= threshold * sigma;
  }

  // ---------------------------------------------------------------------
  // evaluate_user_entry
  // ---------------------------------------------------------------------

  datatype Position = Long | Short

  datatype EntryQuality = Excellent | Good | Fair | Poor | ModerateQuality

  /** A risk/reward ratio; infinite when there is no positive risk. */
  datatype Ratio = Finite(value: real) | Infinite

  datatype UserEvaluation = UserEvaluation(
    entryPrice: real, currentPrice: real, z: real, sigma: real,
    eAtEntry: real, eCurrent: real, position: Position, quality: EntryQuality,
    distanceToTarget: real, distanceToTargetPct: real, stopLoss: real, riskPct: real,
    riskReward: Ratio, timing: bool)

  /** (price - Z') / sigma, or 0 when sigma is not positive. */
  function DeviationAt(price: real, z: real, sigma: real): real
  {
    if sigma > 0.0 then (price - z) / sigma else 0.0
  }

  /** Percentage of the entry price, or 0 for a non-positive entry price. */
  function PctOfEntry(amount: real, entry: real): real
  {
    if entry > 0.0 then amount / entry * 100.0 else 0.0
  }

  /** The stop sits three sigmas beyond Z' on the losing side. */
  const StopDepth: real := 3.0

  function QualityOf(e: real, threshold: real, timing: bool): EntryQuality
  {
    var a := Abs(e);
    if a >= threshold then (if timing then Excellent else Good)
    else if a >= 1.5 then ModerateQuality
    else if a >= 1.0 then Fair
    else Poor
  }

  function EvaluateUserEntry(entry: real, z: real, sigma: real, current: real, timing: bool, threshold: real): UserEvaluation
  {
    var eAtEntry := DeviationAt(entry, z, sigma);
    var eCurrent := DeviationAt(current, z, sigma);
    var position := if entry < z then Long else Short;
    var distance := if position == Long then z - entry else entry - z;
    var distancePct := PctOfEntry(distance, entry);
    var stop := if position == Long then z - StopDepth * sigma else z + StopDepth * sigma;
    var risk := if position == Long then PctOfEntry(entry - stop, entry) else PctOfEntry(stop - entry, entry);
    var ratio := if risk > 0.0 then Finite(distancePct / risk) else Infinite;
    UserEvaluation(entry, current, z, sigma, eAtEntry, eCurrent, position, QualityOf(eAtEntry, threshold, timing),
                   distance, distancePct, stop, risk, ratio, timing)
  }

  /** The deviation at the entry measures it in sigmas (it recovers entry -
      Z'); the position is LONG exactly below Z'; the distance to the target
      is |entry - Z'|; the stop is three sigmas beyond Z'; a finite ratio
      times the risk gives back the distance percentage. */
  lemma UserEntryMeaning(entry: real, z: real, sigma: real, current: real, timing: bool, threshold: real)
    ensures var u := EvaluateUserEntry(entry, z, sigma, current, timing, threshold);
      (sigma > 0.0 ==> u.eAtEntry * sigma == entry - z && u.eCurrent * sigma == current - z) &&
      (sigma <= 0.0 ==> u.eAtEntry == 0.0 && u.eCurrent == 0.0) &&
      (u.position == Long <==> entry < z) &&
      u.distanceToTarget == Abs(entry - z) &&
      (u.position == Long ==> u.stopLoss == z - 3.0 * sigma) &&
      (u.position == Short ==> u.stopLoss == z + 3.0 * sigma) &&
      (u.riskReward.Finite? <==> u.riskPct > 0.0) &&
      (u.riskReward.Finite? ==> u.riskReward.value * u.riskPct == u.distanceToTargetPct)
  {
    var u := EvaluateUserEntry(entry, z, sigma, current, timing, threshold);
    if sigma > 0.0 {
      assert (entry - z) / sigma * sigma == entry - z;
      assert (current - z) / sigma * sigma == current - z;
    }
    if u.riskPct > 0.0 {
      assert u.distanceToTargetPct / u.riskPct * u.riskPct == u.distanceToTargetPct;
    }
  }

  /** The quality tiers: at or beyond the threshold it is Excellent with
      timing and Good without; below it, 1.5 and 1.0 sigmas mark Moderate and
      Fair; anything closer is Poor.  Timing matters only at the threshold. */
  lemma QualityTiers(e: real, threshold: real, timing: bool)
    ensures var q := QualityOf(e, threshold, timing);
      (q == Excellent <==> Abs(e) >= threshold && timing) &&
      (q == Good <==> Abs(e) >= threshold && !timing) &&
      (q == ModerateQuality <==> Abs(e) < threshold && Abs(e) >= 1.5) &&
      (q == Fair <==> Abs(e) < threshold && 1.0 <= Abs(e) < 1.5) &&
      (q == Poor <==> Abs(e) < threshold && Abs(e) < 1.0) &&
      (Abs(e) < threshold ==> q == QualityOf(e, threshold, !timing))
  {
  }

  /** A long entry above its stop, with a positive sigma and price, carries
      positive risk, so its ratio is finite. */
  lemma LongRiskPositive(entry: real, z: real, sigma: real, current: real, timing: bool, threshold: real)
    requires entry > 0.0 && entry < z && entry > z - StopDepth * sigma
    ensures EvaluateUserEntry(entry, z, sigma, current, timing, threshold).riskPct > 0.0
    ensures EvaluateUserEntry(entry, z, sigma, current, timing, threshold).riskReward.Finite?
  {
    var stop := z - StopDepth * sigma;
    assert (entry - stop) / entry > 0.0;
  }

  // ---------------------------------------------------------------------
  // get_entry_analysis / analyze_entry_point
  // ---------------------------------------------------------------------

  datatype EntryError = NoData | MissingEquilibrium

  datatype Direction = LongEntry | ShortEntry | HoldEntry

  datatype Plans = LongPlan(long: Ladder) | ShortPlan(short: Ladder) | BothPlans(long: Ladder, short: Ladder)

  datatype EntryAnalysis = EntryAnalysis(
    currentPrice: real, z: real, sigma: real, e: Option<real>, direction: Direction,
    timing: bool, bands: map<int, real>, plans: Plans)

  /** The fraction of the dominant period used as the timing threshold. */
  const TimingFraction: real := 0.10

  /** T_reversal below a tenth of a positive, defined dominant period. */
  function TimingOf(tReversal: Option<real>, dominantPeriod: Option<real>): bool
  {
    tReversal.Some? && dominantPeriod.Some? && dominantPeriod.value > 0.0 &&
    tReversal.value < dominantPeriod.value * TimingFraction
  }

  function GetEntryAnalysis(rows: seq<O.Row>, threshold: real): Result<EntryAnalysis, EntryError>
  {
    if |rows| == 0 then Failure(NoData)
    else
      var latest := rows[|rows| - 1];
      if latest.zPrime.None? || latest.sigma.None? || latest.sigma.value == 0.0 then Failure(MissingEquilibrium)
      else
        var z, sigma := latest.zPrime.value, latest.sigma.value;
        var e := latest.e;
        var (direction, plans) :=
          if e.Some? && Abs(e.value) >= threshold then
            if e.value < 0.0 then (LongEntry, LongPlan(OptimalEntryLong(z, sigma, threshold)))
            else (ShortEntry, ShortPlan(OptimalEntryShort(z, sigma, threshold)))
          else (HoldEntry, BothPlans(OptimalEntryLong(z, sigma, threshold), OptimalEntryShort(z, sigma, threshold)));
        Success(EntryAnalysis(latest.bar.close, z, sigma, e, direction,
                              TimingOf(latest.tReversal, latest.dominantPeriod),
                              SigmaBands(z, sigma, DefaultBands), plans))
  }

  /** Errors exactly for an empty frame or a missing or zero sigma or
      equilibrium; otherwise the direction uses the non-strict threshold:
      LONG for E <= -threshold, SHORT for E >= threshold with E >= 0, and
      HOLD otherwise. The bands are the three-band map around Z', and the
      plans are the long ladder for LONG, the short one for SHORT and both
      for HOLD. */
  lemma EntryAnalysisRules(rows: seq<O.Row>, threshold: real)
    ensures var r := GetEntryAnalysis(rows, threshold);
      (r == Failure(NoData) <==> |rows| == 0) &&
      (r == Failure(MissingEquilibrium) <==>
        |rows| > 0 && (rows[|rows| - 1].zPrime.None? || rows[|rows| - 1].sigma.None? || rows[|rows| - 1].sigma.value == 0.0)) &&
      (r.Success? ==>
        var latest := rows[|rows| - 1];
        var e := latest.e;
        r.value.z == latest.zPrime.value && r.value.sigma == latest.sigma.value && r.value.sigma != 0.0 &&
        (r.value.direction == LongEntry <==> e.Some? && Abs(e.value) >= threshold && e.value < 0.0) &&
        (r.value.direction == ShortEntry <==> e.Some? && Abs(e.value) >= threshold && e.value >= 0.0) &&
        (r.value.direction == HoldEntry <==> r.value.plans.BothPlans?) &&
        (r.value.timing <==>
          latest.tReversal.Some? && latest.dominantPeriod.Some? &&
          latest.dominantPeriod.value > 0.0 && latest.tReversal.value < latest.dominantPeriod.value * 0.10))
    ensures var r := GetEntryAnalysis(rows, threshold);
      r.Success? ==>
        var z, sigma := r.value.z, r.value.sigma;
        r.value.currentPrice == rows[|rows| - 1].bar.close &&
        r.value.bands == SigmaBands(z, sigma, DefaultBands) &&
        (r.value.direction == LongEntry ==> r.value.plans == LongPlan(OptimalEntryLong(z, sigma, threshold))) &&
        (r.value.direction == ShortEntry ==> r.value.plans == ShortPlan(OptimalEntryShort(z, sigma, threshold))) &&
        (r.value.direction == HoldEntry ==>
          r.value.plans == BothPlans(OptimalEntryLong(z, sigma, threshold), OptimalEntryShort(z, sigma, threshold)))
  {
  }

  /** A deviation exactly at the threshold already picks a side here,
      whereas the per-bar signal rule holds at equality. */
  lemma ThresholdIsInclusive(z: real, sigma: real, threshold: real)
    requires sigma != 0.0 && threshold > 0.0
    ensures var row := O.Row(O.Bar(0.0, 0.0, 0.0, z, 0.0), Some(z), None, Some(sigma), Some(-threshold),
                             None, None, None, None, None, false, false, None, O.Hold, O.NoDirection, None, O.NoConfidence);
      GetEntryAnalysis([row], threshold).value.direction == LongEntry
    ensures O.SignalAt(Some(-threshold), Some(0.0), Some(10.0), None, threshold, 0.1).signal == O.Hold
  {
  }

  /** The entry analysis, with the evaluation of the caller's price when
      one is given and the analysis succeeded. */
  function AnalyzeEntryPoint(rows: seq<O.Row>, userEntry: Option<real>, threshold: real)
    : (r: Result<(EntryAnalysis, Option<UserEvaluation>), EntryError>)
    ensures r.Failure? <==> GetEntryAnalysis(rows, threshold).Failure?
    ensures r.Success? ==>
      r.value.0 == GetEntryAnalysis(rows, threshold).value &&
      (r.value.1.Some? <==> userEntry.Some?) &&
      (r.value.1.Some? ==>
        var a := r.value.0;
        r.value.1.value == EvaluateUserEntry(userEntry.value, a.z, a.sigma, a.currentPrice, a.timing, threshold))
  {
    match GetEntryAnalysis(rows, threshold)
    case Failure(err) => Failure(err)
    case Success(a) =>
      var user := if userEntry.Some? then
        Some(EvaluateUserEntry(userEntry.value, a.z, a.sigma, a.currentPrice, a.timing, threshold))
      else None;
      Success((a, user))
  }
}
