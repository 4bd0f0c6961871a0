/** The configuration validator: the four sanity checks run over the module
    constants, with every violated check collected before the error is raised.
    The constants are parameters here, gathered in one `Config` record. */
module Config {
  import opened Base

  /** The validated constants: LIMIT, SIGMA_THRESHOLD, VWAP_PERIOD, FFT_PERIOD
      and REVERSAL_THRESHOLD_PERCENT. */
  datatype Config = Config(
    limit: int,
    sigmaThreshold: real,
    vwapPeriod: int,
    fftPeriod: int,
    reversalThresholdPercent: real)

  /** The shipped values of the constants. */
  const Shipped: Config := Config(1500, 2.0, 100, 256, 0.10)

  /** One violated check, carrying the values its message reports. */
  datatype ConfigError =
    | LimitTooSmall(limit: int, required: int)
    | NonPositiveSigma(sigma: real)
    | ReversalOutOfRange(percent: real)
    | FftNotPowerOfTwo(fft: int)

  /** Position of each check in the order the validator runs them. */
  function Rank(e: ConfigError): nat
  {
    match e
    case LimitTooSmall(_, _) => 0
    case NonPositiveSigma(_) => 1
    case ReversalOutOfRange(_) => 2
    case FftNotPowerOfTwo(_) => 3
  }

  /** Python's `&` on integers: bitwise and over infinite two's complement,
      so that -1 is all ones. Dafny's `/` and `%` by 2 floor, as Python's do. */
  function BitAnd(a: int, b: int): int
    decreases IntAbs(a) + IntAbs(b)
  {
    if a == 0 || b == 0 then 0
    else if a == -1 then b
    else if b == -1 then a
    else
      HalfShrinks(a);
      HalfShrinks(b);
      2 * BitAnd(a / 2, b / 2) + (a % 2) * (b % 2)
  }

  function IntAbs(x: int): nat
  {
    if x < 0 then -x else x
  }

  lemma HalfShrinks(x: int)
    requires x != 0 && x != -1
    ensures IntAbs(x / 2) < IntAbs(x)
  {
  }

  /** 1, 2, 4, 8, ...: the positive powers of two. */
  predicate IsPowerOfTwo(n: int)
    decreases IntAbs(n)
  {
    n == 1 || (n >= 2 && n % 2 == 0 && IsPowerOfTwo(n / 2))
  }

  lemma {:induction false} BitAndSelf(x: int)
    ensures BitAnd(x, x) == x
    decreases IntAbs(x)
  {
    if x != 0 && x != -1 {
      HalfShrinks(x);
      BitAndSelf(x / 2);
      assert (x % 2) * (x % 2) == x % 2;
    }
  }

  /** The bit trick `n & (n - 1) == 0` accepts exactly 0 and the positive
      powers of two; every negative number is refused. */
  lemma {:induction false} PowerOfTwoTest(n: int)
    ensures BitAnd(n, n - 1) == 0 <==> n == 0 || IsPowerOfTwo(n)
    decreases IntAbs(n)
  {
    if n == 0 || n == 1 {
    } else if n == -1 {
      assert BitAnd(-1, -2) == -2;
    } else if n % 2 == 0 {
      // clearing the lowest bit of an even number halves to the same test
      var m := n / 2;
      assert (n - 1) / 2 == m - 1;
      assert (n % 2) * ((n - 1) % 2) == 0;
      assert BitAnd(n, n - 1) == 2 * BitAnd(m, m - 1);
      HalfShrinks(n);
      PowerOfTwoTest(m);
    } else {
      // an odd number shares its upper bits with its predecessor
      var m := (n - 1) / 2;
      assert n / 2 == m;
      assert ((n - 1) % 2) == 0;
      assert BitAnd(n, n - 1) == 2 * BitAnd(m, m) + (n % 2) * ((n - 1) % 2);
      HalfShrinks(n);
      BitAndSelf(m);
      assert m != 0;
    }
  }

  /** The four checks, each on its own. */
  predicate LimitCoversPeriods(c: Config)
  {
    c.limit >= Max(c.vwapPeriod, c.fftPeriod)
  }

  predicate SigmaPositive(c: Config)
  {
    c.sigmaThreshold > 0.0
  }

  predicate ReversalFraction(c: Config)
  {
    0.0 < c.reversalThresholdPercent < 1.0
  }

  predicate FftIsPowerOfTwo(c: Config)
  {
    BitAnd(c.fftPeriod, c.fftPeriod - 1) == 0
  }

  /** Whether the check that `e` reports is violated by `c`. */
  predicate Violated(c: Config, e: ConfigError)
  {
    match e
    case LimitTooSmall(_, _) => !LimitCoversPeriods(c)
    case NonPositiveSigma(_) => !SigmaPositive(c)
    case ReversalOutOfRange(_) => !ReversalFraction(c)
    case FftNotPowerOfTwo(_) => !FftIsPowerOfTwo(c)
  }

  predicate Valid(c: Config)
  {
    LimitCoversPeriods(c) && SigmaPositive(c) && ReversalFraction(c) && FftIsPowerOfTwo(c)
  }

  /** The error a check contributes: none when it holds. */
  function Check(holds: bool, e: ConfigError): seq<ConfigError>
  {
    if holds then [] else [e]
  }

  /** The violated checks, in the order the validator runs them. */
  function Violations(c: Config): seq<ConfigError>
  {
    Check(LimitCoversPeriods(c), LimitTooSmall(c.limit, Max(c.vwapPeriod, c.fftPeriod))) +
    Check(SigmaPositive(c), NonPositiveSigma(c.sigmaThreshold)) +
    Check(ReversalFraction(c), ReversalOutOfRange(c.reversalThresholdPercent)) +
    Check(FftIsPowerOfTwo(c), FftNotPowerOfTwo(c.fftPeriod))
  }

  /** Runs the four checks in order, appending the error of each failed
      one; returns `true` when none failed and otherwise all the errors. */
  method ValidateConfig(c: Config) returns (r: Result<bool, seq<ConfigError>>)
    ensures r.Success? <==> Valid(c)
    ensures r.Success? ==> r.value
    ensures r.Failure? ==> r.error == Violations(c)
  {
    var errors: seq<ConfigError> := [];
    if !LimitCoversPeriods(c) {
      errors := errors + [LimitTooSmall(c.limit, Max(c.vwapPeriod, c.fftPeriod))];
    }
    assert errors == Check(LimitCoversPeriods(c), LimitTooSmall(c.limit, Max(c.vwapPeriod, c.fftPeriod)));
    ghost var done := errors;
    if !SigmaPositive(c) {
      errors := errors + [NonPositiveSigma(c.sigmaThreshold)];
    }
    assert errors == done + Check(SigmaPositive(c), NonPositiveSigma(c.sigmaThreshold));
    done := errors;
    if !ReversalFraction(c) {
      errors := errors + [ReversalOutOfRange(c.reversalThresholdPercent)];
    }
    assert errors == done + Check(ReversalFraction(c), ReversalOutOfRange(c.reversalThresholdPercent));
    done := errors;
    if !FftIsPowerOfTwo(c) {
      errors := errors + [FftNotPowerOfTwo(c.fftPeriod)];
    }
    assert errors == done + Check(FftIsPowerOfTwo(c), FftNotPowerOfTwo(c.fftPeriod));
    ViolationsEmptyIffValid(c);
    if |errors| > 0 {
      r := Failure(errors);
    } else {
      r := Success(true);
    }
  }

  /** Nothing is reported exactly when the configuration is valid. */
  lemma ViolationsEmptyIffValid(c: Config)
    ensures Violations(c) == [] <==> Valid(c)
  {
  }

  /** Only violated checks are reported. */
  lemma ViolationsAreFailures(c: Config)
    ensures forall i :: 0 <= i < |Violations(c)| ==> Violated(c, Violations(c)[i])
  {
    var a := Check(LimitCoversPeriods(c), LimitTooSmall(c.limit, Max(c.vwapPeriod, c.fftPeriod)));
    var b := Check(SigmaPositive(c), NonPositiveSigma(c.sigmaThreshold));
    var d := Check(ReversalFraction(c), ReversalOutOfRange(c.reversalThresholdPercent));
    var f := Check(FftIsPowerOfTwo(c), FftNotPowerOfTwo(c.fftPeriod));
    CheckFacts(c, LimitCoversPeriods(c), LimitTooSmall(c.limit, Max(c.vwapPeriod, c.fftPeriod)));
    CheckFacts(c, SigmaPositive(c), NonPositiveSigma(c.sigmaThreshold));
    CheckFacts(c, ReversalFraction(c), ReversalOutOfRange(c.reversalThresholdPercent));
    CheckFacts(c, FftIsPowerOfTwo(c), FftNotPowerOfTwo(c.fftPeriod));
    AllViolatedAppend(c, a, b);
    AllViolatedAppend(c, a + b, d);
    AllViolatedAppend(c, a + b + d, f);
    assert Violations(c) == a + b + d + f;
  }

  lemma AllViolatedAppend(c: Config, xs: seq<ConfigError>, ys: seq<ConfigError>)
    requires forall i :: 0 <= i < |xs| ==> Violated(c, xs[i])
    requires forall i :: 0 <= i < |ys| ==> Violated(c, ys[i])
    ensures forall i :: 0 <= i < |xs + ys| ==> Violated(c, (xs + ys)[i])
  {
    forall i | 0 <= i < |xs + ys|
      ensures Violated(c, (xs + ys)[i])
    {
      if i >= |xs| {
        assert (xs + ys)[i] == ys[i - |xs|];
      }
    }
  }

  /** The checks are reported in the order they run, so none twice. */
  lemma ViolationsInOrder(c: Config)
    ensures forall i, j :: 0 <= i < j < |Violations(c)| ==> Rank(Violations(c)[i]) < Rank(Violations(c)[j])
  {
    var a := Check(LimitCoversPeriods(c), LimitTooSmall(c.limit, Max(c.vwapPeriod, c.fftPeriod)));
    var b := Check(SigmaPositive(c), NonPositiveSigma(c.sigmaThreshold));
    var d := Check(ReversalFraction(c), ReversalOutOfRange(c.reversalThresholdPercent));
    var f := Check(FftIsPowerOfTwo(c), FftNotPowerOfTwo(c.fftPeriod));
    RankedAppend(a, 0, b, 1);
    RankedAppend(a + b, 1, d, 2);
    RankedAppend(a + b + d, 2, f, 3);
    assert Violations(c) == a + b + d + f;
  }

  /** Every failed check is reported, with the values its message names. */
  lemma ViolationsReportEachFailure(c: Config)
    ensures !LimitCoversPeriods(c) <==> LimitTooSmall(c.limit, Max(c.vwapPeriod, c.fftPeriod)) in Violations(c)
    ensures !SigmaPositive(c) <==> NonPositiveSigma(c.sigmaThreshold) in Violations(c)
    ensures !ReversalFraction(c) <==> ReversalOutOfRange(c.reversalThresholdPercent) in Violations(c)
    ensures !FftIsPowerOfTwo(c) <==> FftNotPowerOfTwo(c.fftPeriod) in Violations(c)
  {
    var a := Check(LimitCoversPeriods(c), LimitTooSmall(c.limit, Max(c.vwapPeriod, c.fftPeriod)));
    var b := Check(SigmaPositive(c), NonPositiveSigma(c.sigmaThreshold));
    var d := Check(ReversalFraction(c), ReversalOutOfRange(c.reversalThresholdPercent));
    var f := Check(FftIsPowerOfTwo(c), FftNotPowerOfTwo(c.fftPeriod));
    CheckFacts(c, LimitCoversPeriods(c), LimitTooSmall(c.limit, Max(c.vwapPeriod, c.fftPeriod)));
    CheckFacts(c, SigmaPositive(c), NonPositiveSigma(c.sigmaThreshold));
    CheckFacts(c, ReversalFraction(c), ReversalOutOfRange(c.reversalThresholdPercent));
    CheckFacts(c, FftIsPowerOfTwo(c), FftNotPowerOfTwo(c.fftPeriod));
    KindsApart(a, b, d, f);
    assert Violations(c) == a + b + d + f;
  }

  /** What one check contributes: its own error exactly when it fails. */
  lemma CheckFacts(c: Config, holds: bool, e: ConfigError)
    requires holds <==> !Violated(c, e)
    ensures |Check(holds, e)| <= 1
    ensures forall i :: 0 <= i < |Check(holds, e)| ==> Check(holds, e)[i] == e && Violated(c, e)
    ensures e in Check(holds, e) <==> !holds
  {
  }

  /** Errors of different kinds never stand for each other, so an error is
      in the concatenation exactly when it is in the part for its kind. */
  lemma KindsApart(a: seq<ConfigError>, b: seq<ConfigError>, d: seq<ConfigError>, f: seq<ConfigError>)
    requires forall i :: 0 <= i < |a| ==> a[i].LimitTooSmall?
    requires forall i :: 0 <= i < |b| ==> b[i].NonPositiveSigma?
    requires forall i :: 0 <= i < |d| ==> d[i].ReversalOutOfRange?
    requires forall i :: 0 <= i < |f| ==> f[i].FftNotPowerOfTwo?
    ensures forall e :: e in a + b + d + f ==>
      (e.LimitTooSmall? ==> e in a) && (e.NonPositiveSigma? ==> e in b) &&
      (e.ReversalOutOfRange? ==> e in d) && (e.FftNotPowerOfTwo? ==> e in f)
  {
  }

  /** Appending errors ranked above `bound` to errors ranked at most
      `bound`, both in increasing order, keeps the order increasing. */
  lemma RankedAppend(xs: seq<ConfigError>, bound: nat, ys: seq<ConfigError>, next: nat)
    requires forall i, j :: 0 <= i < j < |xs| ==> Rank(xs[i]) < Rank(xs[j])
    requires forall i :: 0 <= i < |xs| ==> Rank(xs[i]) <= bound
    requires |ys| <= 1 && bound < next
    requires forall i :: 0 <= i < |ys| ==> Rank(ys[i]) == next
    ensures forall i, j :: 0 <= i < j < |xs + ys| ==> Rank((xs + ys)[i]) < Rank((xs + ys)[j])
    ensures forall i :: 0 <= i < |xs + ys| ==> Rank((xs + ys)[i]) <= next
  {
  }

  /** The shipped constants pass all four checks. */
  lemma ShippedConfigIsValid()
    ensures Valid(Shipped)
  {
    assert IsPowerOfTwo(256) by {
      assert IsPowerOfTwo(1);
      assert IsPowerOfTwo(2);
      assert IsPowerOfTwo(4);
      assert IsPowerOfTwo(8);
      assert IsPowerOfTwo(16);
      assert IsPowerOfTwo(32);
      assert IsPowerOfTwo(64);
      assert IsPowerOfTwo(128);
    }
    PowerOfTwoTest(256);
  }

  /** The power-of-two check lets an FFT period of 0 through, and refuses
      every period that is not a power of two, negative ones included. */
  lemma FftCheckMeaning(c: Config)
    ensures FftIsPowerOfTwo(c) <==> c.fftPeriod == 0 || IsPowerOfTwo(c.fftPeriod)
    ensures c.fftPeriod < 0 ==> !FftIsPowerOfTwo(c)
  {
    PowerOfTwoTest(c.fftPeriod);
  }
}
