/** The retry loop around a step and its capped exponential backoff, with seconds as real numbers. */
module Retry {
  import opened Types

  /** A floating-point factor: a number, or NaN or an infinity. */
  datatype Float = Finite(value: real) | NotFinite

  /** Durations are never negative. */
  type Seconds = r: real | 0.0 <= r

  datatype StepOptions = StepOptions(
    maxRetries: nat,
    backoffFactor: Float,
    baseInterval: Seconds,
    maxInterval: Seconds,
    retryPredicate: Option<DbosError -> bool>)

  const MAX_U32 := 0xFFFF_FFFF
  const TWO_TO_31 := 0x8000_0000
  const TWO_TO_32 := 0x1_0000_0000

  const DEFAULT_BASE: Seconds := 0.1
  const DEFAULT_MAX: Seconds := 5.0
  const DEFAULT_FACTOR := 2.0

  // ----- the delay before a retry -----

  function EffectiveBase(o: StepOptions): (r: real)
    ensures r > 0.0
  {
    if o.baseInterval == 0.0 then DEFAULT_BASE else o.baseInterval
  }

  function EffectiveMax(o: StepOptions): (r: real)
    ensures r > 0.0
  {
    if o.maxInterval == 0.0 then DEFAULT_MAX else o.maxInterval
  }

  function EffectiveFactor(o: StepOptions): (r: real)
    ensures r > 0.0
  {
    if o.backoffFactor.Finite? && o.backoffFactor.value > 0.0 then o.backoffFactor.value else DEFAULT_FACTOR
  }

  function Pow(f: real, n: nat): (r: real)
    requires f > 0.0
    ensures r > 0.0
    ensures f >= 1.0 ==> r >= 1.0
  {
    if n == 0 then 1.0 else f * Pow(f, n - 1)
  }

  /** `powi`: a negative exponent divides. */
  function PowI(f: real, e: int): (r: real)
    requires f > 0.0
    ensures r > 0.0
  {
    if e >= 0 then Pow(f, e) else 1.0 / Pow(f, -e)
  }

  /** The cast of a 32-bit unsigned number to a signed one wraps around. */
  function AsI32(n: nat): (r: int)
    requires n <= MAX_U32
    ensures -TWO_TO_31 <= r < TWO_TO_31
  {
    if n < TWO_TO_31 then n else n - TWO_TO_32
  }

  function Exponent(retryNumber: nat): int
    requires retryNumber <= MAX_U32
  {
    AsI32(if retryNumber == 0 then 0 else retryNumber - 1)
  }

  function Scaled(o: StepOptions, e: int): (r: real)
    ensures r > 0.0
  {
    EffectiveBase(o) * PowI(EffectiveFactor(o), e)
  }

  function StepRetryDelay(o: StepOptions, retryNumber: nat): (r: real)
    requires retryNumber <= MAX_U32
    ensures 0.0 < r <= EffectiveMax(o)
  {
    var scaled := Scaled(o, Exponent(retryNumber));
    if scaled >= EffectiveMax(o) then EffectiveMax(o) else scaled
  }

  lemma {:induction false} PowStepsUp(f: real, m: nat, n: nat)
    requires f >= 1.0 && m <= n
    ensures Pow(f, m) <= Pow(f, n)
    ensures f > 1.0 && m < n ==> Pow(f, m) < Pow(f, n)
    decreases n
  {
    if m < n {
      PowStepsUp(f, m, n - 1);
      Grows(f, Pow(f, n - 1), Pow(f, n));
    }
  }

  lemma Grows(f: real, x: real, product: real)
    requires f >= 1.0 && x > 0.0 && product == f * x
    ensures x <= product
    ensures f > 1.0 ==> x < product
  {
  }

  lemma Reciprocal(a: real, b: real)
    requires 0.0 < a <= b
    ensures 1.0 / b <= 1.0 / a
    ensures a < b ==> 1.0 / b < 1.0 / a
  {
    assert 1.0 / a - 1.0 / b == (b - a) / (a * b);
  }

  /** Powers of a factor of at least one grow with the exponent, negative exponents included. */
  lemma PowIStepsUp(f: real, m: int, n: int)
    requires f >= 1.0 && m <= n
    ensures PowI(f, m) <= PowI(f, n)
    ensures f > 1.0 && m < n ==> PowI(f, m) < PowI(f, n)
  {
    if m >= 0 {
      PowStepsUp(f, m, n);
    } else if n >= 0 {
      PowStepsUp(f, 0, n);
      PowStepsUp(f, 0, -m);
      Reciprocal(1.0, Pow(f, -m));
    } else {
      PowStepsUp(f, -n, -m);
      Reciprocal(Pow(f, -n), Pow(f, -m));
    }
  }

  lemma ScaledStepsUp(o: StepOptions, m: int, n: int)
    requires EffectiveFactor(o) >= 1.0 && m <= n
    ensures Scaled(o, m) <= Scaled(o, n)
    ensures EffectiveFactor(o) > 1.0 && m < n ==> Scaled(o, m) < Scaled(o, n)
  {
    var x, y := PowI(EffectiveFactor(o), m), PowI(EffectiveFactor(o), n);
    PowIStepsUp(EffectiveFactor(o), m, n);
    Scales(EffectiveBase(o), x, y, Scaled(o, m), Scaled(o, n));
  }

  lemma Scales(c: real, x: real, y: real, cx: real, cy: real)
    requires c > 0.0 && x <= y && cx == c * x && cy == c * y
    ensures cx <= cy
    ensures x < y ==> cx < cy
  {
  }

  /** With a factor of at least one the delays never decrease, up to retry number 2^31. */
  lemma DelaysNeverDecrease(o: StepOptions, m: nat, n: nat)
    requires EffectiveFactor(o) >= 1.0 && m <= n <= TWO_TO_31
    ensures StepRetryDelay(o, m) <= StepRetryDelay(o, n)
  {
    ScaledStepsUp(o, Exponent(m), Exponent(n));
  }

  ghost predicate NeverDecreases(o: StepOptions) {
    forall m: nat, n: nat :: m <= n <= MAX_U32 ==> StepRetryDelay(o, m) <= StepRetryDelay(o, n)
  }

  /** Beyond that number the exponent has wrapped to a negative one. Over all 32-bit retry numbers the delays never
      decrease exactly when the factor is one or the base interval is so large that even the most negative
      exponent leaves it at the maximum. */
  lemma DelaysNeverDecreaseIff(o: StepOptions)
    requires EffectiveFactor(o) >= 1.0
    ensures NeverDecreases(o) <==> EffectiveFactor(o) == 1.0 || Scaled(o, -TWO_TO_31) >= EffectiveMax(o)
  {
    if EffectiveFactor(o) == 1.0 || Scaled(o, -TWO_TO_31) >= EffectiveMax(o) {
      forall m: nat, n: nat | m <= n <= MAX_U32
        ensures StepRetryDelay(o, m) <= StepRetryDelay(o, n)
      {
        ConstantDelay(o, m);
        ConstantDelay(o, n);
      }
    } else {
      ScaledStepsUp(o, -TWO_TO_31, TWO_TO_31 - 1);
      assert Exponent(TWO_TO_31) == TWO_TO_31 - 1 && Exponent(TWO_TO_31 + 1) == -TWO_TO_31;
      assert StepRetryDelay(o, TWO_TO_31 + 1) < StepRetryDelay(o, TWO_TO_31);
    }
  }

  lemma ConstantDelay(o: StepOptions, n: nat)
    requires EffectiveFactor(o) >= 1.0 && n <= MAX_U32
    requires EffectiveFactor(o) == 1.0 || Scaled(o, -TWO_TO_31) >= EffectiveMax(o)
    ensures StepRetryDelay(o, n) == StepRetryDelay(o, 0)
  {
    if EffectiveFactor(o) == 1.0 {
      PowOfOne(if Exponent(n) >= 0 then Exponent(n) else -Exponent(n));
      PowOfOne(0);
    } else {
      ScaledStepsUp(o, -TWO_TO_31, Exponent(n));
      ScaledStepsUp(o, -TWO_TO_31, 0);
    }
  }

  lemma {:induction false} PowOfOne(n: nat)
    ensures Pow(1.0, n) == 1.0
  {
    if n > 0 {
      PowOfOne(n - 1);
    }
  }

  /** With the default intervals and factor the delay falls from the maximum when the exponent wraps. */
  lemma DefaultDelayDrops(o: StepOptions)
    requires EffectiveBase(o) == DEFAULT_BASE && EffectiveMax(o) == DEFAULT_MAX && EffectiveFactor(o) == DEFAULT_FACTOR
    ensures !NeverDecreases(o)
  {
    ScaledStepsUp(o, -TWO_TO_31, 0);
    DelaysNeverDecreaseIff(o);
  }

  // ----- the delays one after the other -----

  function Least(a: real, b: real): real {
    if a <= b then a else b
  }

  /** The first delay is the base interval, and each next one is the previous times the factor, all capped; a zero
      interval and an unusable factor stand for the defaults. With a factor below one the cap forgets how far above
      it the interval was, so there the rule holds from the first delay below the cap. */
  ghost predicate BacksOff(o: StepOptions, slept: seq<real>) {
    var base := if o.baseInterval == 0.0 then 0.1 else o.baseInterval;
    var most := if o.maxInterval == 0.0 then 5.0 else o.maxInterval;
    var factor := if o.backoffFactor.Finite? && o.backoffFactor.value > 0.0 then o.backoffFactor.value else 2.0;
    GrowsCapped(base, factor, most, slept)
  }

  ghost predicate GrowsCapped(base: real, factor: real, most: real, slept: seq<real>) {
    && (slept != [] ==> slept[0] == Least(base, most))
    && forall k :: 0 < k < |slept| && k < 0x8000_0000 && (factor >= 1.0 || slept[k - 1] < most) ==>
         slept[k] == Least(factor * slept[k - 1], most)
  }

  lemma FirstDelay(o: StepOptions)
    ensures StepRetryDelay(o, 1) == Least(EffectiveBase(o), EffectiveMax(o))
  {
    assert PowI(EffectiveFactor(o), 0) == 1.0;
  }

  lemma NextDelay(o: StepOptions, n: nat)
    requires 0 < n < TWO_TO_31
    requires EffectiveFactor(o) >= 1.0 || StepRetryDelay(o, n) < EffectiveMax(o)
    ensures StepRetryDelay(o, n + 1) == Least(EffectiveFactor(o) * StepRetryDelay(o, n), EffectiveMax(o))
  {
    var f, e := EffectiveFactor(o), n - 1;
    assert Exponent(n) == e && Exponent(n + 1) == e + 1;
    assert PowI(f, e + 1) == f * PowI(f, e);
    Commutes(EffectiveBase(o), f, PowI(f, e), Scaled(o, e), Scaled(o, e + 1));
    if Scaled(o, e) >= EffectiveMax(o) {
      Grows(f, EffectiveMax(o), f * EffectiveMax(o));
      Grows(f, Scaled(o, e), f * Scaled(o, e));
    }
  }

  lemma Commutes(base: real, f: real, p: real, scaled: real, next: real)
    requires scaled == base * p && next == base * (f * p)
    ensures next == f * scaled
  {
  }

  lemma DelaysBackOff(o: StepOptions, slept: seq<real>)
    requires |slept| <= MAX_U32 && forall k :: 0 <= k < |slept| ==> slept[k] == StepRetryDelay(o, k + 1)
    ensures GrowsCapped(EffectiveBase(o), EffectiveFactor(o), EffectiveMax(o), slept)
  {
    FirstDelay(o);
    forall k | 0 < k < |slept| && k < TWO_TO_31 && (EffectiveFactor(o) >= 1.0 || slept[k - 1] < EffectiveMax(o))
      ensures slept[k] == Least(EffectiveFactor(o) * slept[k - 1], EffectiveMax(o))
    {
      NextDelay(o, k);
    }
  }

  // ----- the loop -----

  predicate Accepts(o: StepOptions, error: DbosError) {
    o.retryPredicate.Some? ==> o.retryPredicate.value(error)
  }

  /** `last` is the number of the call that ends the loop: all calls before it failed with errors that may be
      retried, and it succeeded, failed for good, or used up the retries. */
  ghost predicate EndsAt<T>(o: StepOptions, outcome: nat -> Result<T>, last: nat) {
    && last <= o.maxRetries
    && (forall k: nat :: k < last ==> outcome(k).Err? && (o.retryPredicate.None? || o.retryPredicate.value(outcome(k).error)))
    && (outcome(last).Ok? || (o.retryPredicate.Some? && !o.retryPredicate.value(outcome(last).error)) || last == o.maxRetries)
  }

  /** The loop: `outcome(k)` is what the call number `k` of the operation gives; `slept` are the delays slept. */
  method RetryStepOperation<T>(o: StepOptions, outcome: nat -> Result<T>) returns (r: Result<T>, calls: nat, slept: seq<real>)
    requires o.maxRetries <= MAX_U32
    ensures calls > 0 && EndsAt(o, outcome, calls - 1) && r == outcome(calls - 1)
    ensures |slept| == calls - 1 && forall k :: 0 <= k < |slept| ==> slept[k] == StepRetryDelay(o, k + 1)
    ensures BacksOff(o, slept)
  {
    var retries: nat := 0;
    slept := [];
    r := outcome(0);
    while r.Err? && retries < o.maxRetries && Accepts(o, r.error)
      invariant retries <= o.maxRetries && r == outcome(retries)
      invariant forall k: nat :: k < retries ==> outcome(k).Err? && Accepts(o, outcome(k).error)
      invariant |slept| == retries && forall k :: 0 <= k < |slept| ==> slept[k] == StepRetryDelay(o, k + 1)
      decreases o.maxRetries - retries
    {
      retries := retries + 1;
      slept := slept + [StepRetryDelay(o, retries)];
      r := outcome(retries);
    }
    calls := retries + 1;
    DelaysBackOff(o, slept);
  }

  /** The ending call is determined by the outcomes, so the loop makes exactly these calls: it ends with a success
      if and only if one of the permitted calls succeeds before any error that the predicate refuses. */
  lemma LoopEndsOnce<T>(o: StepOptions, outcome: nat -> Result<T>, last: nat, other: nat)
    requires EndsAt(o, outcome, last)
    ensures EndsAt(o, outcome, other) ==> other == last
    ensures outcome(last).Ok? <==> exists n: nat :: n <= o.maxRetries && outcome(n).Ok? && forall k: nat :: k < n ==> outcome(k).Err? && Accepts(o, outcome(k).error)
  {
    if n: nat :| n <= o.maxRetries && outcome(n).Ok? && forall k: nat :: k < n ==> outcome(k).Err? && Accepts(o, outcome(k).error) {
      assert n <= last;
      assert EndsAt(o, outcome, n);
    }
  }

  function Total(slept: seq<real>): real {
    if slept == [] then 0.0 else slept[0] + Total(slept[1..])
  }

  lemma {:induction false} TotalAtMost(slept: seq<real>, most: real)
    requires forall k :: 0 <= k < |slept| ==> slept[k] <= most
    ensures Total(slept) <= |slept| as real * most
  {
    if slept != [] {
      TotalAtMost(slept[1..], most);
      assert |slept| as real * most == (|slept| - 1) as real * most + most;
    }
  }

  lemma TotalAtMostLimit(slept: seq<real>, most: real, limit: nat)
    requires |slept| <= limit && most > 0.0
    requires forall k :: 0 <= k < |slept| ==> slept[k] <= most
    ensures Total(slept) <= limit as real * most
  {
    TotalAtMost(slept, most);
    var n, l := |slept| as real, limit as real;
    Scales(most, n, l, n * most, l * most);
  }

  /** All the sleeping together takes at most the permitted retries times the effective maximum interval. */
  lemma TotalSleepIsBounded(o: StepOptions, slept: seq<real>)
    requires |slept| <= o.maxRetries <= MAX_U32
    requires forall k :: 0 <= k < |slept| ==> slept[k] == StepRetryDelay(o, k + 1)
    ensures Total(slept) <= o.maxRetries as real * EffectiveMax(o)
  {
    TotalAtMostLimit(slept, EffectiveMax(o), o.maxRetries);
  }
}
