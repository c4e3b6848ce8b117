/** The delay the retry loops share: doubled after every wait, up to a cap, with jitter, in 64-bit arithmetic. */
module Backoff {

  const MAX_INT64: int := 0x7fff_ffff_ffff_ffff

  /** Half the range of the positive 64-bit integers: twice anything below it fits. */
  const HALF_RANGE: int := 0x4000_0000_0000_0000

  const SECOND: int := 1_000_000_000

  datatype RetryConfig = RetryConfig(maxAttempts: int, baseRetryDelay: int, maxRetryDelay: int)

  predicate InInt64(x: int) {
    -MAX_INT64 - 1 <= x <= MAX_INT64
  }

  function Min(a: int, b: int): (m: int)
    ensures m <= a && m <= b && (m == a || m == b)
  {
    if a <= b then a else b
  }

  function Pow2(k: nat): (p: nat)
    ensures p >= 1
    decreases k
  {
    if k == 0 then 1 else 2 * Pow2(k - 1)
  }

  /** Integer division by two as Go does it, toward zero. */
  function Half(x: int): (half: int)
    ensures x >= 0 ==> 2 * half <= x <= 2 * half + 1
    ensures x <= 0 ==> 2 * half - 1 <= x <= 2 * half
  {
    if x >= 0 then x / 2 else -(-x / 2)
  }

  /** A result that leaves the signed 64-bit range wraps round. */
  function Wrap64(x: int): int {
    (x + MAX_INT64 + 1) % (2 * (MAX_INT64 + 1)) - MAX_INT64 - 1
  }

  /** Doubling only below half the cap keeps a positive product at or below the cap. */
  function NextBackoff(current: int, max: int): int {
    if current < Half(max) then Wrap64(2 * current) else max
  }

  /** The delay after `k` waits. */
  function BackoffAt(base: int, max: int, k: nat): int
    decreases k
  {
    if k == 0 then base else NextBackoff(BackoffAt(base, max, k - 1), max)
  }

  /** The wait itself: a draw below twice the delay, cut off at the cap. */
  function Jitter(draw: int, max: int): (wait: int)
    ensures wait <= draw && wait <= max && (wait == draw || wait == max)
  {
    Min(draw, max)
  }

  /** The draw panics unless its bound, twice the delay in 64 bits, is positive. */
  predicate CanDraw(current: int) {
    Wrap64(2 * current) > 0
  }

  /** The range is that of 64 bits. */
  lemma SixtyFourBits()
    ensures MAX_INT64 + 1 == Pow2(63) && HALF_RANGE == Pow2(62)
    ensures forall x :: InInt64(x) <==> -9_223_372_036_854_775_808 <= x <= 9_223_372_036_854_775_807
  {
    hide Pow2;
    SmallPowers();
    Pow2Sum(8, 8);
    assert Pow2(16) == 65_536;
    Pow2Sum(8, 7);
    assert Pow2(15) == 32_768;
    Pow2Sum(16, 15);
    assert Pow2(31) == 2_147_483_648;
    Pow2Sum(31, 31);
    assert Pow2(62) == 4_611_686_018_427_387_904;
    Pow2Sum(1, 62);
  }

  lemma SmallPowers()
    ensures Pow2(1) == 2 && Pow2(7) == 128 && Pow2(8) == 256
  {
    assert Pow2(4) == 16;
  }

  lemma {:induction false} Pow2Sum(j: nat, k: nat)
    ensures Pow2(j + k) == Pow2(j) * Pow2(k)
    decreases j
  {
    if j > 0 {
      Pow2Sum(j - 1, k);
      assert Pow2(j + k) == 2 * Pow2(j - 1 + k);
      assert 2 * Pow2(j - 1) * Pow2(k) == 2 * (Pow2(j - 1) * Pow2(k));
    }
  }

  lemma WrapOf(x: int)
    ensures InInt64(x) ==> Wrap64(x) == x
    ensures -4 * HALF_RANGE <= x < -2 * HALF_RANGE ==> Wrap64(x) == x + 4 * HALF_RANGE
    ensures 2 * HALF_RANGE <= x < 4 * HALF_RANGE ==> Wrap64(x) == x - 4 * HALF_RANGE
  {
  }

  lemma PositiveStep(current: int, max: int)
    requires 0 < current <= max <= MAX_INT64
    ensures NextBackoff(current, max) == if 2 * current < max - 1 then 2 * current else max
    ensures current <= NextBackoff(current, max) <= max
  {
    hide Wrap64;
    WrapOf(2 * current);
  }

  /**
    The delay in closed form, exactly: the capped power of two, except that one that would
    fall a single unit short of the cap is rounded up to it. With an even cap that only
    happens at the start, where the delay is the base.
   */
  function CappedPower(base: int, max: int, k: nat): int {
    if k > 0 && base * Pow2(k) == max - 1 then max else Min(base * Pow2(k), max)
  }

  lemma {:induction false} BackoffClosedForm(base: int, max: int, k: nat)
    requires 0 < base <= max <= MAX_INT64
    ensures BackoffAt(base, max, k) == CappedPower(base, max, k)
    decreases k
  {
    hide NextBackoff;
    if k > 0 {
      BackoffClosedForm(base, max, k - 1);
      Doubles(base, k);
      BackoffBounded(base, max, k - 1);
      PositiveStep(BackoffAt(base, max, k - 1), max);
    }
  }

  /** For an even cap the closed form is the capped power; for an odd one it is at most one more. */
  lemma CappedDoubling(base: int, max: int, k: nat)
    requires 0 < base <= max <= MAX_INT64
    ensures var capped := Min(base * Pow2(k), max);
            && (max % 2 == 0 ==> BackoffAt(base, max, k) == capped)
            && capped <= BackoffAt(base, max, k) <= capped + 1
  {
    hide BackoffAt, Pow2;
    BackoffClosedForm(base, max, k);
    if k > 0 {
      Doubles(base, k);
    }
  }

  lemma Doubles(base: int, k: nat)
    requires k > 0
    ensures base * Pow2(k) == 2 * (base * Pow2(k - 1)) && (base * Pow2(k)) % 2 == 0
  {
    assert base * (2 * Pow2(k - 1)) == 2 * (base * Pow2(k - 1));
  }

  /** The delay stays between base and cap and never shrinks; every wait is at most the cap. */
  lemma {:induction false} BackoffBounded(base: int, max: int, k: nat)
    requires 0 < base <= max <= MAX_INT64
    ensures base <= BackoffAt(base, max, k) <= BackoffAt(base, max, k + 1) <= max
    ensures forall draw :: draw >= 0 ==> 0 <= Jitter(draw, max) <= max
    decreases k
  {
    hide NextBackoff;
    if k > 0 {
      BackoffBounded(base, max, k - 1);
    }
    PositiveStep(BackoffAt(base, max, k), max);
  }

  lemma {:induction false} BackoffGrows(base: int, max: int, j: nat, k: nat)
    requires 0 < base <= max <= MAX_INT64 && j <= k
    ensures BackoffAt(base, max, j) <= BackoffAt(base, max, k)
    decreases k - j
  {
    hide BackoffAt;
    if j < k {
      BackoffBounded(base, max, j);
      BackoffGrows(base, max, j + 1, k);
    }
  }

  lemma {:induction false} Pow2Exceeds(k: nat)
    ensures Pow2(k) > k
    decreases k
  {
    if k > 0 {
      Pow2Exceeds(k - 1);
    }
  }

  /** The cap is reached in the end. */
  lemma ReachesCap(base: int, max: int)
    requires 0 < base <= max <= MAX_INT64
    ensures BackoffAt(base, max, max) == max
  {
    hide BackoffAt, Pow2;
    BackoffClosedForm(base, max, max);
    Pow2Exceeds(max);
    assert (base - 1) * Pow2(max) >= 0;
    assert base * Pow2(max) == (base - 1) * Pow2(max) + Pow2(max);
  }

  /** So far below zero that doubling wraps round to a positive number. */
  predicate WrapsUp(x: int) {
    -2 * HALF_RANGE < x < -HALF_RANGE
  }

  /** A delay can be drawn from when it is positive and its double fits, or negative and its double wraps up. */
  lemma DrawRange(current: int)
    requires InInt64(current)
    ensures CanDraw(current) <==> 0 < current < HALF_RANGE || WrapsUp(current)
  {
    hide Wrap64;
    WrapOf(2 * current);
  }

  /** The first `draws` delays can all be drawn from. */
  predicate AllDrawable(base: int, max: int, draws: int) {
    forall k: nat :: k < draws ==> CanDraw(BackoffAt(base, max, k))
  }

  lemma {:induction false} BackoffShift(base: int, max: int, k: nat)
    ensures BackoffAt(base, max, k + 1) == BackoffAt(NextBackoff(base, max), max, k)
    decreases k
  {
    hide NextBackoff;
    if k > 0 {
      BackoffShift(base, max, k - 1);
    }
  }

  lemma AllDrawableStep(base: int, max: int, draws: int)
    ensures AllDrawable(base, max, draws)
       <==> draws <= 0 || (CanDraw(base) && AllDrawable(NextBackoff(base, max), max, draws - 1))
  {
    hide CanDraw, NextBackoff;
    assert BackoffAt(base, max, 0) == base;
    forall k: nat ensures BackoffAt(base, max, k + 1) == BackoffAt(NextBackoff(base, max), max, k) {
      BackoffShift(base, max, k);
    }
    if AllDrawable(base, max, draws) && draws > 0 {
      assert CanDraw(BackoffAt(base, max, 0));
      forall k: nat | k < draws - 1 ensures CanDraw(BackoffAt(NextBackoff(base, max), max, k)) {
        assert CanDraw(BackoffAt(base, max, k + 1));
      }
    }
    if draws > 0 && CanDraw(base) && AllDrawable(NextBackoff(base, max), max, draws - 1) {
      forall k: nat | k < draws ensures CanDraw(BackoffAt(base, max, k)) {
        if k > 0 {
          assert CanDraw(BackoffAt(NextBackoff(base, max), max, k - 1));
        }
      }
    }
  }

  /** From a positive base the last delay decides. */
  lemma PositiveDrawable(base: int, max: int, draws: int)
    requires 0 < base <= max <= MAX_INT64
    ensures AllDrawable(base, max, draws) <==> draws <= 0 || CappedPower(base, max, draws - 1) < HALF_RANGE
  {
    hide CanDraw, BackoffAt, CappedPower;
    if draws > 0 {
      BackoffClosedForm(base, max, draws - 1);
      BackoffBounded(base, max, draws - 1);
      DrawRange(BackoffAt(base, max, draws - 1));
      forall k: nat | k < draws
        ensures CanDraw(BackoffAt(base, max, k)) <== CappedPower(base, max, draws - 1) < HALF_RANGE
      {
        BackoffGrows(base, max, k, draws - 1);
        BackoffBounded(base, max, k);
        DrawRange(BackoffAt(base, max, k));
      }
    }
  }

  /** A delay above the cap is followed by the cap. */
  lemma AboveCapStep(current: int, max: int)
    requires 0 < current && max < current
    ensures NextBackoff(current, max) == max
  {
  }

  lemma NegativeCapStep(max: int)
    requires -MAX_INT64 - 1 <= max < 0
    ensures NextBackoff(max, max) == Wrap64(2 * max)
    ensures WrapsUp(max) ==> NextBackoff(max, max) == 2 * max + 4 * HALF_RANGE
  {
    hide Wrap64;
    WrapOf(2 * max);
  }

  /** Below a negative cap the delay goes back and forth between the cap and what doubling it wraps round to. */
  lemma {:induction false} NegativeCapDrawable(max: int, draws: int)
    requires InInt64(max) && max <= 0
    ensures AllDrawable(max, max, draws)
       <==> draws <= 0 || (WrapsUp(max) && (draws == 1 || 2 * max + 4 * HALF_RANGE < HALF_RANGE))
    decreases draws
  {
    hide CanDraw, BackoffAt, AllDrawable, NextBackoff, Wrap64;
    AllDrawableStep(max, max, draws);
    DrawRange(max);
    if draws > 0 && WrapsUp(max) {
      NegativeCapStep(max);
      var up := 2 * max + 4 * HALF_RANGE;
      AllDrawableStep(up, max, draws - 1);
      DrawRange(up);
      AboveCapStep(up, max);
      if draws > 2 {
        NegativeCapDrawable(max, draws - 2);
      } else if draws == 2 {
        AllDrawableStep(max, max, 0);
      }
    }
  }

  /** From above the cap: the delay itself, and from then on the cap. */
  lemma AboveCapDrawable(current: int, max: int, draws: int)
    requires 0 < current <= MAX_INT64 && InInt64(max) && max < current
    ensures AllDrawable(current, max, draws)
       <==> (draws <= 0
             || (current < HALF_RANGE
                 && (draws == 1 || max > 0
                     || (WrapsUp(max) && (draws == 2 || 2 * max + 4 * HALF_RANGE < HALF_RANGE)))))
  {
    hide CanDraw, BackoffAt, AllDrawable, NextBackoff, Pow2;
    AllDrawableStep(current, max, draws);
    DrawRange(current);
    AboveCapStep(current, max);
    if max > 0 {
      PositiveDrawable(max, max, draws - 1);
    } else {
      NegativeCapDrawable(max, draws - 1);
    }
  }

  /**
    When a loop of `draws` draws never panics, for every base and cap that validation lets
    through. A base that is not positive must wrap up when doubled, and what it wraps up to must
    in turn last as long as the loop does.
   */
  predicate StaysDrawable(base: int, max: int, draws: int) {
    || draws <= 0
    || (0 < base && CappedPower(base, max, draws - 1) < HALF_RANGE)
    || (WrapsUp(base) && (draws == 1 ||
        var up := 2 * base + 4 * HALF_RANGE;
        if up <= max then CappedPower(up, max, draws - 2) < HALF_RANGE
        else up < HALF_RANGE
             && (draws == 2 || max > 0 || (WrapsUp(max) && (draws == 3 || 2 * max + 4 * HALF_RANGE < HALF_RANGE)))))
  }

  lemma NegativeStep(base: int, max: int)
    requires InInt64(max) && base <= max && WrapsUp(base)
    ensures NextBackoff(base, max) == 2 * base + 4 * HALF_RANGE
  {
    hide Wrap64;
    WrapOf(2 * base);
  }

  lemma AllDrawableIff(base: int, max: int, draws: int)
    requires InInt64(base) && InInt64(max) && base <= max
    ensures AllDrawable(base, max, draws) <==> StaysDrawable(base, max, draws)
  {
    hide CanDraw, BackoffAt, AllDrawable, NextBackoff, CappedPower;
    if base > 0 {
      PositiveDrawable(base, max, draws);
    } else {
      AllDrawableStep(base, max, draws);
      DrawRange(base);
      if draws > 0 && WrapsUp(base) {
        NegativeStep(base, max);
        var up := 2 * base + 4 * HALF_RANGE;
        if up <= max {
          PositiveDrawable(up, max, draws - 1);
        } else {
          AboveCapDrawable(up, max, draws - 1);
        }
      }
    }
  }

  /** With a positive base and no limit on the attempts, every draw is in range iff twice the cap fits in 64 bits. */
  lemma DrawsSafeIff(base: int, max: int)
    requires 0 < base <= max <= MAX_INT64
    ensures (forall k: nat :: CanDraw(BackoffAt(base, max, k))) <==> 2 * max <= MAX_INT64
  {
    hide CanDraw;
    if 2 * max <= MAX_INT64 {
      forall k: nat ensures CanDraw(BackoffAt(base, max, k)) {
        BackoffBounded(base, max, k);
        DrawRange(BackoffAt(base, max, k));
      }
    } else {
      ReachesCap(base, max);
      DrawRange(max);
    }
  }
}
