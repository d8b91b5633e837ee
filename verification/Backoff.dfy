/** The retry delay of the outbox drain, in 64-bit nanoseconds (outbox/drain.go). */
module Backoff {
  import opened Basics

  const TWO_64 := 0x1_0000_0000_0000_0000
  const MAX_INT64 := 0x7FFF_FFFF_FFFF_FFFF
  const HALF := MAX_INT64 / 2

  predicate Int64(x: int) { -MAX_INT64 - 1 <= x <= MAX_INT64 }

  /** Two's complement wrap-around. */
  function Wrap64(x: int): (w: int)
    ensures Int64(w)
    ensures Int64(x) ==> w == x
  {
    var m := x % TWO_64;
    if m > MAX_INT64 then m - TWO_64 else m
  }

  /** The doubling loop with n iterations left, then the final cap. */
  function Doubled(delay: int, max: int, n: nat): int
    decreases n
  {
    if n == 0 then (if max > 0 && delay > max then max else delay)
    else
      var next := Wrap64(delay * 2);
      if max > 0 && next > max then max else Doubled(next, max, n - 1)
  }

  /** The delay after `attempts` failures. */
  function Delay(base: int, max: int, attempts: nat): int {
    Doubled(base, max, if attempts <= 1 then 0 else attempts - 1)
  }

  method ComputeDelay(base: int, max: int, attempts: nat) returns (delay: int)
    requires Int64(base) && Int64(max)
    ensures delay == Delay(base, max, attempts)
  {
    delay := base;
    var i := 1;
    while i < attempts
      invariant i >= 1 && (attempts >= 1 ==> i <= attempts)
      invariant Delay(base, max, attempts) == Doubled(delay, max, if attempts <= i then 0 else attempts - i)
      decreases attempts - i
    {
      var next := Wrap64(delay * 2);
      if max > 0 && next > max {
        delay := max;
        return;
      }
      delay := next;
      i := i + 1;
    }
    if max > 0 && delay > max {
      delay := max;
    }
  }

  function Pow2(n: nat): (p: nat)
    ensures p >= 1
  {
    if n == 0 then 1 else 2 * Pow2(n - 1)
  }

  /** The documented delay. */
  function Ideal(base: int, max: int, attempts: nat): int
    requires attempts >= 1
  {
    Min(max, base * Pow2(attempts - 1))
  }

  lemma PowTwice(base: int, n: nat)
    ensures base * Pow2(n + 1) == (base * 2) * Pow2(n)
  {
  }

  lemma AtLeast(base: int, n: nat)
    requires base > 0
    ensures base * Pow2(n) >= base
  {
  }

  // ---------------------------------------------------------------- capped delays

  /** What a caller can check before configuring a cap: doubling the base, no value that the cap still lets
      through is beyond half of the largest duration. */
  predicate Fits(base: int, max: int)
    requires base > 0
    decreases Max(0, max - base)
  {
    base <= HALF && (base * 2 > max || Fits(base * 2, max))
  }

  /** The k-th doubling is let through by the cap and cannot be doubled again. */
  predicate Sticks(base: int, max: int, k: nat) { HALF < base * Pow2(k) <= max }

  /** The check in closed form. */
  lemma {:induction false} FitsMeans(base: int, max: int)
    requires base > 0
    ensures Fits(base, max) <==> base <= HALF && forall k: nat :: !Sticks(base, max, k)
    decreases Max(0, max - base)
  {
    if base <= HALF {
      if base * 2 > max {
        forall k: nat ensures !Sticks(base, max, k) {
          if k > 0 {
            PowTwice(base, k - 1);
            AtLeast(base * 2, k - 1);
          }
        }
      } else {
        FitsMeans(base * 2, max);
        SticksShift(base, max);
      }
    }
  }

  lemma SticksShift(base: int, max: int)
    requires 0 < base <= HALF && base * 2 <= max
    ensures (forall k: nat :: !Sticks(base, max, k)) <==> base * 2 <= HALF && forall k: nat :: !Sticks(base * 2, max, k)
  {
    forall k: nat ensures Sticks(base * 2, max, k) <==> Sticks(base, max, k + 1) {
      PowTwice(base, k);
    }
    if forall k: nat :: !Sticks(base, max, k) {
      assert !Sticks(base, max, 1);
      assert base * Pow2(1) == base * 2;
      forall k: nat ensures !Sticks(base * 2, max, k) {
        assert !Sticks(base, max, k + 1);
      }
    } else {
      var k: nat :| Sticks(base, max, k);
      assert base * Pow2(0) == base;
      assert Sticks(base * 2, max, k - 1);
    }
  }

  lemma {:induction false} FitsDoubles(delay: int, max: int, n: nat)
    requires 0 < delay && 0 < max && Fits(delay, max)
    ensures Doubled(delay, max, n) == Min(max, delay * Pow2(n))
    decreases n
  {
    if n > 0 {
      assert Wrap64(delay * 2) == delay * 2;
      PowTwice(delay, n - 1);
      if delay * 2 > max {
        AtLeast(delay * 2, n - 1);
      } else {
        FitsDoubles(delay * 2, max, n - 1);
      }
    }
  }

  lemma WrapsNegative(delay: int)
    requires HALF < delay <= MAX_INT64
    ensures Wrap64(delay * 2) < 0
  {
    assert (delay * 2) % TWO_64 == delay * 2;
  }

  lemma {:induction false} UnfitOverflows(delay: int, max: int) returns (n: nat)
    requires 0 < delay <= MAX_INT64 && 0 < max <= MAX_INT64 && !Fits(delay, max)
    ensures n > 0 && Doubled(delay, max, n) < 0
    decreases Max(0, max - delay)
  {
    if delay > HALF {
      WrapsNegative(delay);
      n := 1;
      assert Doubled(Wrap64(delay * 2), max, 0) == Wrap64(delay * 2);
    } else {
      var m := UnfitOverflows(delay * 2, max);
      assert Wrap64(delay * 2) == delay * 2;
      n := m + 1;
    }
  }

  predicate IdealAt(base: int, max: int, attempts: nat)
    requires attempts >= 1
  {
    Delay(base, max, attempts) == Ideal(base, max, attempts)
  }

  /** A positive base with a positive cap gets the documented delay after every number of failures exactly when
      it fits; otherwise some number of failures gives a negative delay. */
  lemma DelayIsIdealIff(base: int, max: int)
    requires 0 < base <= MAX_INT64 && 0 < max <= MAX_INT64
    ensures (forall attempts: nat | attempts >= 1 :: IdealAt(base, max, attempts)) <==> Fits(base, max)
    ensures !Fits(base, max) ==> exists attempts: nat | attempts >= 1 :: Delay(base, max, attempts) < 0
  {
    if Fits(base, max) {
      forall attempts: nat | attempts >= 1 ensures IdealAt(base, max, attempts) {
        FitsDoubles(base, max, attempts - 1);
      }
    } else {
      var n := UnfitOverflows(base, max);
      AtLeast(base, n);
      assert Delay(base, max, n + 1) < 0 && !IdealAt(base, max, n + 1);
    }
  }

  /** Settings up to half of the largest duration always fit. */
  lemma DelayIsIdeal(base: int, max: int, attempts: nat)
    requires 0 < base <= HALF && 0 < max <= HALF && attempts >= 1
    ensures Delay(base, max, attempts) == Ideal(base, max, attempts)
  {
    FitsMeans(base, max);
    DelayIsIdealIff(base, max);
    assert IdealAt(base, max, attempts);
  }

  /** A base beyond half never fits, whatever the cap: the second failure already wraps. */
  lemma LargeBaseOverflows(base: int, max: int)
    requires HALF < base <= MAX_INT64 && Int64(max)
    ensures !Fits(base, max) && Delay(base, max, 2) < 0
  {
    WrapsNegative(base);
    assert Delay(base, max, 2) == Doubled(base, max, 1);
    assert Doubled(Wrap64(base * 2), max, 0) == Wrap64(base * 2);
  }

  /** A small base fails too when the cap lets a doubling beyond half through. */
  lemma SmallBaseOverflows()
    ensures var base, max := (HALF + 1) / 2, HALF + 1;
            base < HALF && !Fits(base, max) && Delay(base, max, 3) < 0
  {
    var base, max := (HALF + 1) / 2, HALF + 1;
    assert base * 2 == HALF + 1;
    WrapsNegative(base * 2);
    assert Delay(base, max, 3) == Doubled(base, max, 2) == Doubled(base * 2, max, 1);
    assert Doubled(Wrap64(base * 4), max, 0) == Wrap64(base * 4);
  }

  // ---------------------------------------------------------------- uncapped delays

  lemma {:induction false} UncappedDoubles(delay: int, max: int, n: nat)
    requires 0 < delay && max <= 0 && delay * Pow2(n) <= MAX_INT64
    ensures Doubled(delay, max, n) == delay * Pow2(n)
    decreases n
  {
    if n > 0 {
      PowTwice(delay, n - 1);
      AtLeast(delay * 2, n - 1);
      assert Wrap64(delay * 2) == delay * 2;
      UncappedDoubles(delay * 2, max, n - 1);
    }
  }

  lemma {:induction false} DoubledIsInt64(delay: int, max: int, n: nat)
    requires Int64(delay) && Int64(max)
    ensures Int64(Doubled(delay, max, n))
    decreases n
  {
    if n > 0 {
      DoubledIsInt64(Wrap64(delay * 2), max, n - 1);
    }
  }

  /** Without a cap the delay is base * 2^(attempts-1) exactly as long as that is a 64-bit duration. */
  lemma UncappedIffRepresentable(base: int, max: int, attempts: nat)
    requires 0 < base <= MAX_INT64 && Int64(max) && max <= 0 && attempts >= 1
    ensures Delay(base, max, attempts) == base * Pow2(attempts - 1) <==> base * Pow2(attempts - 1) <= MAX_INT64
  {
    DoubledIsInt64(base, max, attempts - 1);
    if base * Pow2(attempts - 1) <= MAX_INT64 {
      UncappedDoubles(base, max, attempts - 1);
    }
  }

  // ---------------------------------------------------------------- order

  lemma {:induction false} PowMonotone(a: nat, b: nat)
    requires a <= b
    ensures Pow2(a) <= Pow2(b)
    decreases b
  {
    if a < b {
      PowMonotone(a, b - 1);
    }
  }

  lemma MulMonotone(k: int, x: int, y: int)
    requires k > 0 && x <= y
    ensures k * x <= k * y
  {
  }

  /** Under settings that fit, waiting never gets shorter with more failures. */
  lemma DelayMonotone(base: int, max: int, a: nat, b: nat)
    requires 0 < base && 0 < max && Fits(base, max) && 1 <= a <= b
    ensures Delay(base, max, a) <= Delay(base, max, b)
  {
    FitsDoubles(base, max, a - 1);
    FitsDoubles(base, max, b - 1);
    PowMonotone(a - 1, b - 1);
    MulMonotone(base, Pow2(a - 1), Pow2(b - 1));
  }
}
