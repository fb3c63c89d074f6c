// internal/backoff/backoff.go: exponential delays computed in wrapping int64 arithmetic.
//
// Durations are integer nanoseconds. The class keeps the two bounds and the attempt counter of the
// source; the ghost field `calls` counts calls of Next since New or Reset, so that the n-th delay
// can be compared with min(max, min * 2^n) over the unbounded integers.
module Backoff {

  const TWO63: int := 0x8000_0000_0000_0000
  const TWO64: int := 0x1_0000_0000_0000_0000
  const MAX_INT64: int := TWO63 - 1
  const MILLISECOND: int := 1_000_000

  function Pow2(n: nat): (r: int)
    ensures r >= 1
  {
    if n == 0 then 1 else 2 * Pow2(n - 1)
  }

  // Two's complement: the int64 value congruent to x modulo 2^64.
  function Wrap64(x: int): (r: int)
    ensures -TWO63 <= r < TWO63
  {
    (x + TWO63) % TWO64 - TWO63
  }

  // Go's x << n on an int64: multiply and keep the low 64 bits.
  function Shl64(x: int, n: nat): int {
    Wrap64(x * Pow2(n))
  }

  // The delay before jitter that the n-th call ought to use.
  function Base(min: int, max: int, n: nat): int {
    if min * Pow2(n) <= max then min * Pow2(n) else max
  }

  // rand.Int64N(n): some value in [0, n), picked by an arbitrary seed.
  function Int64N(seed: nat, n: int): (r: int)
    requires n > 0
    ensures 0 <= r < n
  {
    seed % n
  }

  // Line 37-38: d + (rand.Int64N(d/2+1) - d/4), in int64.
  function Jittered(d: int, seed: nat): int
    requires d >= 1
  {
    Wrap64(d + (Int64N(seed, d / 2 + 1) - d / 4))
  }

  // The condition under which no jitter can overflow.
  predicate Roomy(d: int) {
    d + d / 2 - d / 4 <= MAX_INT64
  }

  lemma WrapIdentity(x: int)
    requires -TWO63 <= x < TWO63
    ensures Wrap64(x) == x
  {
    assert 0 <= x + TWO63 < TWO64;
  }

  // The shift is never a wrong positive: as long as the previous power was within max, the wrapped
  // product is either the exact product or is rejected by `d > b.max || d <= 0`.
  lemma ShiftNeverWrong(min: int, max: int, a: nat)
    requires 0 < min <= max <= MAX_INT64
    requires a > 0 ==> min * Pow2(a - 1) <= max
    ensures min * Pow2(a) <= max ==> Shl64(min, a) == min * Pow2(a) > 0
    ensures min * Pow2(a) > max ==> Shl64(min, a) > max || Shl64(min, a) < 0
  {
    var x := min * Pow2(a);
    if a > 0 {
      assert x == 2 * (min * Pow2(a - 1));
    }
    assert 0 < x < TWO64;
    if x < TWO63 {
      WrapIdentity(x);
    } else {
      assert (x + TWO63) % TWO64 == x + TWO63 - TWO64;
    }
  }

  // Once a power exceeds max, every later one does.
  lemma {:induction false} CapIsFinal(min: int, max: int, a: nat, n: nat)
    requires min > 0 && a <= n && min * Pow2(a) > max
    ensures min * Pow2(n) > max
    ensures Base(min, max, n) == max
  {
    if a < n {
      CapIsFinal(min, max, a, n - 1);
      assert min * Pow2(n) == 2 * (min * Pow2(n - 1));
      assert min * Pow2(n - 1) >= 0;
    }
  }

  // The counter stays far below the shift width: a power within max has an exponent under 63.
  lemma CounterBounded(min: int, max: int, a: nat)
    requires 0 < min <= max <= MAX_INT64 && a > 0 && min * Pow2(a - 1) <= max
    ensures a <= 63
  {
    ScaledAtLeast(min, Pow2(a - 1));
    if a >= 64 {
      LargePower(a - 1);
    }
  }

  lemma ScaledAtLeast(m: int, p: int)
    requires m >= 1 && p >= 0
    ensures m * p >= p
  {
  }

  lemma {:induction false} LargePower(n: nat)
    requires n >= 63
    ensures Pow2(n) >= TWO63
  {
    if n > 63 {
      LargePower(n - 1);
    } else {
      Pow2Byte(n - 63); Pow2Byte(n - 55); Pow2Byte(n - 47); Pow2Byte(n - 39);
      Pow2Byte(n - 31); Pow2Byte(n - 23); Pow2Byte(n - 15); Pow2Byte(n - 7);
    }
  }

  lemma Pow2Byte(k: nat)
    ensures Pow2(k + 8) == 256 * Pow2(k)
    ensures Pow2(k + 7) == 128 * Pow2(k)
  {
    assert Pow2(k + 2) == 4 * Pow2(k);
    assert Pow2(k + 4) == 4 * Pow2(k + 2);
    assert Pow2(k + 6) == 4 * Pow2(k + 4);
    assert Pow2(k + 8) == 4 * Pow2(k + 6);
  }

  lemma JitterIs(d: int, seed: nat)
    requires d >= 1 && Roomy(d)
    ensures Jittered(d, seed) == d + Int64N(seed, d / 2 + 1) - d / 4
    ensures Int64N(seed, d / 2 + 1) <= d / 2
  {
    WrapIdentity(d + (Int64N(seed, d / 2 + 1) - d / 4));
  }

  // j is the random draw of a base 4 * q + m.
  lemma QuarterOf(q: nat, m: int, j: int)
    requires 0 <= m < 4 && 0 <= j <= 2 * q + m / 2 && 4 * q + m >= 1
    ensures var d, r := 4 * q + m, 4 * q + m + j - q;
            d / 2 == 2 * q + m / 2 && d / 4 == q && d % 4 == m && 1 <= r && 3 * d <= 4 * r <= 5 * d + 2
            && (m < 2 ==> 4 * r <= 5 * d)
  {
  }

  lemma JitterShape(d: int, seed: nat)
    requires d >= 1 && Roomy(d)
    ensures var r := Jittered(d, seed); 1 <= r && 3 * d <= 4 * r <= 5 * d + 2 && (d % 4 < 2 ==> 4 * r <= 5 * d)
  {
    JitterIs(d, seed);
    QuarterOf(d / 4, d % 4, Int64N(seed, d / 2 + 1));
  }

  // The jittered delay lies within a quarter of d, up to rounding, and is never zero.
  lemma JitterBounds(d: int, seed: nat)
    requires d >= 1 && Roomy(d)
    ensures var r := Jittered(d, seed); 1 <= r && 3 * d <= 4 * r <= 5 * d + 2
  {
    JitterShape(d, seed);
  }

  // The documented quarter is kept by every draw exactly when d mod 4 is 0 or 1 ...
  lemma JitterWithinQuarterIff(d: int)
    requires d >= 1 && Roomy(d)
    ensures (forall seed: nat :: WithinQuarter(d, Jittered(d, seed))) <==> d % 4 < 2
  {
    if d % 4 < 2 {
      forall seed: nat ensures WithinQuarter(d, Jittered(d, seed)) {
        QuarterKept(d, seed);
      }
    } else {
      QuarterExceeded(d);
    }
  }

  lemma QuarterKept(d: int, seed: nat)
    requires d >= 1 && Roomy(d) && d % 4 < 2
    ensures WithinQuarter(d, Jittered(d, seed))
  {
    JitterShape(d, seed);
  }

  lemma QuarterExceeded(d: int)
    requires d >= 1 && Roomy(d) && d % 4 >= 2
    ensures !WithinQuarter(d, Jittered(d, d / 2))
  {
    LargestJitter(d);
  }

  predicate WithinQuarter(d: int, r: int) {
    3 * d <= 4 * r <= 5 * d
  }

  lemma LargestJitter(d: int)
    requires d >= 1 && Roomy(d)
    ensures Jittered(d, d / 2) == d + d / 2 - d / 4
  {
    SmallMod(d / 2, d / 2 + 1);
    JitterIs(d, d / 2);
  }

  // ... so a base of 2 ns can become 3 ns.
  lemma HalfJitter()
    ensures Jittered(2, 1) == 3
  {
    LargestJitter(2);
  }

  // Roomy is exactly the condition for a positive delay: without it some seed yields a negative one.
  lemma JitterPositiveIffRoomy(d: int)
    requires 1 <= d <= MAX_INT64
    ensures (forall seed: nat :: Jittered(d, seed) >= 1) <==> Roomy(d)
  {
    if Roomy(d) {
      forall seed: nat
        ensures Jittered(d, seed) >= 1
      {
        JitterBounds(d, seed);
      }
    } else {
      OverflowSeed(d);
    }
  }

  lemma OverflowSeed(d: int)
    requires 1 <= d <= MAX_INT64 && !Roomy(d)
    ensures Jittered(d, d / 2) < 0
  {
    SmallMod(d / 2, d / 2 + 1);
    var x := d + (d / 2 - d / 4);
    assert TWO63 <= x < TWO64;
    assert (x + TWO63) % TWO64 == x + TWO63 - TWO64;
  }

  lemma SmallMod(x: nat, n: int)
    requires x < n
    ensures Int64N(x, n) == x
  {
  }

  // The base never leaves [min, max].
  lemma BaseRange(min: int, max: int, n: nat)
    requires 0 < min <= max
    ensures min <= Base(min, max, n) <= max
  {
    assert min * Pow2(n) >= min;
  }

  class Backoff {
    var min: int
    var max: int
    var attempt: int
    ghost var calls: nat

    ghost predicate Valid()
      reads this
    {
      && 0 < min <= max <= MAX_INT64
      && 0 <= attempt <= calls
      && (attempt > 0 ==> min * Pow2(attempt - 1) <= max)
      && (attempt < calls ==> min * Pow2(attempt) > max)
    }

    constructor (min: int, max: int)
      requires min <= MAX_INT64 && max <= MAX_INT64
      ensures Valid() && calls == 0
      ensures this.min == if min <= 0 then MILLISECOND else min
      ensures this.max == if max < this.min then this.min else max
    {
      var lo, hi := min, max;
      if lo <= 0 {
        lo := MILLISECOND;
      }
      if hi < lo {
        hi := lo;
      }
      this.min, this.max, attempt, calls := lo, hi, 0, 0;
    }

    // The n-th call since New or Reset jitters exactly min(max, min * 2^n), for every n.
    method Next(seed: nat) returns (r: int)
      requires Valid()
      modifies `attempt, `calls
      ensures Valid() && calls == old(calls) + 1 && attempt <= 63
      ensures 1 <= Base(min, max, old(calls)) && r == Jittered(Base(min, max, old(calls)), seed)
      ensures Roomy(max) ==> r >= 1
    {
      ShiftNeverWrong(min, max, attempt);
      BaseRange(min, max, calls);
      ghost var n := calls;
      var d := Shl64(min, attempt);
      if d > max || d <= 0 {
        CapIsFinal(min, max, attempt, n);
        d := max;
      } else {
        attempt := attempt + 1;
      }
      calls := calls + 1;
      assert d == Base(min, max, n);
      if attempt > 0 {
        CounterBounded(min, max, attempt);
      }
      r := Jittered(d, seed);
      if Roomy(max) {
        JitterBounds(d, seed);
      }
    }

    method Reset()
      requires Valid()
      modifies `attempt, `calls
      ensures Valid() && calls == 0
    {
      attempt, calls := 0, 0;
    }
  }
}
