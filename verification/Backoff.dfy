/**
 The reconnect backoff of capture.go: a 64-bit left shift whose wrapped results the guard
 must catch, compared with the mathematical doubling it stands for. Times are nanoseconds.
 */
module Backoff {
  const INITIAL: int := 500_000_000
  const MAX: int := 5_000_000_000
  const TWO_43: int := 0x800_0000_0000
  const TWO_63: int := 0x8000_0000_0000_0000
  const TWO_64: int := 0x1_0000_0000_0000_0000

  function Pow2(n: nat): (p: int)
    ensures p > 0
  {
    if n == 0 then 1 else 2 * Pow2(n - 1)
  }

  /** x << n on a signed 64-bit integer: the low 64 bits, read as two's complement. */
  function ShiftLeft(x: int, n: nat): int {
    var low := (x * Pow2(n)) % TWO_64;
    if low >= TWO_63 then low - TWO_64 else low
  }

  /** The delay before jitter as the code guards it. */
  function Guarded(n: nat): int {
    var d := ShiftLeft(INITIAL, n);
    if d > MAX || d <= 0 then MAX else d
  }

  /** The delay the guard stands for: doubling from the initial delay, capped. */
  function Ideal(n: nat): int {
    if 500_000_000 * Pow2(n) < 5_000_000_000 then 500_000_000 * Pow2(n) else 5_000_000_000
  }

  lemma {:induction false} Pow2Split(a: nat, b: nat)
    ensures Pow2(a + b) == Pow2(a) * Pow2(b)
  {
    if a > 0 {
      Pow2Split(a - 1, b);
      assert Pow2(a + b) == 2 * Pow2(a - 1 + b);
    }
  }

  lemma {:induction false} Pow2Monotone(a: nat, b: nat)
    requires a <= b
    ensures Pow2(a) <= Pow2(b)
  {
    if a < b {
      Pow2Monotone(a, b - 1);
    }
  }

  lemma Pow2At17()
    ensures Pow2(17) == 0x2_0000
  {
    assert Pow2(4) == 16;
    assert Pow2(8) == 256 by { Pow2Split(4, 4); }
    assert Pow2(16) == 0x1_0000 by { Pow2Split(8, 8); }
  }

  lemma Pow2At35()
    ensures Pow2(35) == 0x8_0000_0000
  {
    Pow2At17();
    assert Pow2(34) == 0x4_0000_0000 by { Pow2Split(17, 17); }
  }

  lemma ModOfMultiple(odd: nat)
    ensures (TWO_43 * odd) % TWO_64 == TWO_43 * (odd % 0x20_0000)
  {
    var q, d := odd % 0x20_0000, odd / 0x20_0000;
    assert TWO_43 * odd == TWO_64 * d + TWO_43 * q;
  }

  /** From 35 doublings on, the 64-bit result is a multiple of 2^43. */
  lemma WrappedIsMultiple(n: nat) returns (q: int)
    requires n >= 35
    ensures 0 <= q < 0x20_0000
    ensures (INITIAL * Pow2(n)) % TWO_64 == TWO_43 * q
  {
    Pow2Split(35, n - 35);
    Pow2At35();
    var odd := 1953125 * Pow2(n - 35);
    assert INITIAL * Pow2(n) == TWO_43 * odd;
    q := odd % 0x20_0000;
    ModOfMultiple(odd);
  }

  /** The guard hides every wrap: the guarded delay is the capped doubling, for every attempt count. */
  lemma GuardedIsIdeal(n: nat)
    ensures Guarded(n) == Ideal(n)
  {
    Pow2At35();
    if n < 35 {
      Pow2Monotone(n, 34);
      assert Pow2(35) == 2 * Pow2(34);
      assert 0 < INITIAL * Pow2(n) < TWO_63;
    } else {
      Pow2Monotone(35, n);
      var q := WrappedIsMultiple(n);
      assert q == 0 || TWO_43 * q > MAX;
    }
  }

  lemma IdealBounds(n: nat)
    ensures INITIAL <= Ideal(n) <= MAX
    ensures Ideal(n) <= Ideal(n + 1)
  {
    Pow2Monotone(0, n);
    assert Pow2(n + 1) == 2 * Pow2(n);
  }

  /** Without a reset, waits never shrink. */
  lemma {:induction false} GuardedIsMonotone(m: nat, n: nat)
    requires m <= n
    ensures 500_000_000 <= Guarded(m) <= Guarded(n) <= 5_000_000_000
  {
    GuardedIsIdeal(m);
    GuardedIsIdeal(n);
    IdealBounds(m);
    if m < n {
      GuardedIsMonotone(m, n - 1);
      GuardedIsIdeal(n - 1);
      IdealBounds(n - 1);
    }
  }
}
