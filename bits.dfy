/**
 * The Rust `u64` primitives behind the circuit-size computation:
 * `leading_zeros`, `>>` and `next_power_of_two`, written out on
 * unbounded naturals with the 64-bit width made explicit.
 */
module Bits {
  import opened Results

  const U64_BITS: nat := 64
  const U64_LIMIT: nat := 0x1_0000_0000_0000_0000
  const U64_MAX: nat := 0xFFFF_FFFF_FFFF_FFFF

  type U64 = x: nat | x < U64_LIMIT

  function Pow2(n: nat): (r: nat)
    ensures r >= 1
  {
    if n == 0 then 1 else 2 * Pow2(n - 1)
  }

  lemma {:induction false} Pow2Monotone(m: nat, n: nat)
    requires m <= n
    ensures Pow2(m) <= Pow2(n)
  {
    if m < n {
      Pow2Monotone(m, n - 1);
    }
  }

  lemma {:induction false} Pow2Add(a: nat, b: nat)
    ensures Pow2(a + b) == Pow2(a) * Pow2(b)
  {
    if b > 0 {
      Pow2Add(a, b - 1);
    }
  }

  lemma Pow2Of64()
    ensures Pow2(63) == 0x8000_0000_0000_0000
    ensures Pow2(64) == U64_LIMIT
  {
    Pow2Of32();
    assert Pow2(32) == 2 * Pow2(31);
    Pow2Add(32, 31);
    assert Pow2(63) == 0x1_0000_0000 * 0x8000_0000;
  }

  lemma Pow2Of32()
    ensures Pow2(32) == 0x1_0000_0000
  {
    assert Pow2(4) == 16;
    Pow2Add(4, 4);
    assert Pow2(8) == 256;
    Pow2Add(8, 8);
    assert Pow2(16) == 65536;
    Pow2Add(16, 16);
  }

  /** The number of significant bits of `x`; `64 - x.leading_zeros()` for a `u64`. */
  function BitLength(x: nat): (r: nat)
    ensures x < Pow2(r)
    ensures x > 0 ==> r >= 1 && Pow2(r - 1) <= x
  {
    if x == 0 then 0 else 1 + BitLength(x / 2)
  }

  lemma {:induction false} BitLengthAtMost(x: nat, n: nat)
    requires x < Pow2(n)
    ensures BitLength(x) <= n
  {
    if x > 0 {
      BitLengthAtMost(x / 2, n - 1);
    }
  }

  lemma {:induction false} BitLengthOfPow2(b: nat)
    ensures BitLength(Pow2(b)) == b + 1
  {
    if b > 0 {
      assert Pow2(b) / 2 == Pow2(b - 1);
      BitLengthOfPow2(b - 1);
    }
  }

  /** `u64::leading_zeros`. */
  function LeadingZeros(x: U64): (r: nat)
    ensures r <= U64_BITS
    ensures r == U64_BITS - BitLength(x)
  {
    Pow2Of64();
    BitLengthAtMost(x, 64);
    U64_BITS - BitLength(x)
  }

  /** `x >> s`: `s` halvings, rounding down. */
  function ShiftRight(x: nat, s: nat): nat
  {
    if s == 0 then x else ShiftRight(x / 2, s - 1)
  }

  lemma {:induction false} ShiftRightOnes(n: nat, s: nat)
    requires s <= n
    ensures ShiftRight(Pow2(n) - 1, s) == Pow2(n - s) - 1
  {
    if s > 0 {
      assert (Pow2(n) - 1) / 2 == Pow2(n - 1) - 1;
      ShiftRightOnes(n - 1, s - 1);
    }
  }

  lemma ShiftOfMax(n: U64)
    requires n >= 2
    ensures ShiftRight(U64_MAX, LeadingZeros(n - 1)) == Pow2(BitLength(n - 1)) - 1
  {
    Pow2Of64();
    BitLengthAtMost(n - 1, 64);
    ShiftRightOnes(64, LeadingZeros(n - 1));
  }

  lemma NextPowerFits(n: U64)
    ensures n >= 2 ==> (Pow2(BitLength(n - 1)) < U64_LIMIT <==> n <= Pow2(63))
  {
    Pow2Of64();
    if n < 2 {
      return;
    }
    var b := BitLength(n - 1);
    BitLengthAtMost(n - 1, 64);
    if n - 1 < Pow2(63) {
      BitLengthAtMost(n - 1, 63);
      Pow2Monotone(b, 63);
    } else if b <= 63 {
      Pow2Monotone(b, 63);
    }
  }

  /** `u64::one_less_than_next_power_of_two`: `u64::MAX >> (n - 1).leading_zeros()`, and 0 for `n <= 1`. */
  function OneLessThanNextPowerOfTwo(n: U64): (r: nat)
    ensures n <= 1 ==> r == 0
    ensures n >= 2 ==> r == Pow2(BitLength(n - 1)) - 1
  {
    if n <= 1 then 0
    else
      ShiftOfMax(n);
      ShiftRight(U64_MAX, LeadingZeros(n - 1))
  }

  /**
   * `u64::next_power_of_two`: the smallest power of two at least `n`.
   * Rust panics (debug builds) when that power does not fit in 64 bits;
   * that case is `None`.
   */
  function NextPowerOfTwo(n: U64): (r: Option<U64>)
    ensures r.Some? <==> n <= Pow2(63)
    ensures r.Some? && n <= 1 ==> r.value == 1
    ensures r.Some? && n >= 2 ==> r.value == Pow2(BitLength(n - 1))
  {
    Pow2Of64();
    NextPowerFits(n);
    var m := OneLessThanNextPowerOfTwo(n) + 1;
    if m < U64_LIMIT then Some(m) else None
  }
}
