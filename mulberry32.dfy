// The mulberry32 generator of index.mjs: a 32-bit accumulator advanced by a
// fixed odd increment, whose every new value is bit-mixed into a draw in
// [0, 1). JavaScript's `| 0`, `>>> 0` and `Math.imul` all keep the low 32
// bits, so the accumulator and the mixing are written on `bv32`, where +
// and * wrap modulo 2^32.

module Mulberry32 {

  const Increment: bv32 := 0x6D2B79F5

  /** The low `k` bits of `x` in two's complement, built bit by bit. */
  function LowBits(x: int, k: nat): bv32
    decreases k
  {
    if k == 0 then 0
    else (LowBits(x / 2, k - 1) << 1) | (if x % 2 == 0 then 0 else 1)
  }

  /** `seed >>> 0`: the seed reduced modulo 2^32 (ToUint32). */
  function SeedState(seed: int): bv32 {
    LowBits(seed, 32)
  }

  lemma {:induction false} LowBitsOfZero(k: nat)
    ensures LowBits(0, k) == 0
  {
    if k > 0 {
      LowBitsOfZero(k - 1);
    }
  }

  /** One advance of the accumulator (`a = a + 0x6D2B79F5 | 0`); `bv32`
      addition wraps modulo 2^32. */
  function Advance(a: bv32): bv32 {
    a + Increment
  }

  /** The bit-mixing applied to the freshly advanced accumulator: `*` is
      `Math.imul`, `+` wraps as the following `^` truncates, and the second
      round parses as `(t + imul(t ^ t >>> 7, 61 | t)) ^ t`. The result is
      the unsigned value `(t ^ t >>> 14) >>> 0`. */
  function Mix(a: bv32): bv32 {
    var t0 := (a ^ (a >> 15)) * (1 | a);
    var t1 := (t0 + (t0 ^ (t0 >> 7)) * (61 | t0)) ^ t0;
    t1 ^ (t1 >> 14)
  }

  /** `u / 4294967296` for the unsigned value `u`. */
  function ToUnit(u: bv32): (r: real)
    ensures 0.0 <= r < 1.0
    ensures r * 4294967296.0 == (u as int) as real
  {
    (u as int) as real / 4294967296.0
  }

  /** The accumulator after `n` draws from state `a`. */
  function StateAfter(a: bv32, n: nat): bv32 {
    if n == 0 then a else Advance(StateAfter(a, n - 1))
  }

  /** The value of draw number `k` (counting from 0) from state `a`. */
  function DrawAt(a: bv32, k: nat): (r: real)
    ensures 0.0 <= r < 1.0
  {
    ToUnit(Mix(StateAfter(a, k + 1)))
  }

  /** Drawing `m` and then `n` times is drawing `m + n` times. */
  lemma {:induction false} StateAfterAdd(a: bv32, m: nat, n: nat)
    ensures StateAfter(StateAfter(a, m), n) == StateAfter(a, m + n)
  {
    if n > 0 {
      StateAfterAdd(a, m, n - 1);
    }
  }

  /** The first draws from seed 1, as the 32-bit values that are divided
      by 2^32 (the first draw is 0.6270739405881613). */
  lemma FirstDrawSeedOne()
    ensures Mix(StateAfter(SeedState(1), 1)) == 2693262067
  {
    LowBitsOfZero(31);
    assert SeedState(1) == 1;
    assert StateAfter(SeedState(1), 1) == 0x6D2B79F6;
  }

  lemma SecondDrawSeedOne()
    ensures Mix(StateAfter(SeedState(1), 2)) == 11749833
  {
    LowBitsOfZero(31);
    assert SeedState(1) == 1;
    assert StateAfter(SeedState(1), 2) == 0xDA56F3EB;
  }

  /** The first draw from seed 42, the seed of the closed-loop scenario. */
  lemma FirstDrawSeedFortyTwo()
    ensures Mix(StateAfter(SeedState(42), 1)) == 2581720956
  {
    LowBitsOfZero(25);
    assert LowBits(1, 26) == 1;
    assert LowBits(2, 27) == 2;
    assert LowBits(5, 28) == 5;
    assert LowBits(10, 29) == 10;
    assert LowBits(21, 30) == 21;
    assert SeedState(42) == 42;
    assert StateAfter(SeedState(42), 1) == 0x6D2B7A1F;
  }

  /** The closure returned by `mulberry32(seed)`: it owns the accumulator
      and advances it on every call. */
  class Rand {
    var a: bv32

    constructor (seed: int)
      ensures a == SeedState(seed)
    {
      a := SeedState(seed);
    }

    method Next() returns (r: real)
      modifies this
      ensures a == Advance(old(a))
      ensures r == ToUnit(Mix(a)) && 0.0 <= r < 1.0
    {
      a := a + Increment;
      r := ToUnit(Mix(a));
    }
  }
}
