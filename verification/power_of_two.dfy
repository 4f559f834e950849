/** Rounding a texture dimension up to a power of two (align_on_power_of_2). */
module PowerOfTwo {

  /** The range of a C `unsigned int`. */
  type uint32 = x: int | 0 <= x < 0x1_0000_0000

  /** 2^k: the value of `1 << k` for k < 32. */
  function Pow2(k: nat): (p: nat)
    ensures p >= 1
  {
    if k == 0 then 1 else 2 * Pow2(k - 1)
  }

  /** c is one of the 32 powers of two an `unsigned int` can hold. */
  ghost predicate IsPowerOfTwo(c: int) {
    exists k: nat :: k < 32 && Pow2(k) == c
  }

  lemma {:induction false} Pow2Monotone(j: nat, k: nat)
    requires j <= k
    ensures Pow2(j) <= Pow2(k)
    decreases k - j
  {
    if j < k {
      Pow2Monotone(j, k - 1);
    }
  }

  lemma {:induction false} Pow2Add(j: nat, k: nat)
    ensures Pow2(j + k) == Pow2(j) * Pow2(k)
  {
    if j > 0 {
      Pow2Add(j - 1, k);
    }
  }

  lemma {:induction false} Pow2Top()
    ensures Pow2(31) == 0x8000_0000
  {
    assert Pow2(4) == 16;
    Pow2Add(4, 4);
    Pow2Add(8, 8);
    Pow2Add(16, 8);
    Pow2Add(24, 4);
    Pow2Add(28, 3);
  }

  /** The scan of the source loop from exponent i on: the first 2^k (k >= i) that is
      at least value, or 0 once all 32 exponents are exhausted. */
  function AlignFrom(value: int, i: nat): (r: nat)
    requires i <= 32
    ensures r != 0 ==> value <= r
    decreases 32 - i
  {
    if i == 32 then 0
    else if value <= Pow2(i) then Pow2(i)
    else AlignFrom(value, i + 1)
  }

  /** What align_on_power_of_2 returns: 0 when the scan runs out, otherwise a value
      at least as large as its argument (which power of two it is, is the subject of
      the lemmas below); an empty size is padded to 1. */
  function Aligned(value: uint32): (r: nat)
    ensures r != 0 ==> value <= r
    ensures value == 0 ==> r == 1
  {
    AlignFrom(value, 0)
  }

  /** align_on_power_of_2: the ascending scan over 1 << i with an early return. */
  method AlignOnPowerOf2(value: uint32) returns (c: uint32)
    ensures c == Aligned(value)
  {
    for i := 0 to 32
      invariant AlignFrom(value, i) == Aligned(value)
    {
      Pow2Monotone(i, 31);
      Pow2Top();
      var p := Pow2(i);
      if value <= p {
        return p;
      }
    }
    return 0;
  }

  /** k is the exponent the scan stops at for value: the first power at least value. */
  ghost predicate IsAlignExponent(value: int, k: nat) {
    k < 32 && value <= Pow2(k) && (k == 0 || Pow2(k - 1) < value)
  }

  /** The scan from exponent i, entered with every smaller power below value, stops at
      the exponent of value, or runs out and yields 0 when value exceeds 2^31. */
  lemma {:induction false} AlignFromScan(value: int, i: nat) returns (k: nat)
    requires i <= 32
    requires i == 0 || Pow2(i - 1) < value
    ensures value <= Pow2(31) ==> i <= k && IsAlignExponent(value, k) && AlignFrom(value, i) == Pow2(k)
    ensures value > Pow2(31) ==> AlignFrom(value, i) == 0
    decreases 32 - i
  {
    if i == 32 {
      k := 0;
    } else if value <= Pow2(i) {
      Pow2Monotone(i, 31);
      k := i;
    } else {
      k := AlignFromScan(value, i + 1);
    }
  }

  /** Two exponents of the same value coincide. */
  lemma {:induction false} AlignExponentUnique(value: int, k1: nat, k2: nat)
    requires IsAlignExponent(value, k1) && IsAlignExponent(value, k2)
    ensures k1 == k2
  {
    if k1 < k2 {
      Pow2Monotone(k1, k2 - 1);
    } else if k2 < k1 {
      Pow2Monotone(k2, k1 - 1);
    }
  }

  /** For every value up to 2^31 the result is the power of two 2^k with
      2^(k-1) < value <= 2^k; above 2^31 no power fits and the result is 0. */
  lemma {:induction false} AlignedCharacterization(value: uint32)
    ensures value <= Pow2(31) ==> exists k: nat :: IsAlignExponent(value, k) && Aligned(value) == Pow2(k)
    ensures value > Pow2(31) ==> Aligned(value) == 0
  {
    var k := AlignFromScan(value, 0);
  }

  /** Up to 2^31, the result is at least value and less than twice value. */
  lemma {:induction false} AlignedBounds(value: uint32)
    requires 0 < value <= Pow2(31)
    ensures value <= Aligned(value) < 2 * value
    ensures Aligned(value) <= Pow2(31)
  {
    var k := AlignFromScan(value, 0);
    Pow2Monotone(k, 31);
  }

  /** Up to 2^31, the result is one of the powers of two. */
  lemma {:induction false} AlignedIsPowerOfTwo(value: uint32)
    requires value <= Pow2(31)
    ensures IsPowerOfTwo(Aligned(value))
  {
    var k := AlignFromScan(value, 0);
    assert k < 32 && Pow2(k) == Aligned(value);
  }

  /** Up to 2^31, no power of two at least value is smaller than the result. */
  lemma {:induction false} AlignedIsMinimal(value: uint32, m: nat)
    requires value <= Pow2(31)
    requires m < 32 && value <= Pow2(m)
    ensures Aligned(value) <= Pow2(m)
  {
    var k := AlignFromScan(value, 0);
    ExponentIsLeast(value, k, m);
  }

  /** The exponent the scan stops at is no larger than that of any power at least value. */
  lemma {:induction false} ExponentIsLeast(value: int, k: nat, m: nat)
    requires IsAlignExponent(value, k) && value <= Pow2(m)
    ensures Pow2(k) <= Pow2(m)
  {
    if m < k {
      Pow2Monotone(m, k - 1);
    } else {
      Pow2Monotone(k, m);
    }
  }

  /** The result is the smallest power of two that is at least value, and less than
      twice value; 0 maps to 1, and anything above 2^31 maps to 0. */
  lemma {:induction false} AlignedIsSmallestPower(value: uint32)
    ensures 0 < value <= Pow2(31) ==>
      IsPowerOfTwo(Aligned(value)) && value <= Aligned(value) < 2 * value
    ensures value <= Pow2(31) ==>
      forall m: nat :: m < 32 && value <= Pow2(m) ==> Aligned(value) <= Pow2(m)
    ensures value == 0 ==> Aligned(value) == 1
    ensures value > Pow2(31) ==> Aligned(value) == 0
  {
    var k := AlignFromScan(value, 0);
    if value <= Pow2(31) {
      AlignedIsPowerOfTwo(value);
      if value > 0 {
        AlignedBounds(value);
      }
      forall m: nat | m < 32 && value <= Pow2(m)
        ensures Aligned(value) <= Pow2(m)
      {
        AlignedIsMinimal(value, m);
      }
    }
  }

  /** A value strictly above 2^(k-1) and at most 2^k is padded to exactly 2^k. */
  lemma {:induction false} AlignedInWindow(value: uint32, k: nat)
    requires IsAlignExponent(value, k)
    ensures Aligned(value) == Pow2(k)
  {
    Pow2Monotone(k, 31);
    var k' := AlignFromScan(value, 0);
    AlignExponentUnique(value, k, k');
  }

  /** Every power of two an `unsigned int` holds is left as it is. */
  lemma {:induction false} AlignedOfPowerOfTwo(k: nat)
    requires k < 32
    ensures Pow2(k) < 0x1_0000_0000 && Aligned(Pow2(k)) == Pow2(k)
  {
    Pow2Monotone(k, 31);
    Pow2Top();
    AlignedInWindow(Pow2(k), k);
  }

  /** Padding a padded size again changes nothing (for values up to 2^31; above that
      the first call yields 0 and the second 1). */
  lemma {:induction false} AlignedIdempotent(value: uint32)
    requires value <= Pow2(31)
    ensures Aligned(value) < 0x1_0000_0000 && Aligned(Aligned(value)) == Aligned(value)
  {
    var k := AlignFromScan(value, 0);
    AlignedOfPowerOfTwo(k);
  }

  /** Above 2^31 the padding is not idempotent: 0 is padded to 1. */
  lemma {:induction false} AlignedNotIdempotentAboveRange()
    ensures Aligned(0x8000_0001) == 0 && Aligned(0) == 1
  {
    Pow2Top();
    var k := AlignFromScan(0x8000_0001, 0);
    AlignedInWindow(0, 0);
  }

  /** The values the renderer pads: 1920 and 1080 both become 2048. */
  lemma {:induction false} AlignedExamples()
    ensures Aligned(1920) == 2048 && Aligned(1080) == 2048
    ensures Aligned(1) == 1 && Aligned(2) == 2
  {
    assert Pow2(10) == 1024 && Pow2(11) == 2048;
    AlignedInWindow(1920, 11);
    AlignedInWindow(1080, 11);
    AlignedInWindow(1, 0);
    AlignedInWindow(2, 1);
  }

  /** The conversion of an `unsigned int` to a 32-bit two's-complement `int`, as when
      the padded size is stored in `int gl_width`: the one int in [-2^31, 2^31) with
      the same low 32 bits. */
  function UnsignedToInt(u: nat): (i: int)
    ensures -0x8000_0000 <= i < 0x8000_0000
    ensures (u - i) % 0x1_0000_0000 == 0
    ensures u < 0x8000_0000 ==> i == u
  {
    (u + 0x8000_0000) % 0x1_0000_0000 - 0x8000_0000
  }

  /** Stored in a signed int the padded size keeps its value up to 2^30; for
      2^30 < value <= 2^31 the padded 2^31 becomes INT_MIN. */
  lemma {:induction false} PaddedSizeAsInt(value: uint32)
    requires value <= Pow2(31)
    ensures value <= Pow2(30) ==> UnsignedToInt(Aligned(value)) == Aligned(value)
    ensures Pow2(30) < value ==> UnsignedToInt(Aligned(value)) == -0x8000_0000
  {
    Pow2Top();
    var k := AlignFromScan(value, 0);
    if value <= Pow2(30) {
      Pow2Monotone(k, 30);
    } else {
      if k < 31 {
        Pow2Monotone(k, 30);
      }
      assert k == 31;
    }
  }
}
