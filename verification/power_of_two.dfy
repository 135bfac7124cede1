/** `make_power_2` of src/renderer.rs: round a `u32` up to a power of two
    by doubling from 1, as needed for a mipmapped texture. */
module PowerOfTwo {
  import opened Results

  /** Largest value of a Rust `u32`. */
  const U32_MAX: int := 0xFFFF_FFFF

  /** Largest power of two a `u32` holds: doubling it overflows. */
  const U32_TOP_POWER: int := 0x8000_0000

  /** A Rust `u32`. */
  type U32 = x: int | 0 <= x <= U32_MAX

  /** `n` is 2^k for some k >= 0. */
  predicate IsPowerOf2(n: int)
    decreases n
  {
    n == 1 || (n >= 2 && n % 2 == 0 && IsPowerOf2(n / 2))
  }

  /** 2^k, as an independent description of the powers of two. */
  function Pow2(k: nat): nat
  {
    if k == 0 then 1 else 2 * Pow2(k - 1)
  }

  lemma {:induction false} Pow2Add(a: nat, b: nat)
    ensures Pow2(a + b) == Pow2(a) * Pow2(b)
  {
    if a > 0 {
      Pow2Add(a - 1, b);
    }
  }

  /** Every 2^k satisfies `IsPowerOf2`. */
  lemma {:induction false} Pow2IsPowerOf2(k: nat)
    ensures IsPowerOf2(Pow2(k))
  {
    if k > 0 {
      Pow2IsPowerOf2(k - 1);
      assert Pow2(k) / 2 == Pow2(k - 1);
    }
  }

  /** Between two distinct powers of two there is at least a factor of two. */
  lemma {:induction false} PowersOfTwoSpaced(p: int, q: int)
    requires IsPowerOf2(p) && IsPowerOf2(q) && p < q
    ensures 2 * p <= q
    decreases q
  {
    if p != 1 {
      PowersOfTwoSpaced(p / 2, q / 2);
    }
  }

  lemma TopPowerIsPowerOf2()
    ensures IsPowerOf2(U32_TOP_POWER)
  {
    assert Pow2(1) == 2;
    Pow2Add(1, 1);
    Pow2Add(2, 2);
    Pow2Add(4, 4);
    Pow2Add(8, 8);
    Pow2Add(16, 8);
    Pow2Add(24, 4);
    Pow2Add(28, 2);
    Pow2Add(30, 1);
    Pow2IsPowerOf2(31);
  }

  /** No power of two lies strictly between 2^31 and `u32::MAX`. */
  lemma PowerOfTwoInU32(p: int)
    requires IsPowerOf2(p) && p <= U32_MAX
    ensures p <= U32_TOP_POWER
  {
    if p > U32_TOP_POWER {
      TopPowerIsPowerOf2();
      PowersOfTwoSpaced(U32_TOP_POWER, p);
    }
  }

  /** The loop `while p < v { p = p * 2 }` started from a power of two `p`.
      `p * 2` on a `u32` panics when it overflows; that panic is `None`. */
  function Doubling(p: U32, v: U32): (r: Option<U32>)
    requires IsPowerOf2(p)
    ensures r.Some? <==> p >= v || v <= U32_TOP_POWER
    ensures r.Some? ==> IsPowerOf2(r.value) && p <= r.value && v <= r.value
    ensures r.Some? ==> r.value == p || r.value / 2 < v
    decreases if p < v then v - p else 0
  {
    if p < v then
      if p * 2 > U32_MAX then
        PowerOfTwoInU32(p);
        None
      else
        PowerOfTwoInU32(p * 2);
        Doubling(p * 2, v)
    else
      Some(p)
  }

  /** `make_power_2(v)`: the least power of two that is at least `v`, or
      `None` where the doubling overflows a `u32` (that is, `v > 2^31`). */
  function MakePower2(v: U32): (r: Option<U32>)
    ensures r.Some? <==> v <= U32_TOP_POWER
    ensures r.Some? ==> IsPowerOf2(r.value) && v <= r.value <= U32_TOP_POWER
    ensures r.Some? ==> r.value == 1 || r.value / 2 < v
  {
    var r := Doubling(1, v);
    if r.Some? then PowerOfTwoInU32(r.value); r else r
  }

  /** Zero and one both round to 1. */
  lemma MakePower2OfZeroAndOne()
    ensures MakePower2(0) == Some(1)
    ensures MakePower2(1) == Some(1)
  {
  }

  /** `make_power_2(v)` lies below every power of two that is at least `v`. */
  lemma MakePower2Least(v: U32, q: int)
    requires v <= U32_TOP_POWER
    requires IsPowerOf2(q) && v <= q
    ensures MakePower2(v).value <= q
  {
    var r := MakePower2(v).value;
    if r != 1 && r > q {
      assert IsPowerOf2(r / 2);
      PowersOfTwoSpaced(q, r);
    }
  }

  /** The power of two that is at least `v` and whose half is below `v` is
      unique, and when it fits a `u32` it is what `make_power_2` returns. */
  lemma MakePower2Unique(v: U32, q: int)
    requires IsPowerOf2(q) && v <= q <= U32_MAX
    requires q == 1 || q / 2 < v
    ensures MakePower2(v) == Some(q)
  {
    PowerOfTwoInU32(q);
    MakePower2Least(v, q);
    var r := MakePower2(v).value;
    if r < q {
      assert IsPowerOf2(q / 2);
      PowersOfTwoSpaced(r, q);
    }
  }

  /** A power of two that fits a `u32` is left unchanged. */
  lemma MakePower2FixesPowers(p: U32)
    requires IsPowerOf2(p)
    ensures MakePower2(p) == Some(p)
  {
    MakePower2Unique(p, p);
  }

  /** Rounding twice is rounding once. */
  lemma MakePower2Idempotent(v: U32)
    requires v <= U32_TOP_POWER
    ensures MakePower2(MakePower2(v).value) == MakePower2(v)
  {
    MakePower2FixesPowers(MakePower2(v).value);
  }
}
