/**
 * C# numeric semantics used by the random-number code: `uint` is the range
 * [0, 2^32), `int` the 32-bit two's-complement range, arithmetic on `int`
 * wraps around (C# `unchecked`, the default), and the `(uint)` and `(int)`
 * casts between them reinterpret the same 32 bits. The bit operations of the
 * noise function work on `bv32` (see `Bits` and `FromBits`). Of float
 * arithmetic, the conversion of an integer to a 32-bit float and the `(int)`
 * cast of a float are modelled; a float value itself is a `real`.
 */
module Numerics {

  const TwoTo32: int := 0x1_0000_0000
  const TwoTo31: int := 0x8000_0000
  const TwoTo24: int := 0x100_0000
  const TwoTo23: int := 0x80_0000

  newtype Int32 = x: int | -0x8000_0000 <= x < 0x8000_0000
  newtype UInt32 = x: int | 0 <= x < 0x1_0000_0000

  /** `uint.MaxValue`. */
  const UIntMax: UInt32 := 0xFFFF_FFFF

  /** The 32 bits of a `uint`. */
  function Bits(u: UInt32): bv32 {
    u as bv32
  }

  /** The `uint` whose bits are `b`. */
  function FromBits(b: bv32): UInt32 {
    b as int as UInt32
  }

  /** The exact integer `v` reduced into the `int` range, as unchecked C# arithmetic does. */
  function Wrap(v: int): (r: Int32)
    ensures (r as int - v) % TwoTo32 == 0
    ensures -TwoTo31 <= v < TwoTo31 ==> r as int == v
  {
    ((v + TwoTo31) % TwoTo32 - TwoTo31) as Int32
  }

  /** Unchecked `a + b` on ints: the exact sum modulo 2^32, and the sum itself when it fits. */
  function Add(a: Int32, b: Int32): (r: Int32)
    ensures (r as int - (a as int + b as int)) % TwoTo32 == 0
    ensures -TwoTo31 <= a as int + b as int < TwoTo31 ==> r as int == a as int + b as int
  {
    Wrap(a as int + b as int)
  }

  /** Unchecked `a * b` on ints: the exact product modulo 2^32, and the product itself when it fits. */
  function Mul(a: Int32, b: Int32): (r: Int32)
    ensures (r as int - a as int * b as int) % TwoTo32 == 0
    ensures -TwoTo31 <= a as int * b as int < TwoTo31 ==> r as int == a as int * b as int
  {
    Wrap(a as int * b as int)
  }

  /** The cast `(uint)x`: the same bits read as an unsigned number. */
  function ToUInt(x: Int32): (r: UInt32)
    ensures x >= 0 ==> r as int == x as int
    ensures x < 0 ==> r as int == x as int + TwoTo32
  {
    (x as int % TwoTo32) as UInt32
  }

  /** The cast `(int)b`: the same bits read as a two's-complement number. */
  function ToInt(u: UInt32): (r: Int32)
    ensures u as int < TwoTo31 ==> r as int == u as int
    ensures u as int >= TwoTo31 ==> r as int == u as int - TwoTo32
  {
    Wrap(u as int)
  }

  /** Two integers congruent modulo 2^32 wrap to the same `int`. */
  lemma WrapCongruent(u: int, v: int)
    requires (u - v) % TwoTo32 == 0
    ensures Wrap(u) == Wrap(v)
  {
    var q := (u - v) / TwoTo32;
    assert u - v == TwoTo32 * q;
    assert (u + TwoTo31) % TwoTo32 == (v + TwoTo31) % TwoTo32;
  }

  /** Wrapping an intermediate sum or product does not change the wrapped final result. */
  lemma WrapInner(a: int, b: int)
    ensures Wrap(a + Wrap(b) as int) == Wrap(a + b)
  {
    WrapCongruent(a + Wrap(b) as int, a + b);
  }

  /** The bits of a wrapped value are the exact value modulo 2^32. */
  lemma ToUIntOfWrap(v: int)
    ensures ToUInt(Wrap(v)) as int == v % TwoTo32
  {
  }

  /** Reading a `uint` as an `int` and back gives the original bits. */
  lemma ToUIntOfToInt(u: UInt32)
    ensures ToUInt(ToInt(u)) == u
  {
  }

  /** Reading an `int` as a `uint` and back gives the original value. */
  lemma ToIntOfToUInt(x: Int32)
    ensures ToInt(ToUInt(x)) == x
  {
  }

  function Pow2(k: nat): (r: nat)
    ensures r >= 1
  {
    if k == 0 then 1 else 2 * Pow2(k - 1)
  }

  /**
   * The spacing of the 32-bit floats at the integer `u`: a float keeps 24
   * significant bits, so the spacing is 1 below 2^24 and doubles with every
   * further bit. Every `u` is below 2^24 spacings.
   */
  function Ulp(u: nat): (r: nat)
    ensures r >= 1 && u < TwoTo24 * r
  {
    if u < TwoTo24 then 1 else 2 * Ulp(u / 2)
  }

  /** Below 2^24 * 2^k the spacing is at most 2^k. */
  lemma {:induction false} UlpAtMost(u: nat, k: nat)
    requires u < TwoTo24 * Pow2(k)
    ensures Ulp(u) <= Pow2(k)
    decreases k
  {
    if u >= TwoTo24 {
      assert k > 0;
      UlpAtMost(u / 2, k - 1);
    }
  }

  /** From 2^23 * 2^k up to 2^24 * 2^k the spacing is exactly 2^k. */
  lemma {:induction false} UlpExact(u: nat, k: nat)
    requires TwoTo23 * Pow2(k) <= u < TwoTo24 * Pow2(k)
    ensures Ulp(u) == Pow2(k)
    decreases k
  {
    if k > 0 {
      assert u >= TwoTo24;
      UlpExact(u / 2, k - 1);
    }
  }

  lemma MulAtMost(a: nat, b: nat, c: nat)
    requires a <= b
    ensures a * c <= b * c
  {
    assert b * c - a * c == (b - a) * c;
  }

  /** Below 2^24 spacings, the multiple of the spacing under `u` and the next one up are at most 2^24 spacings. */
  lemma SplitBySpacing(u: nat, ulp: nat)
    requires ulp >= 1 && u < TwoTo24 * ulp
    ensures u == (u / ulp) * ulp + u % ulp && 0 <= u % ulp < ulp
    ensures 0 <= (u / ulp) * ulp && (u / ulp) * ulp + ulp <= TwoTo24 * ulp
  {
    var q := u / ulp;
    assert (TwoTo24 - q) * ulp == TwoTo24 * ulp - q * ulp;
    assert q < TwoTo24;
    MulAtMost(q + 1, TwoTo24, ulp);
    assert (q + 1) * ulp == q * ulp + ulp;
  }

  /** The only multiple of a positive `m` in `[0, m)` is 0. */
  lemma SmallMultiple(t: int, m: int)
    requires m >= 1 && 0 <= t * m < m
    ensures t == 0
  {
  }

  /** A multiple `k * m` leaves no remainder by `m`, and its quotient is `k`. */
  lemma MultipleOf(k: nat, m: nat)
    requires m >= 1
    ensures (k * m) % m == 0 && (k * m) / m == k
  {
    var a := k * m;
    var d, e := a / m, a % m;
    assert a == d * m + e;
    assert (k - d) * m == e;
    SmallMultiple(k - d, m);
  }

  /**
   * `u` rounded to a multiple of the spacing `ulp`: the nearer of the
   * multiples below and above it, and of two equally near the even multiple.
   */
  function RoundToSpacing(u: nat, ulp: nat): (r: nat)
    requires ulp >= 1 && u < TwoTo24 * ulp
    ensures r % ulp == 0
    ensures 2 * (r - u) <= ulp && 2 * (u - r) <= ulp
    ensures 2 * (u % ulp) == ulp ==> (r / ulp) % 2 == 0
    ensures r <= TwoTo24 * ulp
  {
    var q, rem := u / ulp, u % ulp;
    SplitBySpacing(u, ulp);
    if 2 * rem > ulp || (2 * rem == ulp && q % 2 == 1) then
      MultipleOf(q + 1, ulp);
      assert q * ulp + ulp == (q + 1) * ulp;
      q * ulp + ulp
    else
      MultipleOf(q, ulp);
      q * ulp
  }

  /**
   * The conversion `(float)u` of a non-negative integer (IEEE 754 round to
   * nearest, ties to even): a float, that is a multiple of the spacing at `u`,
   * at most half a spacing from `u`, so no float is nearer; of two equally near
   * floats, the one whose last significant bit is 0.
   */
  function FloatOf(u: nat): (r: nat)
    ensures u < TwoTo24 ==> r == u
    ensures r % Ulp(u) == 0
    ensures 2 * (r - u) <= Ulp(u) && 2 * (u - r) <= Ulp(u)
    ensures u >= TwoTo24 && 2 * (u % Ulp(u)) == Ulp(u) ==> (r / Ulp(u)) % 2 == 0
    ensures r <= TwoTo24 * Ulp(u)
  {
    if u < TwoTo24 then u else RoundToSpacing(u, Ulp(u))
  }

  /** A `uint` converts to a float of at most 2^32, and to 2^32 itself exactly from `0xFFFFFF80` on. */
  lemma FloatOfUInt(u: UInt32)
    ensures FloatOf(u as int) <= TwoTo32
    ensures FloatOf(u as int) == TwoTo32 <==> u >= 0xFFFF_FF80
  {
    if u as int < TwoTo31 {
      assert Pow2(7) == 128;
      UlpAtMost(u as int, 7);
    } else {
      assert Pow2(8) == 256;
      UlpExact(u as int, 8);
    }
  }

  /** The value `v` rounded toward zero. */
  function Truncate(v: real): (r: int)
    ensures v >= 0.0 ==> r as real <= v < r as real + 1.0
    ensures v < 0.0 ==> r as real - 1.0 < v <= r as real
  {
    if v >= 0.0 then v.Floor else -((-v).Floor)
  }

  /**
   * The `(int)` cast of a float: the value rounded toward zero when that is an
   * `int`. C# leaves the result unspecified otherwise; x86's conversion gives
   * `int.MinValue` there, which is what is modelled.
   */
  function CastToInt(v: real): (r: Int32)
    ensures -TwoTo31 as real - 1.0 < v < TwoTo31 as real ==> r as int == Truncate(v)
    ensures v <= -TwoTo31 as real - 1.0 || v >= TwoTo31 as real ==> r == -0x8000_0000
  {
    var t := Truncate(v);
    if -TwoTo31 <= t < TwoTo31 then t as Int32 else -0x8000_0000
  }
}
