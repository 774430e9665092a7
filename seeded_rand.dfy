/**
 * Rand.cs: a deterministic random-number generator built on the Squirrel3
 * noise function. An instance keeps a seed and a position; every draw replaces
 * the position by the noise at the old position.
 */
module SeededRand {
  import opened Numerics
  import opened Wrappers
  import opened Selection
  import opened Weighting

  /** The 2D and 3D noise functions fold their coordinates into one with these factors. */
  const YFactor: Int32 := 198491317
  const ZFactor: Int32 := 6542989

  /** `mangled *= bigP1`, with `bigP1 = 0x68E31DA4`, modulo 2^32. */
  function FirstProduct(mangled: bv32): bv32 {
    mangled * 0x68E3_1DA4
  }

  /** `bigP1` is a multiple of 4, so the top two bits of `mangled` drop out of the first product. */
  lemma FirstProductLow30(mangled: bv32)
    ensures FirstProduct(mangled) == FirstProduct(mangled & 0x3FFF_FFFF)
  {
  }

  /**
   * The Squirrel3 steps after the first product, each wrapping modulo 2^32:
   * add the seed, xor-shift right, add `bigP2 = 0xB5297A4D`, xor-shift left,
   * multiply by `bigP3 = 0x1B56C4E9`, xor-shift right.
   */
  function MixBits(m0: bv32, seed: bv32): bv32 {
    var m1 := m0 + seed;
    var m2 := m1 ^ (m1 >> 8);
    var m3 := m2 + 0xB529_7A4D;
    var m4 := m3 ^ (m3 << 8);
    var m5 := m4 * 0x1B56_C4E9;
    m5 ^ (m5 >> 8)
  }

  /** The Squirrel3 mixing steps on 32 bits. */
  function MangleBits(mangled: bv32, seed: bv32): bv32 {
    MixBits(FirstProduct(mangled), seed)
  }

  /**
   * The Squirrel3 steps on the bits `mangled` of a position. Only the low 30
   * bits of the position reach the result, so positions that differ by a
   * multiple of 2^30 give the same noise.
   */
  function Mangle(mangled: UInt32, seed: UInt32): (r: UInt32)
    ensures r == FromBits(MangleBits(Bits(mangled) & 0x3FFF_FFFF, Bits(seed)))
  {
    FirstProductLow30(Bits(mangled));
    FromBits(MangleBits(Bits(mangled), Bits(seed)))
  }

  /**
   * `Noise(int, uint)`: the 1D noise at `position`, whose bits are first read
   * as a `uint`, so a negative position is taken as `position + 2^32`.
   */
  function Noise(position: Int32, seed: UInt32): (r: UInt32)
    ensures position >= 0 ==> r == Mangle(position as int as UInt32, seed)
    ensures position < 0 ==> r == Mangle((position as int + TwoTo32) as UInt32, seed)
  {
    Mangle(ToUInt(position), seed)
  }

  /** Known values of the 1D noise at positions 0, 1 and -1 (all bits set) and seeds 0 and 1. */
  lemma NoiseKnownValues()
    ensures Noise(0, 0) == 0xB042BB5C
    ensures Noise(1, 0) == 0x81E55042
    ensures Noise(0, 1) == 0xC73DA8AC
    ensures Noise(-1, 0) == 0x5B4D2E3B
  {
    assert MangleBits(0, 0) == 0xB042BB5C;
    assert MangleBits(1, 0) == 0x81E55042;
    assert MangleBits(0, 1) == 0xC73DA8AC;
    assert MangleBits(0xFFFF_FFFF, 0) == 0x5B4D2E3B;
    assert Bits(0) == 0 && Bits(1) == 1 && Bits(0xFFFF_FFFF) == 0xFFFF_FFFF;
    assert ToUInt(-1) == 0xFFFF_FFFF;
  }

  /**
   * The position the 2D noise is taken at is the exact integer
   * `x + y * 198491317` reduced modulo 2^32: wrapping each intermediate result
   * loses nothing.
   */
  lemma Position2DIsFolded(x: Int32, y: Int32)
    ensures Add(x, Mul(y, YFactor)) == Wrap(x as int + y as int * YFactor as int)
    ensures ToUInt(Wrap(x as int + y as int * YFactor as int)) as int
            == (x as int + y as int * YFactor as int) % TwoTo32
  {
    WrapInner(x as int, y as int * YFactor as int);
    ToUIntOfWrap(x as int + y as int * YFactor as int);
  }

  /**
   * `Noise(int, int, uint)`, with the unchecked int arithmetic of C#: the 1D
   * noise at the exact `x + y * 198491317` wrapped into the `int` range.
   */
  function Noise2D(x: Int32, y: Int32, seed: UInt32): (r: UInt32)
    ensures r == Noise(Wrap(x as int + y as int * YFactor as int), seed)
  {
    Position2DIsFolded(x, y);
    Noise(Add(x, Mul(y, YFactor)), seed)
  }

  /** The 3D position is the exact `x + y * 198491317 + z * 6542989` modulo 2^32. */
  lemma Position3DIsFolded(x: Int32, y: Int32, z: Int32)
    ensures Add(Add(x, Mul(y, YFactor)), Mul(z, ZFactor))
            == Wrap(x as int + y as int * YFactor as int + z as int * ZFactor as int)
  {
    var a, b, c := x as int, y as int * YFactor as int, z as int * ZFactor as int;
    var xy := Add(x, Mul(y, YFactor));
    assert xy == Wrap(a + b) by {
      WrapInner(a, b);
    }
    assert Add(xy, Mul(z, ZFactor)) == Wrap(xy as int + c) by {
      WrapInner(xy as int, c);
    }
    assert Wrap(xy as int + c) == Wrap(a + b + c) by {
      assert (xy as int - (a + b)) % TwoTo32 == 0;
      WrapCongruent(xy as int + c, a + b + c);
    }
  }

  /**
   * `Noise(int, int, int, uint)`, with the unchecked int arithmetic of C#: the
   * 1D noise at the exact `x + y * 198491317 + z * 6542989` wrapped into the
   * `int` range.
   */
  function Noise3D(x: Int32, y: Int32, z: Int32, seed: UInt32): (r: UInt32)
    ensures r == Noise(Wrap(x as int + y as int * YFactor as int + z as int * ZFactor as int), seed)
  {
    Position3DIsFolded(x, y, z);
    Noise(Add(Add(x, Mul(y, YFactor)), Mul(z, ZFactor)), seed)
  }

  /**
   * `(float)noise / uint.MaxValue` in 32-bit float arithmetic: `uint.MaxValue`
   * converts to 2^32, and dividing by a power of two is exact. The quotient
   * reaches 1 for the 128 largest noise values, which round up to 2^32.
   */
  function Fraction(noise: UInt32): (r: real)
    ensures 0.0 <= r <= 1.0
    ensures r == 1.0 <==> noise >= 0xFFFF_FF80
    ensures noise as int < TwoTo24 ==> r == noise as real / TwoTo32 as real
  {
    FloatOfUInt(noise);
    FloatOf(noise as int) as real / TwoTo32 as real
  }

  /** The noise values below `uint.MaxValue` whose float quotient is 1. */
  predicate QuotientIsOne(noise: UInt32) {
    0xFFFF_FF80 <= noise < UIntMax
  }

  /** `min + frac * steps`. */
  function Scaled(frac: real, min: int, steps: int): real {
    min as real + frac * steps as real
  }

  /** The `max + 1 - min` steps of `[min, max]` as unchecked int arithmetic counts them. */
  function Steps(min: Int32, max: Int32): Int32 {
    Wrap(Add(max, 1) as int - min as int)
  }

  /**
   * `Remap(uint, int, int)`: the largest noise value maps to `max` itself; any
   * other is scaled by its float quotient onto the steps above `min`, and the
   * `(int)` cast of `Floor` rounds the result toward zero.
   */
  function Remap(noise: UInt32, min: Int32, max: Int32): (r: Int32)
    ensures noise == UIntMax ==> r == max
  {
    if noise == UIntMax then max
    else CastToInt(Scaled(Fraction(noise), min as int, Steps(min, max) as int))
  }

  /** An empty range `[0, -1]` yields -1 at the largest noise value and 0 at every other. */
  lemma RemapEmptyRange(noise: UInt32)
    ensures Remap(noise, 0, -1) == if noise == UIntMax then -1 else 0
  {
    if noise != UIntMax {
      assert Steps(0, -1) == 0;
    }
  }

  /**
   * Rounding toward zero leaves a range below zero upwards: on `[-3, -2]` a
   * draw three quarters of the way up scales to -1.5, which becomes -1.
   */
  lemma RemapNegativeRangeEscapes()
    ensures Remap(0xC000_0000, -3, -2) == -1
  {
    assert Steps(-3, -2) == 2;
    assert Pow2(8) == 256;
    UlpExact(0xC000_0000, 8);
    assert Fraction(0xC000_0000) == 0.75;
  }

  /**
   * Counting the steps of `[0, int.MaxValue]` in int arithmetic overflows to
   * `int.MinValue`, so a draw half way up maps to `-2^30`.
   */
  lemma RemapWideRangeEscapes()
    ensures Remap(0x8000_0000, 0, 0x7FFF_FFFF) == -0x4000_0000
  {
    assert Steps(0, 0x7FFF_FFFF) as int == -0x8000_0000;
    assert Pow2(8) == 256;
    UlpExact(0x8000_0000, 8);
    assert Fraction(0x8000_0000) == 0.5;
  }

  /**
   * The float quotient of the noise `0xFFFFFF80` is 1, so on the indices
   * `[0, 9]` of a ten-element list the draw is 10.
   */
  lemma RemapTopNoiseEscapes()
    ensures Remap(0xFFFF_FF80, 0, 9) == 10
  {
    assert Steps(0, 9) == 10;
    assert Fraction(0xFFFF_FF80) == 1.0;
  }

  /**
   * `Remap(uint, int, int)` as its comment promises: the quotient
   * `noise / uint.MaxValue` is taken exactly, so it stays below 1 (in double
   * precision too), the `max + 1 - min` steps are counted without
   * wrap-around, and the scaled value is rounded down, so every draw lands in
   * `[min, max]` (see `RemapIntendedInRange`).
   */
  function RemapIntended(noise: UInt32, min: Int32, max: Int32): (r: Int32)
    ensures noise == UIntMax ==> r == max
  {
    if noise == UIntMax then max
    else Wrap(Scaled(noise as real / UIntMax as real, min as int, max as int + 1 - min as int).Floor)
  }

  /** A fraction below one of a positive span stays below the span. */
  lemma ScaledBelowSpan(frac: real, span: real)
    requires 0.0 <= frac < 1.0 && span > 0.0
    ensures 0.0 <= frac * span < span
  {
    assert span - frac * span == (1.0 - frac) * span;
  }

  /** Rounding down a value of `[lo, hi + 1)` gives an integer of `[lo, hi]`. */
  lemma FloorWithin(v: real, lo: int, hi: int)
    requires lo as real <= v < hi as real + 1.0
    ensures lo <= v.Floor <= hi
  {
  }

  /** A fraction below one, scaled onto the `hi + 1 - lo` steps above `lo` and rounded down, stays in `[lo, hi]`. */
  lemma ScaledFloorWithin(frac: real, lo: int, hi: int)
    requires 0.0 <= frac < 1.0 && lo <= hi
    ensures lo <= Scaled(frac, lo, hi + 1 - lo).Floor <= hi
  {
    var span := (hi + 1 - lo) as real;
    assert span == hi as real + 1.0 - lo as real;
    ScaledBelowSpan(frac, span);
    assert lo as real <= lo as real + frac * span;
    assert lo as real + frac * span < hi as real + 1.0;
    FloorWithin(lo as real + frac * span, lo, hi);
  }

  /** For a non-empty range every draw of `RemapIntended` is inside it, and each end is reached. */
  lemma RemapIntendedInRange(noise: UInt32, min: Int32, max: Int32)
    requires min <= max
    ensures min <= RemapIntended(noise, min, max) <= max
    ensures RemapIntended(0, min, max) == min && RemapIntended(UIntMax, min, max) == max
  {
    if noise != UIntMax {
      var frac := noise as real / UIntMax as real;
      assert frac < 1.0;
      ScaledFloorWithin(frac, min as int, max as int);
    }
    assert Scaled(0 as real / UIntMax as real, min as int, max as int + 1 - min as int) == min as real;
  }

  /**
   * On a range `[0, n - 1]` the step count does not overflow and the scaled
   * draw is not negative, so the draw is an index of an `n`-element list
   * except when the float quotient is 1: then it is `n`, one past the end.
   */
  lemma RemapIndexRange(noise: UInt32, n: int)
    requires 0 < n < TwoTo31
    ensures 0 <= Remap(noise, 0, Wrap(n - 1)) as int <= n
    ensures Remap(noise, 0, Wrap(n - 1)) as int == n <==> QuotientIsOne(noise)
  {
    var last := Wrap(n - 1);
    assert last as int == n - 1;
    assert Steps(0, last) as int == n;
    if noise != UIntMax {
      var frac := Fraction(noise);
      if frac < 1.0 {
        ScaledFloorWithin(frac, 0, n - 1);
        assert Scaled(frac, 0, n) >= 0.0;
      } else {
        assert Scaled(frac, 0, n) == n as real;
      }
    }
  }

  /** The position after one draw from `pos` under `seed`: the Squirrel3 steps on the bits of `pos` itself. */
  function Next(pos: UInt32, seed: UInt32): (r: UInt32)
    ensures r == Mangle(pos, seed)
  {
    ToUIntOfToInt(pos);
    Noise(ToInt(pos), seed)
  }

  /** The values `n` successive applications of `step` produce, starting from `pos`. */
  function Orbit(step: UInt32 -> UInt32, pos: UInt32, n: nat): (r: seq<UInt32>)
    decreases n
    ensures |r| == n
    ensures n > 0 ==> r[0] == step(pos)
  {
    if n == 0 then [] else [step(pos)] + Orbit(step, step(pos), n - 1)
  }

  /** The value reached after `n` applications of `step` to `pos`. */
  function After(step: UInt32 -> UInt32, pos: UInt32, n: nat): UInt32
    decreases n
  {
    if n == 0 then pos else After(step, step(pos), n - 1)
  }

  /** Each value after the first is `step` applied to the value before it. */
  lemma {:induction false} OrbitChain(step: UInt32 -> UInt32, pos: UInt32, n: nat, i: nat)
    requires i + 1 < n
    ensures Orbit(step, pos, n)[i + 1] == step(Orbit(step, pos, n)[i])
    decreases i
  {
    if i > 0 {
      OrbitChain(step, step(pos), n - 1, i - 1);
    }
  }

  /** The first `m + n` values are the first `m` followed by the `n` values from where those end. */
  lemma {:induction false} OrbitResume(step: UInt32 -> UInt32, pos: UInt32, m: nat, n: nat)
    ensures Orbit(step, pos, m + n) == Orbit(step, pos, m) + Orbit(step, After(step, pos, m), n)
    decreases m
  {
    if m > 0 {
      var q := step(pos);
      OrbitResume(step, q, m - 1, n);
      assert Orbit(step, pos, m + n) == [q] + Orbit(step, q, m - 1 + n);
      assert Orbit(step, pos, m) == [q] + Orbit(step, q, m - 1);
    }
  }

  /** The values `n` successive draws of a generator with `seed` return, starting at position `pos`. */
  function Draws(seed: UInt32, pos: UInt32, n: nat): seq<UInt32> {
    Orbit(p => Next(p, seed), pos, n)
  }

  /** Each draw after the first is the noise at the value drawn before it. */
  lemma DrawsChain(seed: UInt32, pos: UInt32, n: nat, i: nat)
    requires i + 1 < n
    ensures Draws(seed, pos, n)[i + 1] == Next(Draws(seed, pos, n)[i], seed)
  {
    OrbitChain(p => Next(p, seed), pos, n, i);
  }

  /**
   * Restoring a saved `(seed, pos)` replays the rest of the sequence: the first
   * `m + n` draws are the first `m` followed by the `n` draws from the position
   * reached after `m`.
   */
  lemma DrawsResume(seed: UInt32, pos: UInt32, m: nat, n: nat)
    ensures Draws(seed, pos, m + n)
            == Draws(seed, pos, m) + Draws(seed, After(p => Next(p, seed), pos, m), n)
  {
    OrbitResume(p => Next(p, seed), pos, m, n);
  }

  /**
   * The input that shows the inverted zero-total test in `Weighted`: two
   * entries of weight 0. The float `Range(0, 0)` is exactly 0, and no running
   * total exceeds it, so the call throws instead of returning either entry.
   */
  lemma ZeroWeightsThrow()
    ensures PickOrThrow(["a", "b"], FirstExceeding([0.0, 0.0], 0.0)) == Failure(RandExceedsTotal)
  {
    AllZeroFindsNone([0.0, 0.0], 0.0);
  }

  /**
   * `Remap(uint, float, float)`, behind the float `Range(min, max)`:
   * `min + quotient * (max - min)`. It stays in `[min, max]`, and the noise
   * values whose float quotient is 1 give `max` itself.
   */
  function RangeFloat(noise: UInt32, min: real, max: real): (r: real)
    ensures min <= max ==> min <= r <= max
    ensures noise >= 0xFFFF_FF80 ==> r == max
  {
    Interpolate(Fraction(noise), min, max)
  }

  /** `min + frac * (max - min)` for a fraction in `[0, 1]`: in `[min, max]`, and `max` at 1. */
  function Interpolate(frac: real, min: real, max: real): (r: real)
    requires 0.0 <= frac <= 1.0
    ensures min <= max ==> min <= r <= max
    ensures frac == 1.0 ==> r == max
  {
    var span := max - min;
    if min <= max then
      FractionOfSpan(frac, span);
      assert min + frac * span <= min + span == max;
      min + frac * span
    else
      min + frac * span
  }

  /** A fraction in `[0, 1]` of a non-negative span lies in `[0, span]`. */
  lemma FractionOfSpan(frac: real, span: real)
    requires 0.0 <= frac <= 1.0 && span >= 0.0
    ensures 0.0 <= frac * span <= span
  {
    assert span - frac * span == (1.0 - frac) * span;
  }

  /**
   * As written, the noise values whose float quotient is 1 make `Weighted`
   * throw even with positive weights: `Range(0f, totalWeight)` is the total
   * itself, and no running total exceeds it.
   */
  lemma TopNoiseWeightedThrows<T>(elements: seq<T>, weights: seq<real>, noise: UInt32)
    requires |elements| == |weights| && NonNegative(weights) && QuotientIsOne(noise)
    ensures PickOrThrow(elements, FirstExceeding(weights, RangeFloat(noise, 0.0, Sum(weights))))
      == Failure(RandExceedsTotal)
  {
    PickFoundIff(weights, Sum(weights));
  }

  class Rand {
    var pos: UInt32
    var seed: UInt32

    constructor (seed: UInt32, pos: UInt32)
      ensures this.seed == seed && this.pos == pos
    {
      this.seed := seed;
      this.pos := pos;
    }

    /** `SetSeed(newSeed, newPos = 0)`. */
    method SetSeed(newSeed: UInt32, newPos: UInt32)
      modifies this
      ensures seed == newSeed && pos == newPos
    {
      seed := newSeed;
      pos := newPos;
    }

    /** `SetPos`: the seed is kept. */
    method SetPos(newPos: UInt32)
      modifies this`pos
      ensures pos == newPos
    {
      pos := newPos;
    }

    /** `Random()`: advances the position to the noise at the old position and returns it. */
    method Random() returns (r: UInt32)
      modifies this`pos
      ensures pos == Noise(ToInt(old(pos)), seed)
      ensures r == pos && [r] == Draws(seed, old(pos), 1)
    {
      pos := Noise(ToInt(pos), seed);
      r := pos;
    }

    /**
     * `Chance(p)`: false without drawing when `p` is 0; otherwise one draw,
     * whose float quotient by `uint.MaxValue` is compared with `p`.
     */
    method Chance(successProbability: real) returns (b: bool)
      modifies this`pos
      ensures successProbability == 0.0 ==> !b && pos == old(pos)
      ensures successProbability != 0.0 ==> pos == Next(old(pos), seed)
      ensures successProbability != 0.0 ==> (b <==> Fraction(pos) <= successProbability)
    {
      if successProbability == 0.0 {
        return false;
      }
      var r := Random();
      b := Fraction(r) <= successProbability;
    }

    /** `Range(int, int)`: one draw remapped onto `[min, max]`. */
    method RangeInt(min: Int32, max: Int32) returns (r: Int32)
      modifies this`pos
      ensures pos == Next(old(pos), seed) && r == Remap(pos, min, max)
    {
      var noise := Random();
      r := Remap(noise, min, max);
    }

    /**
     * `Element(list)`: the list indexed at a draw remapped onto `[0, Count - 1]`.
     * A non-empty list throws exactly when the float quotient of the draw is 1.
     */
    method Element<T>(list: seq<T>) returns (r: Result<T, SelectError>)
      requires |list| < TwoTo31
      modifies this`pos
      ensures pos == Next(old(pos), seed)
      ensures r == ElementAt(list, Remap(pos, 0, Wrap(|list| - 1)) as int)
      ensures |list| > 0 ==> (r.Success? <==> !QuotientIsOne(pos))
      ensures |list| > 0 && QuotientIsOne(pos) ==> r == Failure(OutOfRange(|list|))
    {
      var index := RangeInt(0, Wrap(|list| - 1));
      r := ElementAt(list, index as int);
      if |list| > 0 {
        RemapIndexRange(pos, |list|);
      }
    }

    /**
     * `Weighted(GetElement, GetWeight, GetCount)` over `elements` and `weights`.
     * Exactly one draw is made on every path. With no entries it indexes the
     * empty list at `Range(0, -1)` and throws. Otherwise `draw` stands for the
     * float `Range(0, totalWeight)` of that draw, and the first entry whose
     * running weight exceeds it is returned; when none does, the call throws.
     */
    method Weighted<T>(elements: seq<T>, weights: seq<real>, draw: real) returns (r: Result<T, SelectError>)
      requires |elements| == |weights| < TwoTo31
      modifies this`pos
      ensures pos == Next(old(pos), seed)
      ensures |weights| == 0 ==> r == Failure(OutOfRange(Remap(pos, 0, -1) as int))
      ensures |weights| > 0 ==> r == PickOrThrow(elements, FirstExceeding(weights, draw))
    {
      var totalWeight := TotalWeight(weights);
      if totalWeight == 0.0 {
        if |weights| == 0 {
          var index := RangeInt(0, Wrap(|weights| - 1));
          return ElementAt(elements, index as int);
        }
      }
      var _ := Random();
      r := ScanWeights(elements, weights, draw);
    }

    /** `Weighted(List<Weighted<T>>)`: the same choice, reading elements and weights from the entries. */
    method WeightedList<T>(items: seq<Weighted<T>>, draw: real) returns (r: Result<T, SelectError>)
      requires |items| < TwoTo31
      modifies this`pos
      ensures pos == Next(old(pos), seed)
      ensures |items| == 0 ==> r == Failure(OutOfRange(Remap(pos, 0, -1) as int))
      ensures |items| > 0 ==> r == PickOrThrow(ElementsOf(items), FirstExceeding(WeightsOf(items), draw))
    {
      r := Weighted(ElementsOf(items), WeightsOf(items), draw);
    }

    /**
     * `Weighted` as its comments describe it: when the weights add up to zero
     * but there are entries, a uniformly drawn entry is returned; like
     * `Element`, that throws when the float quotient of the draw is 1. The
     * modelled code tests `GetCount() == 0` at this point instead.
     */
    method WeightedIntended<T>(elements: seq<T>, weights: seq<real>, draw: real) returns (r: Result<T, SelectError>)
      requires |elements| == |weights| < TwoTo31
      modifies this`pos
      ensures pos == Next(old(pos), seed)
      ensures Sum(weights) == 0.0 && |weights| > 0 ==>
        r == ElementAt(elements, Remap(pos, 0, Wrap(|weights| - 1)) as int)
      ensures Sum(weights) != 0.0 || |weights| == 0 ==>
        r == PickOrThrow(elements, FirstExceeding(weights, draw))
      ensures Sum(weights) == 0.0 && |weights| > 0 ==> (r.Success? <==> !QuotientIsOne(pos))
    {
      var totalWeight := TotalWeight(weights);
      if totalWeight == 0.0 {
        if |weights| != 0 {
          var index := RangeInt(0, Wrap(|weights| - 1));
          RemapIndexRange(pos, |weights|);
          return ElementAt(elements, index as int);
        }
      }
      var _ := Random();
      r := ScanWeights(elements, weights, draw);
    }
  }
}
