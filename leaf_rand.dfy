/**
 * LeafRand.cs: the earlier copy of the seeded generator. Its integer noise and
 * remap functions are the same computations as those of Rand.cs and are used
 * from `SeededRand`; its weighted choice first copies elements and weights into
 * two lists and then scans them.
 */
module LeafRandom {
  import opened Numerics
  import opened Wrappers
  import opened Selection
  import opened Weighting
  import opened SeededRand

  /**
   * What the scan of `Weighted(items, weights)` ends in for the draw `draw`: it
   * walks the items, adding `weights[i]` to the running total, and returns the
   * first item whose running total exceeds the draw. It throws when it needs a
   * weight the list does not have, and at the end when no total exceeded the
   * draw; the message of that last exception reads `items[0]`, which itself
   * throws when there are no items.
   */
  function LeafScan<T>(items: seq<T>, weights: seq<real>, draw: real): (r: Result<T, SelectError>)
    ensures r.Success? ==>
      exists i :: 0 <= i < |items| && i < |weights| && r.value == items[i] &&
        RunningSum(weights, i) > draw && forall j :: 0 <= j < i ==> RunningSum(weights, j) <= draw
    ensures r.Failure? ==> forall j :: 0 <= j < |items| && j < |weights| ==> RunningSum(weights, j) <= draw
    ensures r.Failure? && |weights| < |items| ==> r.error == OutOfRange(|weights|)
    ensures r.Failure? && |items| == 0 ==> r.error == OutOfRange(0)
    ensures r.Failure? && 0 < |items| <= |weights| ==> r.error == RandExceedsTotal
  {
    var n := if |weights| < |items| then |weights| else |items|;
    match FirstExceeding(weights[..n], draw)
    case Some(i) =>
      RunningSumOfPrefix(weights, n, i);
      assert forall j :: 0 <= j < i ==> RunningSum(weights[..n], j) == RunningSum(weights, j) by {
        forall j | 0 <= j < i { RunningSumOfPrefix(weights, n, j); }
      }
      Success(items[i])
    case None =>
      assert forall j :: 0 <= j < n ==> RunningSum(weights[..n], j) == RunningSum(weights, j) by {
        forall j | 0 <= j < n { RunningSumOfPrefix(weights, n, j); }
      }
      if n < |items| then Failure(OutOfRange(n))
      else if |items| == 0 then Failure(OutOfRange(0))
      else Failure(RandExceedsTotal)
  }

  /**
   * With as many weights as items, the scan is the prefix-sum choice Rand.cs
   * makes: the first item whose running weight exceeds the draw, or a throw.
   */
  lemma LeafScanAligned<T>(items: seq<T>, weights: seq<real>, draw: real)
    requires |items| == |weights| > 0
    ensures LeafScan(items, weights, draw) == PickOrThrow(items, FirstExceeding(weights, draw))
  {
    assert weights[..|weights|] == weights;
  }

  /**
   * The list-building step of `Weighted(List<Weighted<T>>)`: the weights and
   * the elements of the entries, in their original order.
   */
  method SplitWeighted<T>(weightedElements: seq<Weighted<T>>) returns (elements: seq<T>, weights: seq<real>)
    ensures |elements| == |weights| == |weightedElements|
    ensures forall i :: 0 <= i < |weightedElements| ==>
      elements[i] == weightedElements[i].element && weights[i] == weightedElements[i].weight
  {
    weights, elements := [], [];
    for i := 0 to |weightedElements|
      invariant |elements| == |weights| == i
      invariant forall j :: 0 <= j < i ==>
        elements[j] == weightedElements[j].element && weights[j] == weightedElements[j].weight
    {
      weights := weights + [weightedElements[i].weight];
      elements := elements + [weightedElements[i].element];
    }
  }

  /**
   * A generator instance. Its `Random()` passes the `uint` position to the
   * float-position noise overload, which is not part of this model: the value
   * that call produces is a parameter `next` of the members that draw.
   */
  class LeafRand {
    var pos: UInt32
    var seed: UInt32

    constructor ()
      ensures pos == 0 && seed == 0
    {
      pos, seed := 0, 0;
    }

    /** `SetSeed(newSeed, newPos = 0)`. */
    method SetSeed(newSeed: UInt32, newPos: UInt32)
      modifies this
      ensures seed == newSeed && pos == newPos
    {
      seed := newSeed;
      pos := newPos;
    }

    /** `SetPos`: the seed is kept. */
    method SetPos(newPos: UInt32)
      modifies this`pos
      ensures pos == newPos
    {
      pos := newPos;
    }

    /**
     * `Chance(p)`: false without drawing when `p` is 0; otherwise one draw,
     * yielding `next`, whose float quotient by `uint.MaxValue` is compared with `p`.
     */
    method Chance(successProbability: real, next: UInt32) returns (b: bool)
      modifies this`pos
      ensures successProbability == 0.0 ==> !b && pos == old(pos)
      ensures successProbability != 0.0 ==> pos == next
      ensures successProbability != 0.0 ==> (b <==> Fraction(next) <= successProbability)
    {
      if successProbability == 0.0 {
        return false;
      }
      pos := next;
      b := Fraction(next) <= successProbability;
    }

    /** `Range(int min, int max)`: one draw, yielding `next`, remapped onto `[min, max]`. */
    method RangeInt(min: Int32, max: Int32, next: UInt32) returns (r: Int32)
      modifies this`pos
      ensures pos == next
      ensures r == Remap(next, min, max)
      ensures next == UIntMax ==> r == max
    {
      pos := next;
      r := Remap(next, min, max);
    }

    /**
     * `Weighted(items, weights)`. Without weights it is `Random(items)`, the
     * item at the draw remapped onto `[0, Count - 1]`, which throws when the
     * float quotient of the draw is 1. Otherwise `draw` is the
     * float `Range(0, totalWeight)` of the draw, and the scan decides.
     */
    method Weighted<T>(items: seq<T>, weights: seq<real>, next: UInt32, draw: real) returns (r: Result<T, SelectError>)
      requires |items| < TwoTo31
      modifies this`pos
      ensures pos == next
      ensures |weights| == 0 ==> r == ElementAt(items, Remap(next, 0, Wrap(|items| - 1)) as int)
      ensures |weights| == 0 && |items| > 0 ==> (r.Success? <==> !QuotientIsOne(next))
      ensures |weights| > 0 ==> r == LeafScan(items, weights, draw)
    {
      pos := next;
      if |weights| == 0 {
        if |items| > 0 {
          RemapIndexRange(next, |items|);
        }
        return ElementAt(items, Remap(next, 0, Wrap(|items| - 1)) as int);
      }
      ghost var n := if |weights| < |items| then |weights| else |items|;
      var weightIndex := 0.0;
      for i := 0 to |items|
        invariant pos == next
        invariant i <= |weights|
        invariant weightIndex == Sum(weights[..i])
        invariant forall j :: 0 <= j < i ==> RunningSum(weights[..n], j) <= draw
      {
        if i >= |weights| {
          return Failure(OutOfRange(i));
        }
        assert weights[..i + 1][..i] == weights[..i];
        weightIndex := weightIndex + weights[i];
        RunningSumOfPrefix(weights, n, i);
        if weightIndex > draw {
          return Success(items[i]);
        }
      }
      if |items| == 0 {
        return Failure(OutOfRange(0));
      }
      return Failure(RandExceedsTotal);
    }

    /**
     * `Weighted(List<Weighted<T>>)`: builds the two lists in order, then makes
     * the choice above; with entries it is the prefix-sum choice over them.
     */
    method WeightedOf<T>(weightedElements: seq<Weighted<T>>, next: UInt32, draw: real) returns (r: Result<T, SelectError>)
      requires |weightedElements| < TwoTo31
      modifies this`pos
      ensures pos == next
      ensures |weightedElements| == 0 ==> r == Failure(OutOfRange(Remap(next, 0, -1) as int))
      ensures |weightedElements| > 0 ==>
        r == PickOrThrow(ElementsOf(weightedElements), FirstExceeding(WeightsOf(weightedElements), draw))
    {
      var elements, weights := SplitWeighted(weightedElements);
      assert elements == ElementsOf(weightedElements) && weights == WeightsOf(weightedElements);
      r := Weighted(elements, weights, next, draw);
      if |weightedElements| > 0 {
        LeafScanAligned(elements, weights, draw);
      }
    }
  }
}
