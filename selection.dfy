/**
 * What the random-element helpers of Rand.cs and LeafRand.cs share: indexing a
 * list, which throws when the index is out of range, and the prefix-sum search
 * behind every weighted choice (scan the weights from the front, keep a running
 * total, stop at the first index whose running total is strictly greater than
 * the draw).
 */
module Selection {
  import opened Wrappers

  /** The exceptions a random-element call can end in. */
  datatype SelectError =
    | OutOfRange(index: int)   // a list or array indexed outside [0, Count)
    | RandExceedsTotal         // no running total exceeded the draw

  /** `list[index]`, or the exception the indexer throws. */
  function ElementAt<T>(list: seq<T>, index: int): (r: Result<T, SelectError>)
    ensures r.Success? <==> 0 <= index < |list|
    ensures r.Success? ==> r.value == list[index]
    ensures r.Failure? ==> r.error == OutOfRange(index)
  {
    if 0 <= index < |list| then Success(list[index]) else Failure(OutOfRange(index))
  }

  /** The element a weighted scan returns for the index it found, or its final throw. */
  function PickOrThrow<T>(items: seq<T>, k: Option<nat>): (r: Result<T, SelectError>)
    requires k.Some? ==> k.value < |items|
    ensures r.Success? <==> k.Some?
    ensures r.Success? ==> r.value == items[k.value]
    ensures r.Failure? ==> r.error == RandExceedsTotal
  {
    match k
    case Some(i) => Success(items[i])
    case None => Failure(RandExceedsTotal)
  }

  ghost predicate NonNegative(w: seq<real>) {
    forall i :: 0 <= i < |w| ==> w[i] >= 0.0
  }

  /** The total of `w`, added up from the front as `totalWeight += w[i]` does; non-negative weights have a non-negative total. */
  function Sum(w: seq<real>): (r: real)
    ensures |w| == 1 ==> r == w[0]
    ensures NonNegative(w) ==> r >= 0.0
  {
    if w == [] then 0.0
    else
      assert NonNegative(w) ==> NonNegative(w[..|w| - 1]);
      Sum(w[..|w| - 1]) + w[|w| - 1]
  }

  /**
   * The running total after the entry at index `i` has been added: the total
   * of the entries before `i` plus `w[i]`, and with non-negative weights at
   * least `w[i]`.
   */
  function RunningSum(w: seq<real>, i: nat): (r: real)
    requires i < |w|
    ensures r == Sum(w[..i]) + w[i]
    ensures NonNegative(w) ==> r >= w[i]
  {
    assert w[..i + 1][..i] == w[..i];
    assert NonNegative(w) ==> NonNegative(w[..i]);
    Sum(w[..i + 1])
  }

  /** The scan from index `i` on, with `acc` the running total of the entries before `i`. */
  function FirstExceedingFrom(w: seq<real>, r: real, i: nat, acc: real): (k: Option<nat>)
    requires i <= |w| && acc == Sum(w[..i])
    ensures k.Some? ==> i <= k.value < |w| && RunningSum(w, k.value) > r
    ensures k.Some? ==> forall j :: i <= j < k.value ==> RunningSum(w, j) <= r
    ensures k.None? ==> forall j :: i <= j < |w| ==> RunningSum(w, j) <= r
    decreases |w| - i
  {
    if i == |w| then None
    else
      assert w[..i + 1][..i] == w[..i];
      var acc' := acc + w[i];
      if acc' > r then Some(i) else FirstExceedingFrom(w, r, i + 1, acc')
  }

  /**
   * The index a weighted choice selects for the draw `r`: the first index whose
   * running total exceeds `r`, or None when no running total does.
   */
  function FirstExceeding(w: seq<real>, r: real): (k: Option<nat>)
    ensures k.Some? ==> k.value < |w| && RunningSum(w, k.value) > r
    ensures k.Some? ==> forall j :: 0 <= j < k.value ==> RunningSum(w, j) <= r
    ensures k.None? ==> forall j :: 0 <= j < |w| ==> RunningSum(w, j) <= r
  {
    assert w[..0] == [];
    FirstExceedingFrom(w, r, 0, 0.0)
  }

  /** The first loop of a weighted choice: `totalWeight += weight` over every weight. */
  method TotalWeight(weights: seq<real>) returns (total: real)
    ensures total == Sum(weights)
  {
    total := 0.0;
    for i := 0 to |weights|
      invariant total == Sum(weights[..i])
    {
      assert weights[..i + 1][..i] == weights[..i];
      total := total + weights[i];
    }
    assert weights[..|weights|] == weights;
  }

  /**
   * The second loop: add the weights up again and return the element at the
   * first index whose running total is strictly greater than `draw`; when the
   * loop ends without one, throw.
   */
  method ScanWeights<T>(elements: seq<T>, weights: seq<real>, draw: real) returns (r: Result<T, SelectError>)
    requires |weights| <= |elements|
    ensures r == PickOrThrow(elements, FirstExceeding(weights, draw))
  {
    var weightIndex := 0.0;
    for i := 0 to |weights|
      invariant weightIndex == Sum(weights[..i])
      invariant forall j :: 0 <= j < i ==> RunningSum(weights, j) <= draw
    {
      assert weights[..i + 1][..i] == weights[..i];
      weightIndex := weightIndex + weights[i];
      assert weightIndex == RunningSum(weights, i);
      if weightIndex > draw {
        return Success(elements[i]);
      }
    }
    return Failure(RandExceedsTotal);
  }

  /** With non-negative weights the running totals never decrease. */
  lemma {:induction false} SumMonotone(w: seq<real>, i: nat, j: nat)
    requires NonNegative(w) && i <= j <= |w|
    ensures Sum(w[..i]) <= Sum(w[..j])
    decreases j - i
  {
    if i < j {
      SumMonotone(w, i, j - 1);
      assert w[..j][..j - 1] == w[..j - 1];
    }
  }

  /** Every running total of non-negative weights is at most the whole total. */
  lemma RunningSumAtMostTotal(w: seq<real>, i: nat)
    requires NonNegative(w) && i < |w|
    ensures RunningSum(w, i) <= Sum(w)
  {
    SumMonotone(w, i + 1, |w|);
    assert w[..|w|] == w;
  }

  /**
   * For non-negative weights and a non-negative draw, the search finds an index
   * exactly when the draw is below the total; in particular a draw equal to the
   * total finds none.
   */
  lemma PickFoundIff(w: seq<real>, r: real)
    requires NonNegative(w) && 0.0 <= r
    ensures FirstExceeding(w, r).Some? <==> r < Sum(w)
  {
    if r < Sum(w) {
      assert |w| > 0;
      assert w[..|w|] == w;
      assert RunningSum(w, |w| - 1) > r;
    } else {
      forall j | 0 <= j < |w| ensures RunningSum(w, j) <= r {
        RunningSumAtMostTotal(w, j);
      }
    }
  }

  /** Weights that are all zero add up to zero. */
  lemma {:induction false} SumOfZeros(w: seq<real>)
    requires forall i :: 0 <= i < |w| ==> w[i] == 0.0
    ensures Sum(w) == 0.0
  {
    if w != [] {
      SumOfZeros(w[..|w| - 1]);
    }
  }

  /** When every weight is zero, no non-negative draw is ever exceeded. */
  lemma AllZeroFindsNone(w: seq<real>, r: real)
    requires forall i :: 0 <= i < |w| ==> w[i] == 0.0
    requires 0.0 <= r
    ensures FirstExceeding(w, r) == None
  {
    SumOfZeros(w);
    PickFoundIff(w, r);
  }

  /** The running totals of a prefix of the weights are those of the whole list. */
  lemma RunningSumOfPrefix(w: seq<real>, n: nat, j: nat)
    requires j < n <= |w|
    ensures RunningSum(w[..n], j) == RunningSum(w, j)
  {
    assert w[..n][..j + 1] == w[..j + 1];
  }
}
