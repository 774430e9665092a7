/**
 * Weighted.cs: an element paired with a weight (a reference type with public
 * fields), and the first-match search over a list of them.
 */
module Weighting {

  class Weighted<T> {
    var element: T
    var weight: real

    constructor (element: T, weight: real)
      ensures this.element == element && this.weight == weight
    {
      this.element := element;
      this.weight := weight;
    }
  }

  /** The elements of `items`, in order. */
  function ElementsOf<T>(items: seq<Weighted<T>>): (r: seq<T>)
    reads items
    ensures |r| == |items|
    ensures forall i :: 0 <= i < |items| ==> r[i] == items[i].element
  {
    seq(|items|, i reads items requires 0 <= i < |items| => items[i].element)
  }

  /** The weights of `items`, in order. */
  function WeightsOf<T>(items: seq<Weighted<T>>): (r: seq<real>)
    reads items
    ensures |r| == |items|
    ensures forall i :: 0 <= i < |items| ==> r[i] == items[i].weight
  {
    seq(|items|, i reads items requires 0 <= i < |items| => items[i].weight)
  }

  /**
   * `Weighted.IndexOfElement`: the index of the first entry whose element equals
   * `element`, or -1 when there is none. The list is only read.
   */
  method IndexOfElement<T(==)>(weighteds: seq<Weighted<T>>, element: T) returns (index: int)
    ensures -1 <= index < |weighteds|
    ensures index == -1 <==> forall j :: 0 <= j < |weighteds| ==> weighteds[j].element != element
    ensures index >= 0 ==> weighteds[index].element == element
    ensures index >= 0 ==> forall j :: 0 <= j < index ==> weighteds[j].element != element
  {
    for i := 0 to |weighteds|
      invariant forall j :: 0 <= j < i ==> weighteds[j].element != element
    {
      if weighteds[i].element == element {
        return i;
      }
    }
    return -1;
  }
}
