/**
 * WeightedObjectList.cs: an asset holding a list of weighted game objects that
 * hands out copies of the list rather than the list itself.
 */
module WeightedObjects {
  import opened Weighting

  /** A scene object, known here only by its identity. */
  datatype GameObject = GameObject(id: nat)

  class WeightedObjectList {
    var weightedObjects: seq<Weighted<GameObject>>

    constructor (weightedObjects: seq<Weighted<GameObject>>)
      ensures this.weightedObjects == weightedObjects
    {
      this.weightedObjects := weightedObjects;
    }

    /**
     * `GetWeightedListCopy`: a new list holding the same entries in the same
     * order. The list is a value, so adding or removing entries in the copy
     * leaves `weightedObjects` as it was; the entries themselves are shared.
     */
    method GetWeightedListCopy() returns (copy: seq<Weighted<GameObject>>)
      ensures |copy| == |weightedObjects|
      ensures forall i :: 0 <= i < |copy| ==> copy[i] == weightedObjects[i]
    {
      copy := [];
      for i := 0 to |weightedObjects|
        invariant copy == weightedObjects[..i]
      {
        copy := copy + [weightedObjects[i]];
      }
    }

    /**
     * The copy the comment on `GetWeightedListCopy` asks for: the entries are
     * copied too, so nothing reachable from the copy is part of `weightedObjects`.
     */
    method GetWeightedListDeepCopy() returns (copy: seq<Weighted<GameObject>>)
      ensures |copy| == |weightedObjects|
      ensures forall i :: 0 <= i < |copy| ==> fresh(copy[i])
      ensures forall i :: 0 <= i < |copy| ==>
        copy[i].element == weightedObjects[i].element && copy[i].weight == weightedObjects[i].weight
    {
      copy := [];
      for i := 0 to |weightedObjects|
        invariant |copy| == i
        invariant forall j :: 0 <= j < i ==> fresh(copy[j])
        invariant forall j :: 0 <= j < i ==>
          copy[j].element == weightedObjects[j].element && copy[j].weight == weightedObjects[j].weight
      {
        var entry := new Weighted(weightedObjects[i].element, weightedObjects[i].weight);
        copy := copy + [entry];
      }
    }
  }

  /**
   * A caller that edits the first entry of the list it was handed: through the
   * shallow copy the edit reaches the stored list.
   */
  method EditShallowCopy(list: WeightedObjectList, w: real)
    requires |list.weightedObjects| > 0
    modifies list.weightedObjects[0]
    ensures list.weightedObjects[0].weight == w
  {
    var copy := list.GetWeightedListCopy();
    copy[0].weight := w;
  }

  /** The same edit through the deep copy leaves every stored weight as it was. */
  method EditDeepCopy(list: WeightedObjectList, w: real)
    requires |list.weightedObjects| > 0
    ensures forall i :: 0 <= i < |list.weightedObjects| ==>
      list.weightedObjects[i].weight == old(list.weightedObjects[i].weight)
  {
    var copy := list.GetWeightedListDeepCopy();
    copy[0].weight := w;
  }
}
