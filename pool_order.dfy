/**
 * The list operations the audio pool is kept ordered with: `List.Remove`
 * (drop the first occurrence), `List.Insert`, and the scan for the first entry
 * whose end time is strictly later than a given one.
 */
module PoolOrder {

  /** Ascending order of end times. */
  predicate Sorted(keys: seq<real>) {
    forall i, j :: 0 <= i < j < |keys| ==> keys[i] <= keys[j]
  }

  /** `List.Remove(x)`: `s` without its first occurrence of `x`; `s` itself when `x` is absent. */
  function RemoveFirst<T(==)>(s: seq<T>, x: T): (r: seq<T>)
    ensures x !in s ==> r == s
    ensures x in s ==> |r| == |s| - 1
  {
    if |s| == 0 then s
    else if s[0] == x then s[1..]
    else [s[0]] + RemoveFirst(s[1..], x)
  }

  /** `Remove` takes away one `x` and keeps every other entry. */
  lemma {:induction false} RemoveFirstMultiset<T>(s: seq<T>, x: T)
    ensures multiset(RemoveFirst(s, x)) == multiset(s) - multiset{x}
  {
    if |s| > 0 {
      assert s == [s[0]] + s[1..];
      if s[0] != x {
        RemoveFirstMultiset(s[1..], x);
      }
    }
  }

  /** `List.Insert(i, x)`. */
  function InsertAt<T>(s: seq<T>, i: nat, x: T): (r: seq<T>)
    requires i <= |s|
    ensures |r| == |s| + 1 && r[i] == x
    ensures forall j :: 0 <= j < i ==> r[j] == s[j]
    ensures forall j :: i < j < |r| ==> r[j] == s[j - 1]
  {
    s[..i] + [x] + s[i..]
  }

  /** `Insert` adds one `x` and keeps every other entry. */
  lemma InsertAtMultiset<T>(s: seq<T>, i: nat, x: T)
    requires i <= |s|
    ensures multiset(InsertAt(s, i, x)) == multiset(s) + multiset{x}
  {
    assert s == s[..i] + s[i..];
  }

  /**
   * The index the scan stops at: the first key strictly greater than `k`,
   * or `|keys|` when there is none. Every key before it is at most `k`.
   */
  function InsertionPoint(keys: seq<real>, k: real): (i: nat)
    ensures i <= |keys|
    ensures forall j :: 0 <= j < i ==> keys[j] <= k
    ensures i < |keys| ==> keys[i] > k
  {
    if |keys| == 0 then 0
    else if keys[0] > k then 0
    else 1 + InsertionPoint(keys[1..], k)
  }

  /** Only one index has the two properties of the insertion point. */
  lemma InsertionPointUnique(keys: seq<real>, k: real, i: nat)
    requires i <= |keys|
    requires forall j :: 0 <= j < i ==> keys[j] <= k
    requires i < |keys| ==> keys[i] > k
    ensures i == InsertionPoint(keys, k)
  {
  }

  /**
   * In a sorted list the insertion point comes after every key equal to `k`:
   * the keys at and after it are all strictly greater.
   */
  lemma InsertionPointAfterTies(keys: seq<real>, k: real)
    requires Sorted(keys)
    ensures forall j :: InsertionPoint(keys, k) <= j < |keys| ==> keys[j] > k
  {
  }

  /** Inserting `k` at its insertion point keeps a sorted list sorted. */
  lemma InsertKeepsSorted(keys: seq<real>, k: real)
    requires Sorted(keys)
    ensures Sorted(InsertAt(keys, InsertionPoint(keys, k), k))
  {
    var i := InsertionPoint(keys, k);
    var r := InsertAt(keys, i, k);
    forall a, b | 0 <= a < b < |r|
      ensures r[a] <= r[b]
    {
      if b < i {
      } else if b == i {
        assert r[a] == keys[a];
      } else if a < i {
        assert r[b] == keys[b - 1];
      } else if a == i {
        assert r[b] == keys[b - 1];
      } else {
        assert r[a] == keys[a - 1] && r[b] == keys[b - 1];
      }
    }
  }

  /** The first occurrence of `x` in `a + [x] + b` is the one after `a` when `a` has none. */
  lemma {:induction false} RemoveFirstAfter<T>(a: seq<T>, x: T, b: seq<T>)
    requires forall k :: 0 <= k < |a| ==> a[k] != x
    ensures RemoveFirst(a + [x] + b, x) == a + b
  {
    var s := a + [x] + b;
    if |a| == 0 {
      assert s == [x] + b && s[1..] == b;
    } else {
      assert s[0] == a[0];
      assert s[1..] == a[1..] + [x] + b;
      RemoveFirstAfter(a[1..], x, b);
      assert a + b == [a[0]] + (a[1..] + b);
    }
  }

  /** Removing and re-inserting `x` keeps the other entries in their relative order. */
  lemma ReinsertKeepsOthers<T>(s: seq<T>, x: T, i: nat)
    requires i <= |RemoveFirst(s, x)|
    requires x !in RemoveFirst(s, x)
    ensures RemoveFirst(InsertAt(RemoveFirst(s, x), i, x), x) == RemoveFirst(s, x)
  {
    var rest := RemoveFirst(s, x);
    assert rest[..i] + rest[i..] == rest;
    forall k | 0 <= k < i
      ensures rest[..i][k] != x
    {
      assert rest[..i][k] == rest[k] && rest[k] in rest;
    }
    RemoveFirstAfter(rest[..i], x, rest[i..]);
  }

  /**
   * Removing `x` and inserting it again permutes the list when `x` was in it
   * and adds `x` when it was not; when no second `x` remains after the
   * removal, `x` ends up in the list exactly once.
   */
  lemma ReinsertPermutes<T>(s: seq<T>, x: T, i: nat)
    requires i <= |RemoveFirst(s, x)|
    ensures x in s ==> multiset(InsertAt(RemoveFirst(s, x), i, x)) == multiset(s)
    ensures x !in s ==> multiset(InsertAt(RemoveFirst(s, x), i, x)) == multiset(s) + multiset{x}
    ensures x !in RemoveFirst(s, x) ==> multiset(InsertAt(RemoveFirst(s, x), i, x))[x] == 1
  {
    RemoveFirstMultiset(s, x);
    InsertAtMultiset(RemoveFirst(s, x), i, x);
  }
}
