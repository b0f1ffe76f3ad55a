/** A binary min-heap over sequences, in the style of Python's `heapq`: the caller keeps
    the list, and each operation returns the rearranged list. Elements are compared by a
    caller-supplied key, so the block pool (plain block ids) and the request queue
    (aging score, then arrival number) share one implementation. */
module Heapq {

  type Key = (real, int)

  /** Lexicographic order on keys, as Python compares tuples. */
  predicate Leq(a: Key, b: Key) {
    a.0 < b.0 || (a.0 == b.0 && a.1 <= b.1)
  }

  function Parent(j: int): int
    requires j > 0
  {
    (j - 1) / 2
  }

  /** The heap order holds below every parent at index `start` or later. */
  ghost predicate IsHeapFrom<T>(key: T -> Key, h: seq<T>, start: int) {
    forall j :: 0 < j < |h| && Parent(j) >= start ==> Leq(key(h[Parent(j)]), key(h[j]))
  }

  ghost predicate IsHeap<T>(key: T -> Key, h: seq<T>) {
    IsHeapFrom(key, h, 0)
  }

  ghost predicate Distinct<T>(s: seq<T>) {
    forall i, j :: 0 <= i < j < |s| ==> s[i] != s[j]
  }

  lemma {:induction false} RootIsLeast<T>(key: T -> Key, h: seq<T>, j: nat)
    requires IsHeap(key, h) && j < |h|
    ensures Leq(key(h[0]), key(h[j]))
    decreases j
  {
    if j > 0 {
      RootIsLeast(key, h, Parent(j));
    }
  }

  function Swap<T>(h: seq<T>, i: nat, j: nat): (r: seq<T>)
    requires i < |h| && j < |h|
    ensures |r| == |h| && r[i] == h[j] && r[j] == h[i]
    ensures forall k :: 0 <= k < |h| && k != i && k != j ==> r[k] == h[k]
  {
    h[i := h[j]][j := h[i]]
  }

  lemma SwapKeepsElements<T>(h: seq<T>, i: nat, j: nat)
    requires i < |h| && j < |h|
    ensures multiset(Swap(h, i, j)) == multiset(h)
  {
  }

  /** Heap order at `start` and below, except that the element at `i` may be too large. */
  ghost predicate Sinking<T>(key: T -> Key, h: seq<T>, start: nat, i: int) {
    && start <= i < |h|
    && (forall j :: 0 < j < |h| && Parent(j) >= start && Parent(j) != i ==> Leq(key(h[Parent(j)]), key(h[j])))
    && (i > start ==> Parent(i) >= start && forall j :: 0 < j < |h| && Parent(j) == i ==>
        Leq(key(h[Parent(i)]), key(h[j])))
  }

  lemma SinkStep<T>(key: T -> Key, h: seq<T>, start: nat, i: nat, child: nat)
    requires Sinking(key, h, start, i)
    requires child < |h| && (child == 2 * i + 1 || child == 2 * i + 2)
    requires Leq(key(h[child]), key(h[i]))
    requires forall j :: 0 < j < |h| && Parent(j) == i ==> Leq(key(h[child]), key(h[j]))
    ensures Sinking(key, Swap(h, i, child), start, child)
  {
    var r := Swap(h, i, child);
    assert Parent(child) == i;
    forall j | 0 < j < |r| && Parent(j) >= start && Parent(j) != child
      ensures Leq(key(r[Parent(j)]), key(r[j]))
    {
      if j == i {
        assert r[Parent(j)] == h[Parent(i)] && Parent(child) == i;
      }
    }
    forall j | 0 < j < |r| && Parent(j) == child
      ensures Leq(key(r[i]), key(r[j]))
    {
      assert r[j] == h[j];
    }
  }

  /** Moves the element at `start` down until neither child is smaller. */
  method SiftDown<T>(key: T -> Key, h: seq<T>, start: nat) returns (r: seq<T>)
    requires start < |h| && IsHeapFrom(key, h, start + 1)
    ensures IsHeapFrom(key, r, start)
    ensures |r| == |h| && multiset(r) == multiset(h)
  {
    r := h;
    var i := start;
    while 2 * i + 1 < |r|
      invariant |r| == |h| && multiset(r) == multiset(h)
      invariant Sinking(key, r, start, i)
    {
      var child := 2 * i + 1;
      if child + 1 < |r| && Leq(key(r[child + 1]), key(r[child])) {
        child := child + 1;
      }
      if Leq(key(r[i]), key(r[child])) {
        return;
      }
      SinkStep(key, r, start, i, child);
      SwapKeepsElements(r, i, child);
      r := Swap(r, i, child);
      i := child;
    }
  }

  /** Heap order everywhere, except that the element at `i` may be too small. */
  ghost predicate Rising<T>(key: T -> Key, h: seq<T>, i: int) {
    && 0 <= i < |h|
    && (forall j :: 0 < j < |h| && j != i ==> Leq(key(h[Parent(j)]), key(h[j])))
    && (i > 0 ==> forall j :: 0 < j < |h| && Parent(j) == i ==> Leq(key(h[Parent(i)]), key(h[j])))
  }

  lemma RiseStep<T>(key: T -> Key, h: seq<T>, i: nat)
    requires Rising(key, h, i) && i > 0 && Leq(key(h[i]), key(h[Parent(i)]))
    ensures Rising(key, Swap(h, i, Parent(i)), Parent(i))
  {
    var p := Parent(i);
    var r := Swap(h, i, p);
    forall j | 0 < j < |r| && j != p
      ensures Leq(key(r[Parent(j)]), key(r[j]))
    {
      if Parent(j) == p && j != i {
        assert Leq(key(h[p]), key(h[j]));
      }
    }
    if p > 0 {
      forall j | 0 < j < |r| && Parent(j) == p
        ensures Leq(key(r[Parent(p)]), key(r[j]))
      {
        assert Leq(key(h[Parent(p)]), key(h[p]));
        assert j != i ==> Leq(key(h[p]), key(h[j]));
      }
    }
  }

  /** Moves the last element up until its parent is no larger. */
  method SiftUp<T>(key: T -> Key, h: seq<T>) returns (r: seq<T>)
    requires |h| > 0 && IsHeap(key, h[..|h| - 1])
    ensures IsHeap(key, r)
    ensures |r| == |h| && multiset(r) == multiset(h)
  {
    r := h;
    var i := |h| - 1;
    forall j | 0 < j < |r| && j != i
      ensures Leq(key(r[Parent(j)]), key(r[j]))
    {
      assert h[..i][j] == r[j] && h[..i][Parent(j)] == r[Parent(j)];
    }
    while i > 0 && !Leq(key(r[Parent(i)]), key(r[i]))
      invariant |r| == |h| && multiset(r) == multiset(h)
      invariant Rising(key, r, i)
    {
      RiseStep(key, r, i);
      SwapKeepsElements(r, i, Parent(i));
      r := Swap(r, i, Parent(i));
      i := Parent(i);
    }
  }

  /** `heapq.heappush`. */
  method HeapPush<T>(key: T -> Key, h: seq<T>, x: T) returns (r: seq<T>)
    requires IsHeap(key, h)
    ensures IsHeap(key, r)
    ensures |r| == |h| + 1 && multiset(r) == multiset(h) + multiset{x}
  {
    assert (h + [x])[..|h|] == h;
    r := SiftUp(key, h + [x]);
  }

  /** `heapq.heappop`: removes a least element. */
  method HeapPop<T>(key: T -> Key, h: seq<T>) returns (x: T, r: seq<T>)
    requires |h| > 0 && IsHeap(key, h)
    ensures IsHeap(key, r)
    ensures |r| == |h| - 1 && multiset(h) == multiset(r) + multiset{x}
    ensures forall y :: y in h ==> Leq(key(x), key(y))
  {
    x := h[0];
    forall y | y in h ensures Leq(key(x), key(y)) {
      var j :| 0 <= j < |h| && h[j] == y;
      RootIsLeast(key, h, j);
    }
    var last := h[|h| - 1];
    assert h == h[..|h| - 1] + [last];
    if |h| == 1 {
      r := [];
    } else {
      var moved := [last] + h[1..|h| - 1];
      assert h == [x] + h[1..|h| - 1] + [last];
      forall j | 0 < j < |moved| && Parent(j) >= 1
        ensures Leq(key(moved[Parent(j)]), key(moved[j]))
      {
        assert moved[j] == h[j] && moved[Parent(j)] == h[Parent(j)];
      }
      r := SiftDown(key, moved, 0);
    }
  }

  /** `heapq.heapify`. */
  method Heapify<T>(key: T -> Key, h: seq<T>) returns (r: seq<T>)
    ensures IsHeap(key, r)
    ensures |r| == |h| && multiset(r) == multiset(h)
  {
    r := h;
    var i := |h| / 2;
    while i > 0
      invariant 0 <= i <= |h| / 2 && |r| == |h|
      invariant multiset(r) == multiset(h)
      invariant IsHeapFrom(key, r, i)
    {
      i := i - 1;
      r := SiftDown(key, r, i);
    }
  }

  lemma {:induction false} DistinctCounts<T>(s: seq<T>)
    ensures Distinct(s) <==> forall x :: multiset(s)[x] <= 1
  {
    if s != [] {
      var front, last := s[..|s| - 1], s[|s| - 1];
      assert s == front + [last];
      DistinctCounts(front);
      if Distinct(s) {
        assert last !in front;
        assert Distinct(front);
      } else if Distinct(front) {
        var i, j :| 0 <= i < j < |s| && s[i] == s[j];
        assert j == |s| - 1;
        assert front[i] == last;
        assert multiset(s)[last] > 1;
      } else {
        var x :| multiset(front)[x] > 1;
        assert multiset(s)[x] > 1;
      }
    }
  }
}
