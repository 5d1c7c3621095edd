/** The priority queue behind both schedulers: a binary heap of entries ordered by
    (priority, order), with the push and pop that Python's `heapq` performs on a list. */
module RequestHeap {

  /** An entry compares by its first two fields only; the payload takes no part. */
  datatype Entry<+T> = Entry(priority: int, order: nat, payload: T)

  predicate Less<T>(a: Entry<T>, b: Entry<T>) {
    a.priority < b.priority || (a.priority == b.priority && a.order < b.order)
  }

  /** `x` is queued and no queued entry compares below it. */
  ghost predicate IsMin<T>(q: multiset<Entry<T>>, x: Entry<T>) {
    x in q && forall y :: y in q ==> !Less(y, x)
  }

  function Parent(j: nat): nat
    requires j > 0
  {
    (j - 1) / 2
  }

  ghost predicate AboveParent<T>(s: seq<Entry<T>>, j: nat)
    requires 0 < j < |s|
  {
    !Less(s[j], s[Parent(j)])
  }

  ghost predicate IsHeap<T>(s: seq<Entry<T>>) {
    forall j :: 0 < j < |s| ==> AboveParent(s, j)
  }

  /** Heap order everywhere except that `pos` may lie below its parent; the children
      of `pos` are already above that parent. */
  ghost predicate HeapRisingAt<T>(s: seq<Entry<T>>, pos: nat)
    requires pos < |s|
  {
    && (forall j :: 0 < j < |s| && j != pos ==> AboveParent(s, j))
    && (pos > 0 ==> forall j :: 0 < j < |s| && Parent(j) == pos ==> !Less(s[j], s[Parent(pos)]))
  }

  /** Heap order everywhere except around `pos`: neither its own order nor that of its
      children is known, but its children are above its parent. */
  ghost predicate HeapSinkingAt<T>(s: seq<Entry<T>>, pos: nat)
    requires pos < |s|
  {
    && (forall j :: 0 < j < |s| && j != pos && Parent(j) != pos ==> AboveParent(s, j))
    && (pos > 0 ==> forall j :: 0 < j < |s| && Parent(j) == pos ==> !Less(s[j], s[Parent(pos)]))
  }

  function Swap<T>(s: seq<T>, i: nat, j: nat): (r: seq<T>)
    requires i < |s| && j < |s|
    ensures |r| == |s| && r[i] == s[j] && r[j] == s[i]
    ensures forall k :: 0 <= k < |s| && k != i && k != j ==> r[k] == s[k]
    ensures multiset(r) == multiset(s)
  {
    s[i := s[j]][j := s[i]]
  }

  /** The right child wins unless the left one is strictly smaller. */
  function SmallerChild<T>(s: seq<Entry<T>>, pos: nat): (child: nat)
    requires 2 * pos + 1 < |s|
    ensures pos < child < |s| && Parent(child) == pos
    ensures forall j :: 0 < j < |s| && Parent(j) == pos ==> !Less(s[j], s[child])
  {
    var left := 2 * pos + 1;
    assert forall j: nat :: 0 < j && Parent(j) == pos ==> j == left || j == left + 1;
    if left + 1 < |s| && !Less(s[left], s[left + 1]) then left + 1 else left
  }

  lemma LeafSettles<T>(s: seq<Entry<T>>, pos: nat)
    requires pos < |s| <= 2 * pos + 1 && HeapSinkingAt(s, pos)
    ensures HeapRisingAt(s, pos)
  {
    assert forall j :: 0 < j < |s| ==> Parent(j) != pos;
  }

  lemma RiseStep<T>(s: seq<Entry<T>>, pos: nat)
    requires 0 < pos < |s| && HeapRisingAt(s, pos) && Less(s[pos], s[Parent(pos)])
    ensures HeapRisingAt(Swap(s, pos, Parent(pos)), Parent(pos))
  {
    var p := Parent(pos);
    var r := Swap(s, pos, p);
    forall j | 0 < j < |r| && j != p ensures AboveParent(r, j) {
      assert j != pos ==> AboveParent(s, j);
    }
    if p > 0 {
      assert AboveParent(s, p);
      forall j | 0 < j < |r| && Parent(j) == p ensures !Less(r[j], r[Parent(p)]) {
        assert j != pos ==> AboveParent(s, j);
      }
    }
  }

  lemma SinkStep<T>(s: seq<Entry<T>>, pos: nat, child: nat)
    requires pos < child < |s| && HeapSinkingAt(s, pos) && Parent(child) == pos
    requires forall j :: 0 < j < |s| && Parent(j) == pos ==> !Less(s[j], s[child])
    ensures HeapSinkingAt(Swap(s, pos, child), child)
  {
    var r := Swap(s, pos, child);
    forall j | 0 < j < |r| && j != child && Parent(j) != child ensures AboveParent(r, j) {
      if j != pos && Parent(j) != pos {
        assert AboveParent(s, j);
      }
    }
    forall j | 0 < j < |r| && Parent(j) == child ensures !Less(r[j], r[pos]) {
      assert AboveParent(s, j);
    }
  }

  lemma {:induction false} RootIsMin<T>(s: seq<Entry<T>>, i: nat)
    requires IsHeap(s) && i < |s|
    ensures !Less(s[i], s[0])
  {
    if i != 0 {
      RootIsMin(s, Parent(i));
      assert AboveParent(s, i);
    }
  }

  lemma HeadIsMin<T>(s: seq<Entry<T>>)
    requires IsHeap(s) && s != []
    ensures IsMin(multiset(s), s[0])
  {
    forall y | y in multiset(s) ensures !Less(y, s[0]) {
      var i :| 0 <= i < |s| && s[i] == y;
      RootIsMin(s, i);
    }
  }

  class HeapQueue<T> {
    var items: seq<Entry<T>>

    constructor ()
      ensures items == []
    {
      items := [];
    }

    method Push(x: Entry<T>)
      requires IsHeap(items)
      modifies this
      ensures IsHeap(items)
      ensures multiset(items) == old(multiset(items)) + multiset{x}
    {
      ghost var before := items;
      items := items + [x];
      forall j | 0 < j < |items| - 1 ensures AboveParent(items, j) {
        assert AboveParent(before, j);
      }
      SiftTowardRoot(|items| - 1);
    }

    /** Lets the entry at `start` rise past every larger ancestor. */
    method SiftTowardRoot(start: nat)
      requires start < |items| && HeapRisingAt(items, start)
      modifies this
      ensures IsHeap(items)
      ensures multiset(items) == old(multiset(items))
    {
      var pos: nat := start;
      while pos > 0
        invariant pos < |items| && HeapRisingAt(items, pos)
        invariant multiset(items) == old(multiset(items))
      {
        var parent := Parent(pos);
        if !Less(items[pos], items[parent]) {
          assert AboveParent(items, pos);
          return;
        }
        RiseStep(items, pos);
        items := Swap(items, pos, parent);
        pos := parent;
      }
    }

    /** Removes the root: the last entry takes its place, sinks along the smaller
        children to a leaf, and then rises to where it belongs. */
    method Pop() returns (x: Entry<T>)
      requires IsHeap(items) && items != []
      modifies this
      ensures x == old(items[0]) && IsMin(old(multiset(items)), x)
      ensures IsHeap(items)
      ensures multiset(items) == old(multiset(items)) - multiset{x}
    {
      ghost var before := items;
      HeadIsMin(items);
      x := items[0];
      var last := items[|items| - 1];
      assert before == before[..|before| - 1] + [last];
      items := items[..|items| - 1];
      if items != [] {
        assert items == [x] + items[1..];
        items := items[0 := last];
        assert items == [last] + before[1..|before| - 1];
        forall j | 0 < j < |items| && Parent(j) != 0 ensures AboveParent(items, j) {
          assert AboveParent(before, j);
        }
        SinkToLeaf();
      }
    }

    method SinkToLeaf()
      requires items != [] && HeapSinkingAt(items, 0)
      modifies this
      ensures IsHeap(items)
      ensures multiset(items) == old(multiset(items))
    {
      var pos: nat := 0;
      while 2 * pos + 1 < |items|
        invariant pos < |items| && HeapSinkingAt(items, pos)
        invariant multiset(items) == old(multiset(items))
        decreases |items| - pos
      {
        var child := SmallerChild(items, pos);
        SinkStep(items, pos, child);
        items := Swap(items, pos, child);
        pos := child;
      }
      LeafSettles(items, pos);
      SiftTowardRoot(pos);
    }
  }
}
