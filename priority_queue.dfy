/*
 * The priority queue of priority_queue.cpp: a binary min-heap stored in a
 * fixed-capacity array, ordered by one of four comparison functions. The
 * element that no other element is "less" than sits at the root.
 */
module PriorityHeap {
  import opened Types

  /** The value pq_extract_min and pq_peek return for an empty queue. */
  const EMPTY_MARKER: Process := CreateProcess(-1, 0, 0, 0)

  /** The comparison function a queue is created with. */
  datatype Comparator = ByBurstTime | ByRemainingTime | ByPriority | ByArrivalTime

  /**
   * compare_by_burst_time, compare_by_remaining_time, compare_by_priority
   * and compare_by_arrival_time: does `a` come out of the heap before `b`?
   */
  predicate Less(cmp: Comparator, a: Process, b: Process) {
    match cmp
    case ByBurstTime =>
      if a.burst == b.burst then a.arrival < b.arrival else a.burst < b.burst
    case ByRemainingTime =>
      if a.remaining == b.remaining then a.arrival < b.arrival else a.remaining < b.remaining
    case ByPriority =>
      if a.priority == b.priority then a.arrival < b.arrival else a.priority < b.priority
    case ByArrivalTime =>
      a.arrival < b.arrival
  }

  /** The field a comparator orders by before breaking ties on arrival. */
  function SortKey(cmp: Comparator, p: Process): int {
    match cmp
    case ByBurstTime => p.burst
    case ByRemainingTime => p.remaining
    case ByPriority => p.priority
    case ByArrivalTime => p.arrival
  }

  /**
   * Each comparator is a strict weak order: irreflexive, transitive, and
   * "neither is less" is transitive too.
   */
  lemma LessIsStrictWeakOrder(cmp: Comparator, a: Process, b: Process, c: Process)
    ensures !Less(cmp, a, a)
    ensures Less(cmp, a, b) && Less(cmp, b, c) ==> Less(cmp, a, c)
    ensures !Less(cmp, a, b) && !Less(cmp, b, c) ==> !Less(cmp, a, c)
  {
  }

  /**
   * The order is lexicographic on (key, arrival): `a` is less than `b`
   * exactly when its key is smaller or the keys tie and it arrived first,
   * and two processes are interchangeable exactly when both agree.
   */
  lemma {:induction false} LessIsLexicographic(cmp: Comparator, a: Process, b: Process)
    ensures Less(cmp, a, b) <==>
      SortKey(cmp, a) < SortKey(cmp, b) || (SortKey(cmp, a) == SortKey(cmp, b) && a.arrival < b.arrival)
    ensures !Less(cmp, a, b) && !Less(cmp, b, a) <==>
      SortKey(cmp, a) == SortKey(cmp, b) && a.arrival == b.arrival
  {
  }

  function Parent(j: int): int
    requires j > 0
  {
    (j - 1) / 2
  }

  /** Position `j` lies in the subtree rooted at position `k`. */
  predicate InSubtree(j: int, k: int)
    requires k >= 0
    decreases j
  {
    j == k || (j > k && InSubtree(Parent(j), k))
  }

  lemma {:induction false} SubtreeNested(j: int, m: int, k: int)
    requires 0 <= k <= m && InSubtree(m, k) && InSubtree(j, m)
    ensures InSubtree(j, k)
    decreases j
  {
    if j != m {
      SubtreeNested(Parent(j), m, k);
    }
  }

  /** Every edge of the first `n` slots whose parent is at `lo` or below it satisfies the order. */
  ghost predicate HeapFrom(s: seq<Process>, cmp: Comparator, n: int, lo: int)
    requires n <= |s|
  {
    forall j :: 0 < j < n && lo <= Parent(j) ==> !Less(cmp, s[j], s[Parent(j)])
  }

  /** s with the slots i and j exchanged (pq_swap). */
  function SwapAt(s: seq<Process>, i: int, j: int): (r: seq<Process>)
    requires 0 <= i < |s| && 0 <= j < |s|
    ensures |r| == |s| && r[i] == s[j] && r[j] == s[i]
    ensures forall k :: 0 <= k < |s| && k != i && k != j ==> r[k] == s[k]
  {
    s[i := s[j]][j := s[i]]
  }

  lemma SwapKeepsMultiset(s: seq<Process>, i: int, j: int, n: int)
    requires 0 <= i < n && 0 <= j < n && n <= |s|
    ensures multiset(SwapAt(s, i, j)[..n]) == multiset(s[..n])
  {
    var r := SwapAt(s, i, j);
    assert r[..n] == s[..n][i := s[j]][j := s[i]];
  }

  /** A swap inside the first n slots leaves the rest alone. */
  lemma SwapKeepsSuffix(s: seq<Process>, i: int, j: int, n: int)
    requires 0 <= i < n && 0 <= j < n && n <= |s|
    ensures SwapAt(s, i, j)[n..] == s[n..]
  {
  }

  /** The root is an element that no element of the heap is less than. */
  lemma {:induction false} RootIsLeast(s: seq<Process>, cmp: Comparator, n: int, j: int)
    requires 0 <= j < n <= |s| && HeapFrom(s, cmp, n, 0)
    ensures !Less(cmp, s[j], s[0])
    decreases j
  {
    if j == 0 {
      LessIsStrictWeakOrder(cmp, s[0], s[0], s[0]);
    } else {
      RootIsLeast(s, cmp, n, Parent(j));
      LessIsStrictWeakOrder(cmp, s[j], s[Parent(j)], s[0]);
    }
  }

  /** No element of a non-empty heap is less than its root. */
  lemma RootIsLeastOfAll(s: seq<Process>, cmp: Comparator, n: int)
    requires 0 < n <= |s| && HeapFrom(s, cmp, n, 0)
    ensures forall x :: x in multiset(s[..n]) ==> !Less(cmp, x, s[0])
  {
    forall x | x in multiset(s[..n])
      ensures !Less(cmp, x, s[0])
    {
      var j :| 0 <= j < n && s[..n][j] == x;
      RootIsLeast(s, cmp, n, j);
    }
  }

  /**
   * Moving the last of the first `n` slots into the root removes the root
   * from the multiset and leaves every edge below the root intact.
   */
  lemma DropRoot(s: seq<Process>, cmp: Comparator, n: int)
    requires 0 < n <= |s| && HeapFrom(s, cmp, n, 0)
    ensures multiset(s[0 := s[n - 1]][..n - 1]) == multiset(s[..n]) - multiset{s[0]}
    ensures HeapFrom(s[0 := s[n - 1]], cmp, n - 1, 1)
  {
    var t := s[0 := s[n - 1]];
    if n > 1 {
      assert s[..n] == [s[0]] + t[1..n - 1] + [s[n - 1]];
      assert t[..n - 1] == [s[n - 1]] + t[1..n - 1];
    }
  }

  /**
   * The state inside pq_heapify_up: every edge holds except the one from
   * `i` to its parent, and `i`'s children are not less than that parent.
   */
  ghost predicate SiftingUp(s: seq<Process>, cmp: Comparator, n: int, i: int)
    requires n <= |s|
  {
    && (forall j :: 0 < j < n && j != i ==> !Less(cmp, s[j], s[Parent(j)]))
    && (0 < i < n ==> forall j :: 0 < j < n && Parent(j) == i ==> !Less(cmp, s[j], s[Parent(i)]))
  }

  /** One swap of pq_heapify_up moves the hole one level up. */
  lemma SiftUpStep(s: seq<Process>, cmp: Comparator, n: int, i: int)
    requires 0 < i < n <= |s| && SiftingUp(s, cmp, n, i) && Less(cmp, s[i], s[Parent(i)])
    ensures SiftingUp(SwapAt(s, i, Parent(i)), cmp, n, Parent(i))
  {
    var p := Parent(i);
    var r := SwapAt(s, i, p);
    forall j | 0 < j < n && j != p
      ensures !Less(cmp, r[j], r[Parent(j)])
    {
      if j == i {
        LessIsStrictWeakOrder(cmp, s[i], s[p], s[i]);
      } else if Parent(j) == p {
        LessIsStrictWeakOrder(cmp, s[j], s[i], s[p]);
      } else if Parent(j) == i {
        assert r[j] == s[j] && r[i] == s[p];
      } else {
        assert r[j] == s[j] && r[Parent(j)] == s[Parent(j)];
      }
    }
    if 0 < p {
      forall j | 0 < j < n && Parent(j) == p
        ensures !Less(cmp, r[j], r[Parent(p)])
      {
        LessIsStrictWeakOrder(cmp, s[j], s[p], s[Parent(p)]);
      }
    }
  }

  /**
   * The slot pq_heapify_down picks at `k`: `k` itself unless a child in
   * the first `n` slots is less, the left child unless the right one is
   * less still. No child of `k` in range is less than the pick.
   */
  function Smallest(s: seq<Process>, cmp: Comparator, n: int, k: int): (m: int)
    requires 0 <= k < n <= |s|
    ensures m == k || (m == 2 * k + 1 && m < n) || (m == 2 * k + 2 && m < n)
    ensures m != k ==> Less(cmp, s[m], s[k])
    ensures forall c :: 0 < c < n && Parent(c) == k ==> !Less(cmp, s[c], s[m])
  {
    var left, right := 2 * k + 1, 2 * k + 2;
    var m1 := if left < n && Less(cmp, s[left], s[k]) then left else k;
    if right < n && Less(cmp, s[right], s[m1]) then
      LessIsStrictWeakOrder(cmp, s[right], s[left], s[k]);
      LessIsStrictWeakOrder(cmp, s[left], s[right], s[left]);
      LessIsStrictWeakOrder(cmp, s[left], s[right], s[k]);
      right
    else
      LessIsStrictWeakOrder(cmp, s[m1], s[m1], s[m1]);
      m1
  }

  /** Only the slots in the subtree rooted at `k` differ between `s` and `t`. */
  ghost predicate OnlySubtreeChanged(s: seq<Process>, t: seq<Process>, k: int)
    requires k >= 0
  {
    |s| == |t| && forall j :: 0 <= j < |t| && !InSubtree(j, k) ==> t[j] == s[j]
  }

  /** The new element at `k` is the old one or one of its children in the first `n` slots. */
  ghost predicate TakenFromFamily(s: seq<Process>, t: seq<Process>, n: int, k: int)
    requires 0 <= k < n <= |s| && |t| == |s|
  {
    || t[k] == s[k]
    || (2 * k + 1 < n && t[k] == s[2 * k + 1])
    || (2 * k + 2 < n && t[k] == s[2 * k + 2])
  }

  /** What changes below the least child also changes below its parent. */
  lemma FrameWidens(s: seq<Process>, t: seq<Process>, k: int, m: int)
    requires 0 <= k < m < |s| == |t| && Parent(m) == k
    requires OnlySubtreeChanged(SwapAt(s, k, m), t, m)
    ensures OnlySubtreeChanged(s, t, k)
  {
    forall j | 0 <= j < |t| && !InSubtree(j, k)
      ensures t[j] == s[j]
    {
      if InSubtree(j, m) {
        SubtreeNested(j, m, k);
      }
    }
  }

  /**
   * The recursive step of pq_heapify_down: `k` was swapped with its least
   * child `m`, and the subtree at `m` has been repaired.
   */
  lemma SiftDownStep(s: seq<Process>, t: seq<Process>, cmp: Comparator, n: int, k: int, m: int)
    requires 0 <= k < m < n <= |s| == |t| && Parent(m) == k
    requires HeapFrom(s, cmp, n, k + 1) && Less(cmp, s[m], s[k])
    requires forall c :: 0 < c < n && Parent(c) == k ==> !Less(cmp, s[c], s[m])
    requires HeapFrom(t, cmp, n, m)
    requires OnlySubtreeChanged(SwapAt(s, k, m), t, m)
    requires TakenFromFamily(SwapAt(s, k, m), t, n, m)
    ensures HeapFrom(t, cmp, n, k)
  {
    forall j | 0 < j < n && k <= Parent(j)
      ensures !Less(cmp, t[j], t[Parent(j)])
    {
      var p := Parent(j);
      if m <= p {
      } else if p == k {
        assert t[k] == s[m];
        if j == m {
          if t[m] == s[k] {
            LessIsStrictWeakOrder(cmp, s[k], s[m], s[k]);
          } else {
            assert !Less(cmp, t[m], s[m]);
          }
        } else {
          assert !InSubtree(j, m);
        }
      } else {
        assert !InSubtree(j, m) && !InSubtree(p, m);
      }
    }
  }

  class PriorityQueue {
    const heap: array<Process>
    const capacity: int
    const compare: Comparator
    var size: int

    ghost predicate Valid()
      reads this
    {
      heap.Length == capacity && 0 <= size <= capacity
    }

    /** The queued copies, as a multiset. */
    ghost function Contents(): multiset<Process>
      requires Valid()
      reads this, heap
    {
      multiset(heap[..size])
    }

    /** The heap property over the occupied slots. */
    ghost predicate IsHeap()
      requires Valid()
      reads this, heap
    {
      HeapFrom(heap[..], compare, size, 0)
    }

    /** pq_create, with the capacity defaulting to MAX_PROCESSES. */
    constructor (cmp: Comparator, capacity: int := MAX_PROCESSES)
      requires capacity >= 0
      ensures Valid() && IsHeap() && fresh(heap)
      ensures Contents() == multiset{} && compare == cmp && this.capacity == capacity
    {
      heap := new Process[capacity](_ => ZeroProcess);
      this.capacity := capacity;
      size := 0;
      compare := cmp;
    }

    /** pq_is_empty. */
    function IsEmpty(): (b: bool)
      requires Valid()
      reads this
      ensures b <==> size == 0
    {
      size == 0
    }

    /** pq_get_size. */
    function GetSize(): (n: int)
      requires Valid()
      reads this, heap
      ensures n == |Contents()|
    {
      size
    }

    /** pq_swap on two slots of the heap array. */
    method Swap(i: int, j: int)
      requires Valid() && 0 <= i < heap.Length && 0 <= j < heap.Length
      modifies heap
      ensures heap[..] == SwapAt(old(heap[..]), i, j)
    {
      heap[i], heap[j] := heap[j], heap[i];
    }

    /**
     * pq_heapify_up: the element at `index` climbs while it is less than
     * its parent, turning the first `index + 1` slots into a heap.
     */
    method HeapifyUp(index: int)
      requires Valid() && 0 <= index < heap.Length && HeapFrom(heap[..], compare, index, 0)
      modifies heap
      ensures HeapFrom(heap[..], compare, index + 1, 0)
      ensures multiset(heap[..index + 1]) == multiset(old(heap[..index + 1]))
      ensures heap[index + 1..] == old(heap[index + 1..])
    {
      var i := index;
      while i > 0
        invariant 0 <= i <= index
        invariant SiftingUp(heap[..], compare, index + 1, i)
        invariant multiset(heap[..index + 1]) == multiset(old(heap[..index + 1]))
        invariant heap[index + 1..] == old(heap[index + 1..])
      {
        var parent := (i - 1) / 2;
        if Less(compare, heap[i], heap[parent]) {
          SiftUpStep(heap[..], compare, index + 1, i);
          SwapKeepsMultiset(heap[..], i, parent, index + 1);
          SwapKeepsSuffix(heap[..], i, parent, index + 1);
          Swap(i, parent);
          i := parent;
        } else {
          break;
        }
      }
    }

    /**
     * pq_heapify_down: the element at `index` sinks, swapping with its
     * least child, until the subtree at `index` is a heap. Only that
     * subtree changes, and the new element at `index` is the old one or
     * one of its children.
     */
    method HeapifyDown(index: int)
      requires Valid() && 0 <= index && HeapFrom(heap[..], compare, size, index + 1)
      modifies heap
      ensures HeapFrom(heap[..], compare, size, index)
      ensures multiset(heap[..size]) == multiset(old(heap[..size]))
      ensures OnlySubtreeChanged(old(heap[..]), heap[..], index)
      ensures index < size ==> TakenFromFamily(old(heap[..]), heap[..], size, index)
      decreases size - index
    {
      var smallest := index;
      var left := 2 * index + 1;
      var right := 2 * index + 2;
      if left < size && Less(compare, heap[left], heap[smallest]) {
        smallest := left;
      }
      if right < size && Less(compare, heap[right], heap[smallest]) {
        smallest := right;
      }
      ghost var s := heap[..];
      assert index < size ==> smallest == Smallest(s, compare, size, index);
      if smallest != index {
        SwapKeepsMultiset(s, index, smallest, size);
        Swap(index, smallest);
        HeapifyDown(smallest);
        ghost var t := heap[..];
        FrameWidens(s, t, index, smallest);
        SiftDownStep(s, t, compare, size, index, smallest);
      }
    }

    /**
     * pq_insert: a copy of `p` enters the heap; when the queue is full the
     * call silently does nothing.
     */
    method Insert(p: Process)
      requires Valid() && IsHeap()
      modifies this, heap
      ensures Valid() && IsHeap()
      ensures old(size) >= capacity ==> size == old(size) && heap[..] == old(heap[..])
      ensures old(size) < capacity ==> size == old(size) + 1 && Contents() == old(Contents()) + multiset{p}
    {
      if size >= capacity {
        return;
      }
      heap[size] := p;
      assert heap[..size + 1] == old(heap[..size]) + [p];
      HeapifyUp(size);
      size := size + 1;
    }

    /**
     * pq_extract_min: the root leaves the heap and the last element takes
     * its place and sinks; on an empty queue the marker process with id -1
     * and no change.
     */
    method ExtractMin() returns (min: Process)
      requires Valid() && IsHeap()
      modifies this, heap
      ensures Valid() && IsHeap()
      ensures old(size) == 0 ==> min == EMPTY_MARKER && size == 0
      ensures old(size) > 0 ==> size == old(size) - 1 && min in old(Contents())
      ensures old(size) > 0 ==> Contents() == old(Contents()) - multiset{min}
      ensures old(size) > 0 ==> forall x :: x in old(Contents()) ==> !Less(compare, x, min)
    {
      if IsEmpty() {
        return EMPTY_MARKER;
      }
      ghost var s, n := heap[..], size;
      RootIsLeastOfAll(s, compare, n);
      DropRoot(s, compare, n);
      min := heap[0];
      heap[0] := heap[size - 1];
      size := size - 1;
      assert heap[..] == s[0 := s[n - 1]];
      HeapifyDown(0);
    }

    /** pq_peek: the root, or the marker when the queue is empty; nothing changes. */
    method Peek() returns (p: Process)
      requires Valid() && IsHeap()
      ensures size == 0 ==> p == EMPTY_MARKER
      ensures size > 0 ==> p in Contents() && forall x :: x in Contents() ==> !Less(compare, x, p)
    {
      if IsEmpty() {
        return EMPTY_MARKER;
      }
      RootIsLeastOfAll(heap[..], compare, size);
      p := heap[0];
    }

    /**
     * pq_rebuild: heapify_down from the last parent back to the root,
     * making the occupied slots a heap of the same elements.
     */
    method Rebuild()
      requires Valid()
      modifies heap
      ensures IsHeap() && Contents() == old(Contents())
    {
      var i := size / 2 - 1;
      while i >= 0
        invariant -1 <= i <= size / 2 - 1
        invariant HeapFrom(heap[..], compare, size, i + 1)
        invariant multiset(heap[..size]) == multiset(old(heap[..size]))
        decreases i
      {
        HeapifyDown(i);
        i := i - 1;
      }
    }
  }

  /** The three processes of the demonstration in main.cpp, bursts 5, 2 and 8. */
  const DEMO_P1: Process := CreateProcess(1, 0, 5)
  const DEMO_P2: Process := CreateProcess(2, 0, 2)
  const DEMO_P3: Process := CreateProcess(3, 0, 8)

  /** The first half of the demonstration: a burst-ordered queue receives the three processes. */
  method DemoQueue() returns (pq: PriorityQueue)
    ensures fresh(pq) && fresh(pq.heap) && pq.Valid() && pq.IsHeap() && pq.compare == ByBurstTime
    ensures pq.Contents() == multiset{DEMO_P1, DEMO_P2, DEMO_P3}
  {
    pq := new PriorityQueue(ByBurstTime);
    pq.Insert(DEMO_P1);
    pq.Insert(DEMO_P2);
    pq.Insert(DEMO_P3);
  }

  /**
   * The demonstration in main.cpp: after the three insertions, the first
   * two extractions give P2, then P1.
   */
  method PriorityQueueDemo() returns (first: int, second: int)
    ensures first == 2 && second == 1
  {
    var pq := DemoQueue();
    var x := pq.ExtractMin();
    assert x == DEMO_P2 by {
      assert x in multiset{DEMO_P1, DEMO_P2, DEMO_P3} && !Less(ByBurstTime, DEMO_P2, x);
    }
    assert pq.Contents() == multiset{DEMO_P1, DEMO_P3};
    var y := pq.ExtractMin();
    assert y == DEMO_P1 by {
      assert y in multiset{DEMO_P1, DEMO_P3} && !Less(ByBurstTime, DEMO_P1, y);
    }
    first, second := x.id, y.id;
  }
}
