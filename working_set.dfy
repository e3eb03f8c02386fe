/*
 * Preparing an algorithm's working set: copying and resetting the caller's
 * processes, and the stable bubble sort by arrival time that FCFS and Round
 * Robin run over it.
 */
module WorkingSet {
  import opened Types

  /** The copy loop every algorithm opens with: result.processes[i] = processes[i], then reset. */
  method CloneReset(input: seq<Process>) returns (work: array<Process>)
    ensures fresh(work)
    ensures work[..] == ResetAll(input)
  {
    work := new Process[|input|](i => ZeroProcess);
    var i := 0;
    while i < |input|
      invariant 0 <= i <= |input|
      invariant forall k :: 0 <= k < i ==> work[k] == Reset(input[k])
    {
      work[i] := input[i];
      ResetProcess(work, i);
      i := i + 1;
    }
  }

  function Swap<T>(s: seq<T>, j: nat): (r: seq<T>)
    requires j + 1 < |s|
    ensures |r| == |s| && r[j] == s[j + 1] && r[j + 1] == s[j]
    ensures forall k :: 0 <= k < |s| && k != j && k != j + 1 ==> r[k] == s[k]
  {
    s[j := s[j + 1]][j + 1 := s[j]]
  }

  /** perm lists every index below n exactly once. */
  ghost predicate IsPermutation(perm: seq<int>, n: nat) {
    && |perm| == n
    && (forall k :: 0 <= k < n ==> 0 <= perm[k] < n)
    && (forall k, l :: 0 <= k < l < n ==> perm[k] != perm[l])
    && (forall i :: 0 <= i < n ==> i in perm)
  }

  predicate SortedByArrival(s: seq<Process>) {
    forall k, l :: 0 <= k < l < |s| ==> s[k].arrival <= s[l].arrival
  }

  /** dst[k] is src[perm[k]], and processes with equal arrivals keep their relative order. */
  ghost predicate Arranged(src: seq<Process>, dst: seq<Process>, perm: seq<int>) {
    && |dst| == |src|
    && IsPermutation(perm, |src|)
    && (forall k :: 0 <= k < |dst| ==> dst[k] == src[perm[k]])
    && (forall k, l :: 0 <= k < l < |dst| && dst[k].arrival == dst[l].arrival ==> perm[k] < perm[l])
  }

  ghost predicate IsStableSortByArrival(src: seq<Process>, dst: seq<Process>) {
    SortedByArrival(dst) && exists perm :: Arranged(src, dst, perm)
  }

  lemma IdentityArranged(src: seq<Process>)
    ensures Arranged(src, src, seq(|src|, k => k))
  {
    var id := seq(|src|, k => k);
    forall i | 0 <= i < |src| ensures i in id {
      assert id[i] == i;
    }
  }

  /** Swapping two neighbours whose arrivals are strictly out of order keeps the arrangement stable. */
  lemma SwapArranged(src: seq<Process>, s: seq<Process>, perm: seq<int>, j: nat)
    requires Arranged(src, s, perm)
    requires j + 1 < |s| && s[j].arrival > s[j + 1].arrival
    ensures Arranged(src, Swap(s, j), Swap(perm, j))
  {
    var s', p' := Swap(s, j), Swap(perm, j);
    forall i | 0 <= i < |s| ensures i in p' {
      assert i in perm;
      var k :| 0 <= k < |perm| && perm[k] == i;
      var k' := if k == j then j + 1 else if k == j + 1 then j else k;
      assert p'[k'] == i;
    }
    forall k, l | 0 <= k < l < |s'| && s'[k].arrival == s'[l].arrival
      ensures p'[k] < p'[l]
    {
      var ok := if k == j then j + 1 else if k == j + 1 then j else k;
      var ol := if l == j then j + 1 else if l == j + 1 then j else l;
      assert s'[k] == s[ok] && p'[k] == perm[ok];
      assert s'[l] == s[ol] && p'[l] == perm[ol];
      assert ok < ol;
    }
  }

  /** The last |s| - m slots hold the largest arrivals, in order. */
  predicate Settled(s: seq<Process>, m: int) {
    && (forall k, l :: 0 <= k && m <= k < l < |s| ==> s[k].arrival <= s[l].arrival)
    && (forall k, l :: 0 <= k < m <= l < |s| ==> s[k].arrival <= s[l].arrival)
  }

  /**
   * The two nested loops of the bubble sort in fcfs and round_robin: swaps
   * happen only on a strict '>', so equal arrivals keep their input order.
   */
  method SortByArrival(a: array<Process>) returns (ghost perm: seq<int>)
    modifies a
    ensures SortedByArrival(a[..])
    ensures Arranged(old(a[..]), a[..], perm)
  {
    ghost var src := a[..];
    var n := a.Length;
    IdentityArranged(src);
    perm := seq(n, k => k);
    var i := 0;
    while i < n - 1
      invariant 0 <= i && (n > 0 ==> i <= n - 1)
      invariant Arranged(src, a[..], perm)
      invariant Settled(a[..], n - i)
    {
      perm := BubblePass(a, n - i, src, perm);
      i := i + 1;
    }
  }

  /** One pass of the inner loop: carries the largest arrival of a[..m] to a[m - 1]. */
  method BubblePass(a: array<Process>, m: int, ghost src: seq<Process>, ghost perm: seq<int>)
    returns (ghost perm': seq<int>)
    requires 2 <= m <= a.Length
    requires Arranged(src, a[..], perm) && Settled(a[..], m)
    modifies a
    ensures Arranged(src, a[..], perm') && Settled(a[..], m - 1)
  {
    perm' := perm;
    ghost var cur := a[..];
    var j := 0;
    while j < m - 1
      invariant 0 <= j <= m - 1
      invariant a[..] == cur
      invariant PassInvariant(src, cur, perm', m, j)
    {
      ghost var next, perm2 := cur, perm';
      if a[j].arrival > a[j + 1].arrival {
        a[j], a[j + 1] := a[j + 1], a[j];
        next, perm2 := Swap(cur, j), Swap(perm', j);
      }
      PassStep(src, cur, perm', m, j, next, perm2);
      cur, perm' := next, perm2;
      j := j + 1;
    }
    PassDone(src, cur, perm', m);
  }

  /** After j comparisons of a pass over s[..m]: s[j] holds the largest arrival of s[..j + 1]. */
  ghost predicate PassInvariant(src: seq<Process>, s: seq<Process>, perm: seq<int>, m: int, j: int) {
    && 0 <= j < m <= |s|
    && Arranged(src, s, perm) && Settled(s, m)
    && forall k :: 0 <= k <= j ==> s[k].arrival <= s[j].arrival
  }

  /** One comparison of the inner loop, swapping on a strict '>', keeps the pass's invariant. */
  lemma PassStep(src: seq<Process>, s: seq<Process>, perm: seq<int>, m: int, j: int,
                 s': seq<Process>, perm': seq<int>)
    requires PassInvariant(src, s, perm, m, j) && j < m - 1
    requires s[j].arrival > s[j + 1].arrival ==> s' == Swap(s, j) && perm' == Swap(perm, j)
    requires s[j].arrival <= s[j + 1].arrival ==> s' == s && perm' == perm
    ensures PassInvariant(src, s', perm', m, j + 1)
  {
    if s[j].arrival > s[j + 1].arrival {
      SwapArranged(src, s, perm, j);
    }
  }

  /** At the end of a pass s[m - 1] holds the largest arrival of s[..m]. */
  lemma PassDone(src: seq<Process>, s: seq<Process>, perm: seq<int>, m: int)
    requires PassInvariant(src, s, perm, m, m - 1)
    ensures Arranged(src, s, perm) && Settled(s, m - 1)
  {
  }

  /** i comes before j in a stable arrival sort of src. */
  predicate Precedes(src: seq<Process>, i: int, j: int)
    requires 0 <= i < |src| && 0 <= j < |src|
  {
    src[i].arrival < src[j].arrival || (src[i].arrival == src[j].arrival && i < j)
  }

  lemma ArrangedPrecedes(src: seq<Process>, dst: seq<Process>, perm: seq<int>, k: int, l: int)
    requires SortedByArrival(dst) && Arranged(src, dst, perm)
    requires 0 <= k < l < |dst|
    ensures Precedes(src, perm[k], perm[l])
  {
  }

  lemma {:induction false} PermutationsAgree(src: seq<Process>, b: seq<Process>, c: seq<Process>,
                                             p: seq<int>, q: seq<int>, k: nat)
    requires SortedByArrival(b) && Arranged(src, b, p)
    requires SortedByArrival(c) && Arranged(src, c, q)
    requires k <= |src|
    ensures forall j :: 0 <= j < k ==> p[j] == q[j]
  {
    if k > 0 {
      PermutationsAgree(src, b, c, p, q, k - 1);
      var j := k - 1;
      if p[j] != q[j] {
        assert p[j] in q && q[j] in p;
        var m :| 0 <= m < |q| && q[m] == p[j];
        var m' :| 0 <= m' < |p| && p[m'] == q[j];
        assert m >= j && m' >= j;
        ArrangedPrecedes(src, c, q, j, m);
        ArrangedPrecedes(src, b, p, j, m');
        assert false;
      }
    }
  }

  /**
   * A stable sort by arrival has exactly one possible outcome, so the bubble
   * sort above and Python's sorted(..., key=arrival) produce the same order.
   */
  lemma StableSortIsUnique(src: seq<Process>, b: seq<Process>, c: seq<Process>)
    requires IsStableSortByArrival(src, b) && IsStableSortByArrival(src, c)
    ensures b == c
  {
    var p :| Arranged(src, b, p);
    var q :| Arranged(src, c, q);
    PermutationsAgree(src, b, c, p, q, |src|);
  }

  /** Rearranging keeps ids distinct. */
  lemma ArrangedUniqueIds(src: seq<Process>, dst: seq<Process>, perm: seq<int>)
    requires Arranged(src, dst, perm) && UniqueIds(src)
    ensures UniqueIds(dst)
  {
    forall k, l | 0 <= k < l < |dst| ensures dst[k].id != dst[l].id {
      if perm[k] < perm[l] {
        assert src[perm[k]].id != src[perm[l]].id;
      } else {
        assert src[perm[l]].id != src[perm[k]].id;
      }
    }
  }
}
