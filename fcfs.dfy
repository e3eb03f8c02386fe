/*
 * First Come First Serve: the working set is stably sorted by arrival and
 * every process then runs to completion in that order.
 */
module Fcfs {
  import opened Types
  import opened WorkingSet

  const NAME: string := "FCFS (First Come First Serve)"

  /** The clock when the k-th process in dispatch order is considered: 0, then its predecessor's completion. */
  function FreeAt(s: seq<Process>, k: int): int
    requires 0 <= k <= |s|
  {
    if k == 0 then 0 else s[k - 1].completion
  }

  /** s[k] ran to completion as soon as both the CPU and the process were ready. */
  predicate ServedInTurn(s: seq<Process>, k: int)
    requires 0 <= k < |s|
  {
    && s[k].start == Max(FreeAt(s, k), s[k].arrival)
    && s[k].completion == s[k].start + s[k].burst
    && s[k].remaining == s[k].burst
    && Finished(s[k])
  }

  /** Every record is one whole process, written in the order of the array. */
  predicate OneRecordEach(s: seq<Process>, timeline: seq<ExecutionRecord>) {
    |timeline| == |s| && forall k :: 0 <= k < |s| ==> timeline[k] == RecordOf(s[k])
  }

  /**
   * The dispatch loop shared by fcfs and the Python _fcfs: the clock waits
   * for a late arrival, then jumps to the completion of each process.
   */
  method DispatchInOrder(a: array<Process>) returns (timeline: seq<ExecutionRecord>)
    requires forall k :: 0 <= k < a.Length ==> Pristine(a[k])
    modifies a
    ensures forall k :: 0 <= k < a.Length ==> SameDescriptor(a[k], old(a[k]))
    ensures forall k :: 0 <= k < a.Length ==> ServedInTurn(a[..], k)
    ensures OneRecordEach(a[..], timeline)
  {
    var t := 0;
    var i := 0;
    timeline := [];
    while i < a.Length
      invariant 0 <= i <= a.Length
      invariant t == FreeAt(a[..], i)
      invariant forall k :: 0 <= k < a.Length ==> SameDescriptor(a[k], old(a[k]))
      invariant forall k :: i <= k < a.Length ==> a[k] == old(a[k])
      invariant forall k :: 0 <= k < i ==> ServedInTurn(a[..], k)
      invariant |timeline| == i && forall k :: 0 <= k < i ==> timeline[k] == RecordOf(a[k])
    {
      ghost var before := a[..];
      if t < a[i].arrival {
        t := a[i].arrival;
      }
      RunToCompletionAt(a, i, t);
      timeline := timeline + [ExecutionRecord(a[i].id, t, a[i].completion)];
      ServedPrefixKept(before, a[..], i);
      t := a[i].completion;
      i := i + 1;
    }
  }

  /** Dispatching slot i leaves the served prefix before it as it was. */
  lemma ServedPrefixKept(s: seq<Process>, s': seq<Process>, i: int)
    requires 0 <= i < |s| == |s'|
    requires forall k :: 0 <= k < i ==> ServedInTurn(s, k)
    requires s'[..i] == s[..i]
    ensures forall k :: 0 <= k < i ==> ServedInTurn(s', k)
  {
    forall k | 0 <= k < i ensures ServedInTurn(s', k) {
      assert ServedInTurn(s, k);
      assert s'[k] == s'[..i][k] == s[..i][k] == s[k];
      if k > 0 {
        assert s'[k - 1] == s'[..i][k - 1] == s[..i][k - 1] == s[k - 1];
      }
    }
  }

  /** A finished in-turn schedule never starts a process early and never overlaps two records. */
  lemma ServedInTurnSound(s: seq<Process>, timeline: seq<ExecutionRecord>)
    requires forall k :: 0 <= k < |s| ==> ServedInTurn(s, k)
    requires OneRecordEach(s, timeline)
    ensures forall k :: 0 <= k < |s| ==> s[k].arrival <= s[k].start && s[k].waiting == s[k].start - s[k].arrival >= 0
    ensures forall k :: 0 < k < |timeline| ==> timeline[k - 1].end <= timeline[k].start
  {
    forall k | 0 <= k < |s| ensures s[k].arrival <= s[k].start && s[k].waiting == s[k].start - s[k].arrival {
      assert ServedInTurn(s, k);
    }
    forall k | 0 < k < |timeline| ensures timeline[k - 1].end <= timeline[k].start {
      assert ServedInTurn(s, k) && ServedInTurn(s, k - 1);
    }
  }

  /** The descriptors of a dispatched copy of a pristine array reset back to that array. */
  lemma ResetAfterDispatch(before: seq<Process>, after: seq<Process>)
    requires |before| == |after|
    requires forall k :: 0 <= k < |before| ==> Pristine(before[k]) && SameDescriptor(after[k], before[k])
    ensures ResetAll(after) == before
  {
    forall k | 0 <= k < |before| ensures ResetAll(after)[k] == before[k] {
      ResetCharacterised(after[k], before[k]);
    }
  }

  /** fcfs: copy and reset, bubble sort by arrival, then dispatch in that order. */
  method Fcfs(input: seq<Process>) returns (result: SchedulingResult)
    requires |input| <= MAX_PROCESSES
    ensures result.algorithm == NAME && result.stats == None
    ensures FcfsSchedule(input, result.processes, result.timeline)
    ensures forall k :: 0 <= k < |result.processes| ==> result.processes[k].waiting >= 0
    ensures forall k :: 0 < k < |result.timeline| ==> result.timeline[k - 1].end <= result.timeline[k].start
  {
    var work := CloneReset(input);
    ghost var perm := SortByArrival(work);
    ghost var sorted := work[..];
    var timeline := DispatchInOrder(work);
    ResetAfterDispatch(sorted, work[..]);
    ServedInTurnSound(work[..], timeline);
    result := SchedulingResult(NAME, work[..], timeline, None);
  }

  /** What fcfs returns for the input: its stably sorted copies, dispatched in turn, one record each. */
  ghost predicate FcfsSchedule(input: seq<Process>, processes: seq<Process>, timeline: seq<ExecutionRecord>) {
    && IsStableSortByArrival(ResetAll(input), ResetAll(processes))
    && (forall k :: 0 <= k < |processes| ==> ServedInTurn(processes, k))
    && OneRecordEach(processes, timeline)
  }

  /** Dispatching in turn leaves no choice: two such runs over the same jobs agree on every prefix. */
  lemma {:induction false} ServedInTurnUnique(s: seq<Process>, s': seq<Process>, k: nat)
    requires |s| == |s'| && k <= |s|
    requires forall j :: 0 <= j < |s| ==> SameDescriptor(s[j], s'[j])
    requires forall j :: 0 <= j < |s| ==> ServedInTurn(s, j) && ServedInTurn(s', j)
    ensures s[..k] == s'[..k]
  {
    if k > 0 {
      ServedInTurnUnique(s, s', k - 1);
      if k > 1 {
        assert s[k - 2] == s[..k - 1][k - 2] == s'[..k - 1][k - 2] == s'[k - 2];
      }
      assert ServedInTurn(s, k - 1) && ServedInTurn(s', k - 1);
      assert s[..k] == s[..k - 1] + [s[k - 1]];
      assert s'[..k] == s'[..k - 1] + [s'[k - 1]];
    }
  }

  /** fcfs is a function of its input: two outcomes it may produce are the same. */
  lemma FcfsDeterministic(input: seq<Process>, s: seq<Process>, timeline: seq<ExecutionRecord>,
                          s': seq<Process>, timeline': seq<ExecutionRecord>)
    requires FcfsSchedule(input, s, timeline) && FcfsSchedule(input, s', timeline')
    ensures s == s' && timeline == timeline'
  {
    StableSortIsUnique(ResetAll(input), ResetAll(s), ResetAll(s'));
    forall j | 0 <= j < |s| ensures SameDescriptor(s[j], s'[j]) {
      assert ResetAll(s)[j] == ResetAll(s')[j];
    }
    ServedInTurnUnique(s, s', |s|);
    assert s == s[..|s|] && s' == s'[..|s'|];
  }
}
