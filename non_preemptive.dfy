/*
 * The run-to-completion selection loop of sjf_non_preemptive and
 * priority_non_preemptive (and of the Python _sjf_np and _priority_np): scan
 * for the best arrived process; if there is none, advance the clock one tick;
 * otherwise run the winner to completion in a single record.
 */
module NonPreemptive {
  import opened Types
  import opened WorkingSet
  import opened Selection

  /** The clock when the k-th dispatch is looked for: 0, then the previous completion. */
  function ClockBefore(s: seq<Process>, order: seq<int>, k: int): int
    requires 0 <= k <= |order|
    requires forall m :: 0 <= m < |order| ==> 0 <= order[m] < |s|
  {
    if k == 0 then 0 else s[order[k - 1]].completion
  }

  /**
   * The k-th dispatch, order[k], of a run over the pristine set s0:
   *  - it starts no earlier than the clock, and only after it arrived;
   *  - it starts later than the clock only when nothing still waiting had arrived before;
   *  - at its start it beats every other waiting process that has arrived;
   *  - it runs for its whole burst in one record and ends finished.
   */
  ghost predicate Dispatched(s0: seq<Process>, s: seq<Process>, timeline: seq<ExecutionRecord>,
                             order: seq<int>, key: Key, k: int)
    requires |s| == |s0| && 0 <= k < |order| && k < |timeline|
    requires forall m :: 0 <= m < |order| ==> 0 <= order[m] < |s|
  {
    var i := order[k];
    var start := s[i].start;
    && ClockBefore(s, order, k) <= start
    && s0[i].arrival <= start
    && (ClockBefore(s, order, k) < start ==>
          forall j :: 0 <= j < |s0| && j !in order[..k] ==> start <= s0[j].arrival)
    && (forall j :: 0 <= j < |s0| && j !in order[..k] && s0[j].arrival <= start ==> Beats(s0, key, i, j))
    && s[i].completion == start + s[i].burst
    && s[i].remaining == s[i].burst
    && Finished(s[i])
    && timeline[k] == RecordOf(s[i])
  }

  /** The whole outcome of a non-preemptive run: every process dispatched once, one record each. */
  ghost predicate NonPreemptiveSchedule(s0: seq<Process>, s: seq<Process>, timeline: seq<ExecutionRecord>,
                                        order: seq<int>, key: Key)
  {
    && |s| == |s0| && |timeline| == |s0|
    && IsPermutation(order, |s0|)
    && (forall j :: 0 <= j < |s| ==> SameDescriptor(s[j], s0[j]))
    && (forall k :: 0 <= k < |order| ==> Dispatched(s0, s, timeline, order, key, k))
  }

  /** Key fields the non-preemptive loops compare: fixed for the whole run. */
  predicate DescriptorKey(key: Key) {
    key == ByBurst || key == ByPriority
  }

  /** The loop's invariant after `done` dispatches, with the clock at t. */
  ghost predicate Progress(s0: seq<Process>, s: seq<Process>, timeline: seq<ExecutionRecord>,
                           order: seq<int>, key: Key, t: int)
  {
    && |s| == |s0| && |timeline| == |order| <= |s0|
    && |order| == CountCompleted(s)
    && (forall m :: 0 <= m < |order| ==> 0 <= order[m] < |s0|)
    && (forall m, l :: 0 <= m < l < |order| ==> order[m] != order[l])
    && (forall j :: 0 <= j < |s| ==> (s[j].completed <==> j in order))
    && (forall j :: 0 <= j < |s| && j !in order ==> s[j] == s0[j])
    && (forall j :: 0 <= j < |s| ==> SameDescriptor(s[j], s0[j]))
    && (forall k :: 0 <= k < |order| ==> Dispatched(s0, s, timeline, order, key, k))
    && ClockBefore(s, order, |order|) <= t
    && (ClockBefore(s, order, |order|) < t ==> forall j :: 0 <= j < |s0| && j !in order ==> t <= s0[j].arrival)
  }

  lemma ProgressInit(s0: seq<Process>, key: Key)
    requires forall j :: 0 <= j < |s0| ==> Pristine(s0[j])
    ensures Progress(s0, s0, [], [], key, 0)
  {
    CountCompletedNone(s0);
  }

  /** An idle tick: nothing waiting has arrived by t, so it arrives at t + 1 or later. */
  lemma ProgressIdle(s0: seq<Process>, s: seq<Process>, timeline: seq<ExecutionRecord>,
                     order: seq<int>, key: Key, t: int)
    requires Progress(s0, s, timeline, order, key, t)
    requires forall j :: 0 <= j < |s| ==> !Eligible(s[j], t, NotCompleted)
    ensures Progress(s0, s, timeline, order, key, t + 1)
    ensures |order| < |s0| ==> t < MaxArrival(s0)
  {
    if |order| < |s0| {
      var j :| 0 <= j < |s| && !s[j].completed;
      assert t < s0[j].arrival <= MaxArrival(s0);
    }
  }

  /** Dispatching a process not yet in `order` leaves the earlier dispatches as they were. */
  lemma DispatchedKept(s0: seq<Process>, s: seq<Process>, timeline: seq<ExecutionRecord>, order: seq<int>,
                       s': seq<Process>, timeline': seq<ExecutionRecord>, order': seq<int>, key: Key, i: int)
    requires |s| == |s0| && |timeline| == |order|
    requires forall m :: 0 <= m < |order| ==> 0 <= order[m] < |s0|
    requires 0 <= i < |s| && i !in order
    requires |s'| == |s| && s' == s[i := s'[i]]
    requires order' == order + [i] && |timeline'| == |order'| && timeline'[..|order|] == timeline
    requires forall k :: 0 <= k < |order| ==> Dispatched(s0, s, timeline, order, key, k)
    ensures forall k :: 0 <= k < |order| ==> Dispatched(s0, s', timeline', order', key, k)
  {
    forall k | 0 <= k < |order| ensures Dispatched(s0, s', timeline', order', key, k) {
      assert Dispatched(s0, s, timeline, order, key, k);
      assert order'[..k] == order[..k];
      assert timeline'[k] == timeline[k];
      assert s'[order[k]] == s[order[k]];
      if k > 0 {
        assert s'[order[k - 1]] == s[order[k - 1]];
      }
    }
  }

  /** The process the scan chose at t, run to completion, is a valid next dispatch. */
  lemma DispatchedNext(s0: seq<Process>, s: seq<Process>, timeline: seq<ExecutionRecord>,
                       order: seq<int>, key: Key, t: int, i: int)
    requires Progress(s0, s, timeline, order, key, t)
    requires 0 <= i < |s| && Chosen(s, t, key, NotCompleted, i)
    requires forall j :: 0 <= j < |s0| ==> Pristine(s0[j])
    ensures var s' := s[i := RunToCompletion(s[i], t)];
      Dispatched(s0, s', timeline + [RecordOf(s'[i])], order + [i], key, |order|)
  {
    var s' := s[i := RunToCompletion(s[i], t)];
    var order' := order + [i];
    var done := |order|;
    assert s[i] == s0[i];
    assert order'[..done] == order;
    assert ClockBefore(s', order', done) == ClockBefore(s, order, done) by {
      if done > 0 {
        assert s'[order[done - 1]] == s[order[done - 1]];
      }
    }
    forall j | 0 <= j < |s0| && j !in order && s0[j].arrival <= t ensures Beats(s0, key, i, j) {
      assert s[j] == s0[j];
    }
  }

  /** After dispatching the scan's choice, every dispatch so far, old and new, is valid. */
  lemma DispatchedExtend(s0: seq<Process>, s: seq<Process>, timeline: seq<ExecutionRecord>,
                         order: seq<int>, key: Key, t: int, i: int,
                         s': seq<Process>, timeline': seq<ExecutionRecord>, order': seq<int>)
    requires Progress(s0, s, timeline, order, key, t)
    requires 0 <= i < |s| && Chosen(s, t, key, NotCompleted, i)
    requires forall j :: 0 <= j < |s0| ==> Pristine(s0[j])
    requires s' == s[i := RunToCompletion(s[i], t)]
    requires order' == order + [i] && timeline' == timeline + [RecordOf(s'[i])]
    ensures forall m :: 0 <= m < |order'| ==> 0 <= order'[m] < |s0|
    ensures forall k :: 0 <= k < |order'| ==> Dispatched(s0, s', timeline', order', key, k)
  {
    assert i !in order;
    DispatchedKept(s0, s, timeline, order, s', timeline', order', key, i);
    DispatchedNext(s0, s, timeline, order, key, t, i);
  }

  /** A dispatch at t of the process the scan chose: s', timeline', order' and t' are the state after it. */
  lemma ProgressDispatch(s0: seq<Process>, s: seq<Process>, timeline: seq<ExecutionRecord>,
                         order: seq<int>, key: Key, t: int, i: int,
                         s': seq<Process>, timeline': seq<ExecutionRecord>, order': seq<int>, t': int)
    requires Progress(s0, s, timeline, order, key, t)
    requires 0 <= i < |s| && Chosen(s, t, key, NotCompleted, i)
    requires forall j :: 0 <= j < |s0| ==> Pristine(s0[j])
    requires s' == s[i := RunToCompletion(s[i], t)] && t' == t + s[i].burst
    requires order' == order + [i] && timeline' == timeline + [RecordOf(s'[i])]
    ensures Progress(s0, s', timeline', order', key, t')
  {
    assert i !in order;
    CountCompletedUpdate(s, i, s'[i]);
    DispatchedExtend(s0, s, timeline, order, key, t, i, s', timeline', order');
    OrderKept(s0, s, order, i, s', order');
    assert ClockBefore(s', order', |order'|) == t';
  }

  /** Marking i completed and appending it to the order keeps the order's bookkeeping. */
  lemma OrderKept(s0: seq<Process>, s: seq<Process>, order: seq<int>, i: int, s': seq<Process>, order': seq<int>)
    requires |s| == |s0| == |s'| && 0 <= i < |s| && i !in order && s'[i].completed
    requires forall j :: 0 <= j < |s| && j != i ==> s'[j] == s[j]
    requires forall m, l :: 0 <= m < l < |order| ==> order[m] != order[l]
    requires forall j :: 0 <= j < |s| ==> (s[j].completed <==> j in order)
    requires forall j :: 0 <= j < |s| && j !in order ==> s[j] == s0[j]
    requires order' == order + [i]
    ensures forall m, l :: 0 <= m < l < |order'| ==> order'[m] != order'[l]
    ensures forall j :: 0 <= j < |s'| ==> (s'[j].completed <==> j in order')
    ensures forall j :: 0 <= j < |s'| && j !in order' ==> s'[j] == s0[j]
  {
    forall j | 0 <= j < |s'| ensures s'[j].completed <==> j in order' {
      if j != i {
        assert j in order' <==> j in order;
      }
    }
    forall m, l | 0 <= m < l < |order'| ensures order'[m] != order'[l] {
      if l == |order| {
        assert order'[m] == order[m] && order[m] in order;
      }
    }
  }

  /**
   * Runs the loop over the working array a (already copied and reset). With
   * every key under the scan's starting bound the loop ends; `order` is the
   * dispatch order.
   */
  method RunNonPreemptive(a: array<Process>, key: Key, engine: Engine)
    returns (timeline: seq<ExecutionRecord>, ghost order: seq<int>)
    requires DescriptorKey(key)
    requires forall j :: 0 <= j < a.Length ==> Pristine(a[j]) && UnderLimit(KeyOf(a[j], key), LimitOf(engine))
    modifies a
    ensures NonPreemptiveSchedule(old(a[..]), a[..], timeline, order, key)
  {
    ghost var s0 := a[..];
    var n := a.Length;
    ghost var horizon := if n == 0 then 0 else MaxArrival(s0);
    var t := 0;
    var done := 0;
    timeline := [];
    order := [];
    ghost var cur := s0;
    ProgressInit(s0, key);
    while done < n
      invariant done == |order| && a[..] == cur
      invariant Progress(s0, cur, timeline, order, key, t)
      decreases n - done, horizon - t
    {
      var idx := Scan(a, t, key, NotCompleted, LimitOf(engine));
      if idx == -1 {
        NothingUnderLimit(cur, t, key, NotCompleted, LimitOf(engine));
        ProgressIdle(s0, cur, timeline, order, key, t);
        t := t + 1;
      } else {
        RunToCompletionAt(a, idx, t);
        ghost var cur' := cur[idx := RunToCompletion(cur[idx], t)];
        var timeline' := timeline + [ExecutionRecord(a[idx].id, t, a[idx].completion)];
        ProgressDispatch(s0, cur, timeline, order, key, t, idx, cur', timeline', order + [idx], a[idx].completion);
        cur, timeline, order := cur', timeline', order + [idx];
        t := a[idx].completion;
        done := done + 1;
      }
    }
    ProgressComplete(s0, cur, timeline, order, key, t);
  }

  /** When every process has been dispatched, the run is a complete schedule. */
  lemma ProgressComplete(s0: seq<Process>, s: seq<Process>, timeline: seq<ExecutionRecord>,
                         order: seq<int>, key: Key, t: int)
    requires Progress(s0, s, timeline, order, key, t) && |order| == |s0|
    ensures NonPreemptiveSchedule(s0, s, timeline, order, key)
  {
    forall j | 0 <= j < |s0| ensures j in order {
      assert s[j].completed;
    }
  }

  /** i is dispatched at some position of order. */
  lemma PositionOf(order: seq<int>, n: nat, i: int) returns (k: int)
    requires IsPermutation(order, n) && 0 <= i < n
    ensures 0 <= k < n && order[k] == i
  {
    assert i in order;
    k :| 0 <= k < |order| && order[k] == i;
  }

  /**
   * Nobody starts before arriving, waiting is start - arrival, and the
   * records follow each other without overlapping.
   */
  lemma NonPreemptiveSound(s0: seq<Process>, s: seq<Process>, timeline: seq<ExecutionRecord>,
                           order: seq<int>, key: Key)
    requires NonPreemptiveSchedule(s0, s, timeline, order, key)
    ensures forall j :: 0 <= j < |s| ==>
      s[j].arrival <= s[j].start && s[j].waiting == s[j].start - s[j].arrival >= 0
    ensures forall k :: 0 < k < |timeline| ==> timeline[k - 1].end <= timeline[k].start
  {
    forall j | 0 <= j < |s| ensures s[j].arrival <= s[j].start && s[j].waiting == s[j].start - s[j].arrival {
      var k := PositionOf(order, |s0|, j);
      assert Dispatched(s0, s, timeline, order, key, k);
    }
    forall k | 0 < k < |timeline| ensures timeline[k - 1].end <= timeline[k].start {
      assert Dispatched(s0, s, timeline, order, key, k - 1);
      assert Dispatched(s0, s, timeline, order, key, k);
    }
  }

  /** The k-th dispatch of two complete schedules over the same input agree, given that the earlier ones do. */
  lemma DispatchAgrees(s0: seq<Process>, s: seq<Process>, timeline: seq<ExecutionRecord>, order: seq<int>,
                       s': seq<Process>, timeline': seq<ExecutionRecord>, order': seq<int>, key: Key, k: int)
    requires NonPreemptiveSchedule(s0, s, timeline, order, key)
    requires NonPreemptiveSchedule(s0, s', timeline', order', key)
    requires 0 <= k < |s0| && order[..k] == order'[..k]
    requires forall m :: 0 <= m < k ==> s[order[m]] == s'[order[m]]
    ensures order[k] == order'[k] && s[order[k]] == s'[order[k]]
  {
    var i, i' := order[k], order'[k];
    assert Dispatched(s0, s, timeline, order, key, k);
    assert Dispatched(s0, s', timeline', order', key, k);
    assert ClockBefore(s, order, k) == ClockBefore(s', order', k);
    assert i !in order[..k] by {
      forall m | 0 <= m < k ensures order[m] != i { }
    }
    assert i' !in order'[..k] by {
      forall m | 0 <= m < k ensures order'[m] != i' { }
    }
    assert s[i].start == s'[i'].start;
    assert Beats(s0, key, i, i') && Beats(s0, key, i', i);
  }

  lemma {:induction false} PrefixAgrees(s0: seq<Process>, s: seq<Process>, timeline: seq<ExecutionRecord>, order: seq<int>,
                                        s': seq<Process>, timeline': seq<ExecutionRecord>, order': seq<int>,
                                        key: Key, k: int)
    requires NonPreemptiveSchedule(s0, s, timeline, order, key)
    requires NonPreemptiveSchedule(s0, s', timeline', order', key)
    requires 0 <= k <= |s0|
    ensures order[..k] == order'[..k]
    ensures forall m :: 0 <= m < k ==> s[order[m]] == s'[order[m]]
  {
    if k > 0 {
      PrefixAgrees(s0, s, timeline, order, s', timeline', order', key, k - 1);
      DispatchAgrees(s0, s, timeline, order, s', timeline', order', key, k - 1);
      assert order[..k] == order[..k - 1] + [order[k - 1]];
      assert order'[..k] == order'[..k - 1] + [order'[k - 1]];
    }
  }

  /**
   * The description pins the run down: two complete schedules of the same
   * input under the same key are the same schedule.
   */
  lemma NonPreemptiveDeterministic(s0: seq<Process>, s: seq<Process>, timeline: seq<ExecutionRecord>, order: seq<int>,
                                   s': seq<Process>, timeline': seq<ExecutionRecord>, order': seq<int>, key: Key)
    requires NonPreemptiveSchedule(s0, s, timeline, order, key)
    requires NonPreemptiveSchedule(s0, s', timeline', order', key)
    ensures order == order' && s == s' && timeline == timeline'
  {
    PrefixAgrees(s0, s, timeline, order, s', timeline', order', key, |s0|);
    assert order == order[..|s0|];
    assert order' == order'[..|s0|];
    forall j | 0 <= j < |s| ensures s[j] == s'[j] {
      var k := PositionOf(order, |s0|, j);
    }
    forall k | 0 <= k < |timeline| ensures timeline[k] == timeline'[k] {
      assert Dispatched(s0, s, timeline, order, key, k);
      assert Dispatched(s0, s', timeline', order', key, k);
    }
  }
}
