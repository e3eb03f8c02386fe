/*
 * The tick-by-tick selection loop of sjf_preemptive (SRTF) and
 * priority_preemptive, and of the Python _sjf_p and _priority_p: every tick
 * the scan is re-run, the winner gets one unit of CPU, and the open timeline
 * record is closed when a different process wins or the running one
 * completes.
 *
 * The run is described by its trace: run[u] is the index of the process that
 * held the CPU during tick [u, u + 1), or -1 for an idle tick.
 */
module Preemptive {
  import opened Types
  import opened Selection

  function Ids(s: seq<Process>): (ids: seq<int>)
    ensures |ids| == |s| && forall j :: 0 <= j < |s| ==> ids[j] == s[j].id
  {
    seq(|s|, j requires 0 <= j < |s| => s[j].id)
  }

  /** Ticks granted to process j in the trace `run`. */
  function Granted(run: seq<int>, j: int): nat {
    multiset(run)[j]
  }

  /** The working set as the scan sees it once the ticks of `run` have been granted. */
  function View(s0: seq<Process>, run: seq<int>): (v: seq<Process>)
    ensures |v| == |s0|
    ensures forall j :: 0 <= j < |s0| ==>
      && SameDescriptor(v[j], s0[j])
      && v[j].remaining == s0[j].burst - Granted(run, j)
      && (v[j].completed <==> Granted(run, j) == s0[j].burst)
  {
    seq(|s0|, j requires 0 <= j < |s0| =>
      s0[j].(remaining := s0[j].burst - Granted(run, j), completed := Granted(run, j) == s0[j].burst))
  }

  /** Tick u of the trace follows the selection rule: idle only when nothing is eligible, otherwise the scan's choice. */
  ghost predicate TickRule(s0: seq<Process>, run: seq<int>, key: Key, u: int)
    requires 0 <= u < |run|
  {
    var v := View(s0, run[..u]);
    && -1 <= run[u] < |s0|
    && (run[u] == -1 ==> forall j :: 0 <= j < |v| ==> !Eligible(v[j], u, NotCompleted))
    && (run[u] != -1 ==> Chosen(v, u, key, NotCompleted, run[u]))
  }

  ghost predicate TraceFollowsRule(s0: seq<Process>, run: seq<int>, key: Key) {
    forall u :: 0 <= u < |run| ==> TickRule(s0, run, key, u)
  }

  /**
   * The records a trace produces: one per maximal stretch of consecutive ticks
   * of the same process; idle ticks produce none.
   */
  function Blocks(ids: seq<int>, run: seq<int>): (b: seq<ExecutionRecord>)
    ensures run != [] && 0 <= run[|run| - 1] < |ids| ==>
      b != [] && b[|b| - 1].pid == ids[run[|run| - 1]] && b[|b| - 1].end == |run|
    ensures |b| <= |run|
    decreases |run|
  {
    if run == [] then []
    else
      var r, x := run[..|run| - 1], run[|run| - 1];
      var b := Blocks(ids, r);
      if !(0 <= x < |ids|) then b
      else if r != [] && r[|r| - 1] == x then b[..|b| - 1] + [b[|b| - 1].(end := |run|)]
      else b + [ExecutionRecord(ids[x], |r|, |run|)]
  }

  /** u is the first tick of j in the trace. */
  predicate FirstTick(run: seq<int>, j: int, u: int) {
    0 <= u < |run| && run[u] == j && forall w :: 0 <= w < u ==> run[w] != j
  }

  /** u is the last tick of j in the trace. */
  predicate LastTick(run: seq<int>, j: int, u: int) {
    0 <= u < |run| && run[u] == j && forall w :: u < w < |run| ==> run[w] != j
  }

  /**
   * The whole outcome of a preemptive run over the pristine set s0: a trace
   * that follows the selection rule and grants every process exactly its
   * burst; each process starts at its first tick and completes after its
   * last; the timeline is the trace's blocks.
   */
  ghost predicate PreemptiveSchedule(s0: seq<Process>, s: seq<Process>, timeline: seq<ExecutionRecord>,
                                     run: seq<int>, key: Key)
  {
    && |s| == |s0|
    && TraceFollowsRule(s0, run, key)
    && (forall j :: 0 <= j < |s0| ==>
          && SameDescriptor(s[j], s0[j])
          && Granted(run, j) == s0[j].burst
          && s[j].remaining == 0
          && Finished(s[j])
          && FirstTick(run, j, s[j].start)
          && LastTick(run, j, s[j].completion - 1))
    && timeline == Blocks(Ids(s0), run)
    && (run == [] || run[|run| - 1] != -1)
  }

  /** What one granted tick at time t writes into the winner. */
  function TickOf(p: Process, t: int): (r: Process)
    ensures SameDescriptor(r, p) && r.remaining == p.remaining - 1
    ensures r.start == if p.start == -1 then t else p.start
    ensures r.remaining == 0 ==> r.completion == t + 1 && Finished(r)
    ensures r.remaining != 0 ==> r.completion == p.completion && r.completed == p.completed
  {
    var p1 := if p.start == -1 then p.(start := t) else p;
    var p2 := p1.(remaining := p1.remaining - 1);
    if p2.remaining == 0 then
      p2.(completion := t + 1, turnaround := t + 1 - p2.arrival,
          waiting := t + 1 - p2.arrival - p2.burst, completed := true)
    else p2
  }

  /** The tick of the slot a[i] at time t, field by field: first start, then remaining, then completion. */
  method TickAt(a: array<Process>, i: nat, t: int)
    requires i < a.Length
    modifies a
    ensures a[..] == old(a[..])[i := TickOf(old(a[i]), t)]
  {
    if a[i].start == -1 {
      a[i] := a[i].(start := t);
    }
    a[i] := a[i].(remaining := a[i].remaining - 1);
    if a[i].remaining == 0 {
      a[i] := a[i].(completion := t + 1);
      a[i] := a[i].(turnaround := a[i].completion - a[i].arrival);
      a[i] := a[i].(waiting := a[i].turnaround - a[i].burst, completed := true);
    }
  }

  /** The per-process half of the loop invariant, after the ticks of `run`. */
  ghost predicate ProcessesTrack(s0: seq<Process>, s: seq<Process>, run: seq<int>) {
    && |s| == |s0|
    && forall j :: 0 <= j < |s0| ==>
      && SameDescriptor(s[j], s0[j])
      && s[j].remaining == s0[j].burst - Granted(run, j) >= 0
      && (s[j].completed <==> s[j].remaining == 0)
      && (Granted(run, j) == 0 ==> s[j].start == -1)
      && (Granted(run, j) > 0 ==> FirstTick(run, j, s[j].start))
      && (s[j].completed ==> Finished(s[j]) && LastTick(run, j, s[j].completion - 1))
  }

  /**
   * The timeline half: with no open record the written records are the
   * trace's blocks (and the last tick, if any, was idle or completed its
   * process); with an open record [lastStart, now) of `last` they are the
   * blocks but that last one.
   */
  ghost predicate TimelineTracks(s0: seq<Process>, s: seq<Process>, run: seq<int>,
                                 timeline: seq<ExecutionRecord>, last: int, lastStart: int)
    requires |s| == |s0|
  {
    && (last == -1 ==>
          && Blocks(Ids(s0), run) == timeline
          && (run != [] && 0 <= run[|run| - 1] < |s| ==> s[run[|run| - 1]].completed))
    && (last != -1 ==>
          && 0 <= last < |s0| && !s[last].completed
          && 0 <= lastStart < |run| && run[|run| - 1] == last
          && Blocks(Ids(s0), run) == timeline + [ExecutionRecord(s0[last].id, lastStart, |run|)])
  }

  /** The scan sees the working set exactly as the trace's view describes it. */
  lemma ChosenInView(s0: seq<Process>, s: seq<Process>, run: seq<int>, t: int, key: Key, gate: Gate, i: int)
    requires ProcessesTrack(s0, s, run)
    requires 0 <= i < |s| && Chosen(s, t, key, gate, i)
    ensures Chosen(View(s0, run), t, key, NotCompleted, i)
  {
    var v := View(s0, run);
    forall j | 0 <= j < |v| && Eligible(v[j], t, NotCompleted) ensures Beats(v, key, i, j) {
      assert Eligible(s[j], t, gate);
      assert Beats(s, key, i, j);
    }
  }

  lemma IdleInView(s0: seq<Process>, s: seq<Process>, run: seq<int>, t: int, gate: Gate)
    requires ProcessesTrack(s0, s, run)
    requires forall j :: 0 <= j < |s| ==> !Eligible(s[j], t, gate)
    ensures forall j :: 0 <= j < |s0| ==> !Eligible(View(s0, run)[j], t, NotCompleted)
  {
    var v := View(s0, run);
    forall j | 0 <= j < |s0| ensures !Eligible(v[j], t, NotCompleted) {
      assert !Eligible(s[j], t, gate);
    }
  }

  /** Appending a tick that follows the rule keeps the whole trace following it. */
  lemma TraceExtend(s0: seq<Process>, run: seq<int>, key: Key, w: int)
    requires TraceFollowsRule(s0, run, key)
    requires -1 <= w < |s0|
    requires w == -1 ==> forall j :: 0 <= j < |s0| ==> !Eligible(View(s0, run)[j], |run|, NotCompleted)
    requires w != -1 ==> Chosen(View(s0, run), |run|, key, NotCompleted, w)
    ensures TraceFollowsRule(s0, run + [w], key)
  {
    var run' := run + [w];
    forall u | 0 <= u < |run'| ensures TickRule(s0, run', key, u) {
      assert run'[..u] == if u < |run| then run[..u] else run;
      if u < |run| {
        assert TickRule(s0, run, key, u);
      }
    }
  }

  lemma GrantedExtend(run: seq<int>, w: int, j: int)
    ensures Granted(run + [w], j) == Granted(run, j) + (if w == j then 1 else 0)
  {
    assert multiset(run + [w]) == multiset(run) + multiset{w};
  }

  /** An idle tick keeps the per-process invariant. */
  lemma ProcessesIdle(s0: seq<Process>, s: seq<Process>, run: seq<int>)
    requires ProcessesTrack(s0, s, run)
    ensures ProcessesTrack(s0, s, run + [-1])
  {
    var run' := run + [-1];
    forall j | 0 <= j < |s0|
      ensures Granted(run', j) == Granted(run, j)
      ensures Granted(run, j) > 0 ==> FirstTick(run', j, s[j].start)
      ensures s[j].completed ==> LastTick(run', j, s[j].completion - 1)
    {
      GrantedExtend(run, -1, j);
      if Granted(run, j) > 0 {
        assert FirstTick(run, j, s[j].start);
      }
      if s[j].completed {
        assert LastTick(run, j, s[j].completion - 1);
      }
    }
  }

  /** A tick granted to the eligible process i keeps the per-process invariant. */
  lemma ProcessesTick(s0: seq<Process>, s: seq<Process>, run: seq<int>, i: int)
    requires ProcessesTrack(s0, s, run)
    requires 0 <= i < |s| && !s[i].completed
    ensures ProcessesTrack(s0, s[i := TickOf(s[i], |run|)], run + [i])
  {
    var t := |run|;
    var s', run' := s[i := TickOf(s[i], t)], run + [i];
    forall j | 0 <= j < |s0|
      ensures SameDescriptor(s'[j], s0[j])
      ensures s'[j].remaining == s0[j].burst - Granted(run', j) >= 0
      ensures s'[j].completed <==> s'[j].remaining == 0
      ensures Granted(run', j) == 0 ==> s'[j].start == -1
      ensures Granted(run', j) > 0 ==> FirstTick(run', j, s'[j].start)
      ensures s'[j].completed ==> Finished(s'[j]) && LastTick(run', j, s'[j].completion - 1)
    {
      GrantedExtend(run, i, j);
      if j == i {
        if Granted(run, i) == 0 {
          assert i !in multiset(run);
          assert forall w :: 0 <= w < t ==> run[w] in multiset(run);
          assert FirstTick(run', i, t);
        } else {
          assert FirstTick(run, i, s[i].start);
        }
      } else {
        if Granted(run, j) > 0 {
          assert FirstTick(run, j, s[j].start);
        }
        if s[j].completed {
          assert LastTick(run, j, s[j].completion - 1);
        }
      }
    }
  }

  /** An idle tick, with no record open, leaves the timeline as the trace's blocks. */
  lemma TimelineIdle(s0: seq<Process>, s: seq<Process>, run: seq<int>, timeline: seq<ExecutionRecord>, lastStart: int)
    requires |s| == |s0| && TimelineTracks(s0, s, run, timeline, -1, lastStart)
    ensures TimelineTracks(s0, s, run + [-1], timeline, -1, lastStart)
  {
    assert (run + [-1])[..|run|] == run;
  }

  /**
   * A tick granted to the eligible process i: the record of a different
   * process still open is closed at t, a new one opens at t unless i already
   * held the CPU, and it is closed at t + 1 when i completes.
   */
  lemma TimelineTick(s0: seq<Process>, s: seq<Process>, run: seq<int>, timeline: seq<ExecutionRecord>,
                     last: int, lastStart: int, i: int, closed: seq<ExecutionRecord>,
                     timeline': seq<ExecutionRecord>, last': int, lastStart': int)
    requires ProcessesTrack(s0, s, run) && TimelineTracks(s0, s, run, timeline, last, lastStart)
    requires 0 <= i < |s| && !s[i].completed
    requires closed == if last != -1 && last != i
                       then timeline + [ExecutionRecord(Ids(s0)[last], lastStart, |run|)] else timeline
    requires lastStart' == if last != i then |run| else lastStart
    requires TickOf(s[i], |run|).remaining == 0 ==>
      last' == -1 && timeline' == closed + [ExecutionRecord(Ids(s0)[i], lastStart', |run| + 1)]
    requires TickOf(s[i], |run|).remaining != 0 ==> last' == i && timeline' == closed
    ensures TimelineTracks(s0, s[i := TickOf(s[i], |run|)], run + [i], timeline', last', lastStart')
  {
    var t := |run|;
    var run' := run + [i];
    assert run'[..t] == run;
    var ids := Ids(s0);
    var b := Blocks(ids, run);
    if t > 0 && run[t - 1] == i {
      assert last == i;
      assert Blocks(ids, run') == timeline + [ExecutionRecord(s0[i].id, lastStart, t + 1)];
    } else {
      assert Blocks(ids, run') == b + [ExecutionRecord(ids[i], t, t + 1)];
      if last != -1 {
        assert last != i;
      }
    }
  }

  /** The process whose record is open ran in the previous tick, so it has arrived and is still eligible. */
  lemma OpenRecordEligible(s0: seq<Process>, s: seq<Process>, run: seq<int>, timeline: seq<ExecutionRecord>,
                           last: int, lastStart: int, key: Key, gate: Gate)
    requires TraceFollowsRule(s0, run, key) && ProcessesTrack(s0, s, run)
    requires TimelineTracks(s0, s, run, timeline, last, lastStart) && last != -1
    ensures 0 <= last < |s| && Eligible(s[last], |run|, gate)
  {
    assert TickRule(s0, run, key, |run| - 1);
  }

  /**
   * What the scan's answer means inside the loop: -1 only when nothing is
   * eligible at all, and then no record is open.
   */
  lemma ScanOutcome(s0: seq<Process>, s: seq<Process>, run: seq<int>, timeline: seq<ExecutionRecord>,
                    last: int, lastStart: int, key: Key, gate: Gate, limit: Option<int>, done: int, idx: int)
    requires Tracking(s0, s, run, timeline, last, lastStart, key, done)
    requires forall j :: 0 <= j < |s0| ==> Pristine(s0[j]) && UnderLimit(KeyOf(s0[j], key), limit)
    requires -1 <= idx < |s|
    requires idx == -1 <==> forall j :: 0 <= j < |s| && Eligible(s[j], |run|, gate) ==> !UnderLimit(KeyOf(s[j], key), limit)
    ensures idx == -1 ==> last == -1 && forall j :: 0 <= j < |s| ==> !Eligible(s[j], |run|, gate)
  {
    KeysStayUnder(s0, s, run, key, limit);
    if last != -1 {
      OpenRecordEligible(s0, s, run, timeline, last, lastStart, key, gate);
    }
  }

  /** Keys never grow during a run, so a bound on the initial keys holds throughout. */
  lemma KeysStayUnder(s0: seq<Process>, s: seq<Process>, run: seq<int>, key: Key, limit: Option<int>)
    requires ProcessesTrack(s0, s, run)
    requires forall j :: 0 <= j < |s0| ==> Pristine(s0[j]) && UnderLimit(KeyOf(s0[j], key), limit)
    ensures forall j :: 0 <= j < |s| ==> UnderLimit(KeyOf(s[j], key), limit)
  {
  }

  /** Once every process is done, the loop's invariant is the complete schedule. */
  lemma Finish(s0: seq<Process>, s: seq<Process>, run: seq<int>, timeline: seq<ExecutionRecord>,
               last: int, lastStart: int, key: Key, done: int)
    requires Tracking(s0, s, run, timeline, last, lastStart, key, done) && done == |s0|
    requires forall j :: 0 <= j < |s0| ==> s0[j].burst > 0
    ensures PreemptiveSchedule(s0, s, timeline, run, key)
  {
    assert forall j :: 0 <= j < |s| ==> s[j].completed;
  }

  /**
   * One granted tick of process idx at time t: close the open record of a
   * different process, open one for idx, run idx for a tick, and close its
   * record if that completed it.
   */
  method GrantTick(a: array<Process>, idx: int, t: int, engine: Engine, timeline: seq<ExecutionRecord>,
                   last: int, lastStart: int, done: int, ghost ids: seq<int>)
    returns (timeline': seq<ExecutionRecord>, last': int, lastStart': int, done': int,
             ghost closed: seq<ExecutionRecord>)
    requires 0 <= idx < a.Length == |ids| && forall j :: 0 <= j < a.Length ==> a[j].id == ids[j]
    requires last != -1 ==> 0 <= last < a.Length && lastStart < t
    modifies a
    ensures a[..] == old(a[..])[idx := TickOf(old(a[idx]), t)]
    ensures closed == if last != -1 && last != idx
                      then timeline + [ExecutionRecord(ids[last], lastStart, t)] else timeline
    ensures lastStart' == if last != idx then t else lastStart
    ensures TickOf(old(a[idx]), t).remaining == 0 ==>
      last' == -1 && done' == done + 1 && timeline' == closed + [ExecutionRecord(ids[idx], lastStart', t + 1)]
    ensures TickOf(old(a[idx]), t).remaining != 0 ==> last' == idx && done' == done && timeline' == closed
  {
    timeline', last', lastStart', done' := timeline, last, lastStart, done;
    if last' != idx {
      // The Python loops also test current_time > last_start, which always holds here.
      if last' != -1 && (engine == Cpp || t > lastStart') {
        timeline' := timeline' + [ExecutionRecord(a[last'].id, lastStart', t)];
      }
      lastStart' := t;
      last' := idx;
    }
    closed := timeline';
    TickAt(a, idx, t);
    if a[idx].remaining == 0 {
      done' := done' + 1;
      timeline' := timeline' + [ExecutionRecord(a[idx].id, lastStart', t + 1)];
      last' := -1;
    }
  }

  /** The loop invariant: the trace so far, the working set and the timeline agree. */
  ghost predicate Tracking(s0: seq<Process>, s: seq<Process>, run: seq<int>, timeline: seq<ExecutionRecord>,
                           last: int, lastStart: int, key: Key, done: int)
  {
    && TraceFollowsRule(s0, run, key)
    && ProcessesTrack(s0, s, run)
    && TimelineTracks(s0, s, run, timeline, last, lastStart)
    && done == CountCompleted(s)
    && (run != [] && run[|run| - 1] == -1 ==> done < |s0|)
  }

  function GateOf(engine: Engine): Gate {
    if engine == Cpp then NotCompleted else RemainingLeft
  }

  /** The invariant after a tick granted to the scan's choice idx, with the records GrantTick wrote. */
  lemma TickTracking(s0: seq<Process>, s: seq<Process>, run: seq<int>, timeline: seq<ExecutionRecord>,
                     last: int, lastStart: int, key: Key, gate: Gate, done: int, idx: int,
                     closed: seq<ExecutionRecord>, timeline': seq<ExecutionRecord>, last': int, lastStart': int, done': int)
    requires Tracking(s0, s, run, timeline, last, lastStart, key, done)
    requires 0 <= idx < |s| && Chosen(s, |run|, key, gate, idx)
    requires closed == if last != -1 && last != idx
                       then timeline + [ExecutionRecord(Ids(s0)[last], lastStart, |run|)] else timeline
    requires lastStart' == if last != idx then |run| else lastStart
    requires TickOf(s[idx], |run|).remaining == 0 ==>
      last' == -1 && done' == done + 1 && timeline' == closed + [ExecutionRecord(Ids(s0)[idx], lastStart', |run| + 1)]
    requires TickOf(s[idx], |run|).remaining != 0 ==> last' == idx && done' == done && timeline' == closed
    ensures Tracking(s0, s[idx := TickOf(s[idx], |run|)], run + [idx], timeline', last', lastStart', key, done')
    ensures Total(s[idx := TickOf(s[idx], |run|)], RemainingOf) < Total(s, RemainingOf)
  {
    var t := |run|;
    ChosenInView(s0, s, run, t, key, gate, idx);
    TraceExtend(s0, run, key, idx);
    ProcessesTick(s0, s, run, idx);
    CountCompletedUpdate(s, idx, TickOf(s[idx], t));
    TotalUpdate(s, idx, TickOf(s[idx], t), RemainingOf);
    TimelineTick(s0, s, run, timeline, last, lastStart, idx, closed, timeline', last', lastStart');
  }

  /** One iteration of the loop in which nothing was eligible. */
  lemma IdleStep(s0: seq<Process>, s: seq<Process>, run: seq<int>, timeline: seq<ExecutionRecord>,
                 lastStart: int, key: Key, gate: Gate, done: int)
    requires Tracking(s0, s, run, timeline, -1, lastStart, key, done) && done < |s0|
    requires forall j :: 0 <= j < |s| ==> !Eligible(s[j], |run|, gate)
    ensures Tracking(s0, s, run + [-1], timeline, -1, lastStart, key, done)
    ensures done < |s0| ==> |run| < MaxArrival(s0)
  {
    IdleInView(s0, s, run, |run|, gate);
    TraceExtend(s0, run, key, -1);
    ProcessesIdle(s0, s, run);
    TimelineIdle(s0, s, run, timeline, lastStart);
    if done < |s0| {
      var j :| 0 <= j < |s| && !s[j].completed;
      assert |run| < s0[j].arrival <= MaxArrival(s0);
    }
  }

  /** Before the first tick: an empty trace, an untouched working set, no records. */
  lemma TrackingInit(s0: seq<Process>, key: Key)
    requires forall j :: 0 <= j < |s0| ==> Pristine(s0[j]) && s0[j].burst > 0
    ensures Tracking(s0, s0, [], [], -1, 0, key, 0)
  {
    CountCompletedNone(s0);
  }

  /**
   * One iteration of the loop at time t == |run|: scan, then either an idle
   * tick or a tick granted to the scan's choice. The working set's remaining
   * times shrink, or they stay and the clock moves towards the last arrival.
   */
  method Step(a: array<Process>, t: int, key: Key, engine: Engine, timeline: seq<ExecutionRecord>,
              last: int, lastStart: int, done: int, ghost s0: seq<Process>, ghost run: seq<int>)
    returns (timeline': seq<ExecutionRecord>, last': int, lastStart': int, done': int, ghost idx: int)
    requires t == |run| && done < |s0|
    requires forall j :: 0 <= j < |s0| ==> Pristine(s0[j]) && UnderLimit(KeyOf(s0[j], key), LimitOf(engine))
    requires Tracking(s0, a[..], run, timeline, last, lastStart, key, done)
    modifies a
    ensures Tracking(s0, a[..], run + [idx], timeline', last', lastStart', key, done')
    ensures Total(a[..], RemainingOf) < Total(old(a[..]), RemainingOf)
         || (a[..] == old(a[..]) && t < MaxArrival(s0))
  {
    ghost var cur := a[..];
    var i := Scan(a, t, key, GateOf(engine), LimitOf(engine));
    // The source closes an open record when nothing is eligible; that branch
    // cannot be taken, since the process holding the record is still eligible.
    ScanOutcome(s0, cur, run, timeline, last, lastStart, key, GateOf(engine), LimitOf(engine), done, i);
    idx := i;
    if i == -1 {
      IdleStep(s0, cur, run, timeline, lastStart, key, GateOf(engine), done);
      timeline', last', lastStart', done' := timeline, last, lastStart, done;
    } else {
      ghost var closed;
      timeline', last', lastStart', done', closed := GrantTick(a, i, t, engine, timeline, last, lastStart, done, Ids(s0));
      TickTracking(s0, cur, run, timeline, last, lastStart, key, GateOf(engine), done, i,
                   closed, timeline', last', lastStart', done');
    }
  }

  /**
   * Runs the loop over the working array a (already copied and reset). Every
   * burst must be positive: the loop only stops once every remaining time has
   * reached 0.
   */
  method RunPreemptive(a: array<Process>, key: Key, engine: Engine)
    returns (timeline: seq<ExecutionRecord>, ghost run: seq<int>)
    requires forall j :: 0 <= j < a.Length ==>
      Pristine(a[j]) && a[j].burst > 0 && UnderLimit(KeyOf(a[j], key), LimitOf(engine))
    modifies a
    ensures PreemptiveSchedule(old(a[..]), a[..], timeline, run, key)
  {
    ghost var s0 := a[..];
    var n := a.Length;
    ghost var horizon := if n == 0 then 0 else MaxArrival(s0);
    var t := 0;
    var done := 0;
    var last := -1;
    var lastStart := 0;
    timeline := [];
    run := [];
    TrackingInit(s0, key);
    ghost var cur := s0;
    while done < n
      invariant t == |run| && a[..] == cur
      invariant Tracking(s0, cur, run, timeline, last, lastStart, key, done)
      decreases Total(cur, RemainingOf), horizon - t
    {
      TotalNonNegative(cur, RemainingOf);
      ghost var idx;
      timeline, last, lastStart, done, idx := Step(a, t, key, engine, timeline, last, lastStart, done, s0, run);
      cur := a[..];
      t := t + 1;
      run := run + [idx];
    }
    Finish(s0, cur, run, timeline, last, lastStart, key, done);
  }

  /** Every occurrence of j in run lies in [lo, hi], so j occurs at most hi - lo + 1 times. */
  lemma {:induction false} GrantedWithin(run: seq<int>, j: int, lo: int, hi: int)
    requires 0 <= lo && hi < |run|
    requires forall w :: 0 <= w < |run| && run[w] == j ==> lo <= w <= hi
    ensures Granted(run, j) <= if lo <= hi then hi - lo + 1 else 0
    decreases |run|
  {
    if run != [] {
      var r := run[..|run| - 1];
      assert run == r + [run[|run| - 1]];
      GrantedExtend(r, run[|run| - 1], j);
      if run[|run| - 1] == j {
        assert lo <= |run| - 1 <= hi;
        if hi == |run| - 1 && lo <= hi - 1 {
          GrantedWithin(r, j, lo, hi - 1);
        } else {
          assert forall w :: 0 <= w < |r| ==> r[w] != j;
          GrantedWithin(r, j, 0, -1);
        }
      } else if hi < |r| {
        GrantedWithin(r, j, lo, hi);
      } else if lo <= |r| - 1 {
        GrantedWithin(r, j, lo, |r| - 1);
      } else {
        GrantedWithin(r, j, 0, -1);
      }
    }
  }

  /**
   * Nobody runs before arriving, every process spends at least its burst
   * between its start and its completion, so waiting is never negative.
   */
  lemma PreemptiveSound(s0: seq<Process>, s: seq<Process>, timeline: seq<ExecutionRecord>, run: seq<int>, key: Key)
    requires PreemptiveSchedule(s0, s, timeline, run, key)
    ensures forall j :: 0 <= j < |s| ==>
      && s[j].arrival <= s[j].start
      && s[j].start + s[j].burst <= s[j].completion
      && s[j].waiting >= s[j].start - s[j].arrival >= 0
  {
    forall j | 0 <= j < |s|
      ensures s[j].arrival <= s[j].start && s[j].start + s[j].burst <= s[j].completion
    {
      var u := s[j].start;
      assert TickRule(s0, run, key, u);
      assert Eligible(View(s0, run[..u])[j], u, NotCompleted);
      GrantedWithin(run, j, u, s[j].completion - 1);
    }
  }

  /** Non-empty records inside [0, n), each ending no later than the next one starts. */
  predicate RecordsOrdered(b: seq<ExecutionRecord>, n: int) {
    && (forall k :: 0 <= k < |b| ==> 0 <= b[k].start < b[k].end <= n)
    && (forall k :: 0 < k < |b| ==> b[k - 1].end <= b[k].start)
  }

  /** The records of a trace are non-empty, lie inside it and never overlap. */
  lemma {:induction false} BlocksOrdered(ids: seq<int>, run: seq<int>)
    ensures RecordsOrdered(Blocks(ids, run), |run|)
    decreases |run|
  {
    if run != [] {
      var r, x := run[..|run| - 1], run[|run| - 1];
      BlocksOrdered(ids, r);
      var b := Blocks(ids, r);
      if 0 <= x < |ids| {
        if r != [] && r[|r| - 1] == x {
          StretchOrdered(b, |r|, |run|);
        } else {
          AppendOrdered(b, ExecutionRecord(ids[x], |r|, |run|), |r|);
        }
      }
    }
  }

  lemma StretchOrdered(b: seq<ExecutionRecord>, n: int, n': int)
    requires RecordsOrdered(b, n) && b != [] && n < n'
    ensures RecordsOrdered(b[..|b| - 1] + [b[|b| - 1].(end := n')], n')
  {
    var b' := b[..|b| - 1] + [b[|b| - 1].(end := n')];
    assert forall k :: 0 <= k < |b| - 1 ==> b'[k] == b[k];
  }

  lemma AppendOrdered(b: seq<ExecutionRecord>, e: ExecutionRecord, n: int)
    requires RecordsOrdered(b, n) && 0 <= n <= e.start < e.end
    ensures RecordsOrdered(b + [e], e.end)
  {
    var b' := b + [e];
    assert forall k :: 0 <= k < |b| ==> b'[k] == b[k];
  }

  /** The last record belongs to the last non-idle tick u; every tick after u is idle. */
  lemma {:induction false} BlocksLastTick(ids: seq<int>, run: seq<int>) returns (u: int)
    requires Blocks(ids, run) != []
    ensures 0 <= u < |run| && 0 <= run[u] < |ids|
    ensures Blocks(ids, run)[|Blocks(ids, run)| - 1].pid == ids[run[u]]
    ensures forall v :: u < v < |run| ==> !(0 <= run[v] < |ids|)
    decreases |run|
  {
    var r, x := run[..|run| - 1], run[|run| - 1];
    assert forall v :: 0 <= v < |r| ==> r[v] == run[v];
    if 0 <= x < |ids| {
      u := |run| - 1;
    } else {
      u := BlocksLastTick(ids, r);
    }
  }

  /** Consecutive records belong to different processes. */
  predicate Alternates(b: seq<ExecutionRecord>) {
    forall k :: 0 < k < |b| ==> b[k - 1].pid != b[k].pid
  }

  lemma StretchAlternates(b: seq<ExecutionRecord>, n: int)
    requires Alternates(b) && b != []
    ensures Alternates(b[..|b| - 1] + [b[|b| - 1].(end := n)])
  {
    var b' := b[..|b| - 1] + [b[|b| - 1].(end := n)];
    assert forall k :: 0 <= k < |b| ==> b'[k].pid == b[k].pid;
  }

  lemma AppendAlternates(b: seq<ExecutionRecord>, e: ExecutionRecord)
    requires Alternates(b) && (b != [] ==> b[|b| - 1].pid != e.pid)
    ensures Alternates(b + [e])
  {
    var b' := b + [e];
    assert forall k :: 0 <= k < |b| ==> b'[k] == b[k];
  }

  /**
   * With distinct ids, and a trace in which no process runs again after an
   * idle tick that followed it, consecutive records belong to different
   * processes.
   */
  lemma {:induction false} BlocksAlternate(ids: seq<int>, run: seq<int>)
    requires forall i, j :: 0 <= i < j < |ids| ==> ids[i] != ids[j]
    requires forall u, v, w :: 0 <= u < v < w < |run| && 0 <= run[u] < |ids| && run[w] == run[u] ==>
               0 <= run[v] < |ids|
    ensures Alternates(Blocks(ids, run))
    decreases |run|
  {
    if run != [] {
      var r, x := run[..|run| - 1], run[|run| - 1];
      assert forall v :: 0 <= v < |r| ==> r[v] == run[v];
      BlocksAlternate(ids, r);
      var b := Blocks(ids, r);
      if 0 <= x < |ids| {
        if r != [] && r[|r| - 1] == x {
          StretchAlternates(b, |run|);
        } else {
          if b != [] {
            var u := BlocksLastTick(ids, r);
            assert run[u] != x;
          }
          AppendAlternates(b, ExecutionRecord(ids[x], |r|, |run|));
        }
      }
    }
  }

  /** A prefix of the trace grants no more ticks than a longer prefix. */
  lemma GrantedGrows(run: seq<int>, a: int, b: int, j: int)
    requires 0 <= a <= b <= |run|
    ensures Granted(run[..a], j) <= Granted(run[..b], j)
  {
    assert run[..b] == run[..a] + run[a..b];
    assert multiset(run[..b]) == multiset(run[..a]) + multiset(run[a..b]);
  }

  /**
   * A process that still has a tick to come is unfinished and has arrived
   * at every tick between, so none of those ticks is idle.
   */
  lemma NoIdleBeforeReturn(s0: seq<Process>, s: seq<Process>, timeline: seq<ExecutionRecord>, run: seq<int>,
                           key: Key, u: int, v: int, w: int)
    requires PreemptiveSchedule(s0, s, timeline, run, key)
    requires 0 <= u < v < w < |run| && run[u] != -1 && run[w] == run[u]
    ensures run[v] != -1
  {
    var x := run[u];
    assert TickRule(s0, run, key, u) && TickRule(s0, run, key, v);
    assert Eligible(View(s0, run[..u])[x], u, NotCompleted);
    GrantedGrows(run, v, w, x);
    assert run[..w + 1] == run[..w] + [run[w]];
    GrantedExtend(run[..w], run[w], x);
    GrantedGrows(run, w + 1, |run|, x);
    assert run[..|run|] == run;
    assert Eligible(View(s0, run[..v])[x], v, NotCompleted);
  }

  /**
   * A record is closed only when a different process wins the CPU or the
   * running one completes, so consecutive records of a schedule never share
   * a process id.
   */
  lemma AdjacentRecordsDiffer(s0: seq<Process>, s: seq<Process>, timeline: seq<ExecutionRecord>, run: seq<int>,
                              key: Key)
    requires PreemptiveSchedule(s0, s, timeline, run, key) && UniqueIds(s0)
    ensures forall k :: 0 < k < |timeline| ==> timeline[k - 1].pid != timeline[k].pid
  {
    forall u, v, w | 0 <= u < v < w < |run| && 0 <= run[u] < |s0| && run[w] == run[u]
      ensures 0 <= run[v] < |s0|
    {
      NoIdleBeforeReturn(s0, s, timeline, run, key, u, v, w);
      assert TickRule(s0, run, key, v);
    }
    BlocksAlternate(Ids(s0), run);
    assert Alternates(timeline);
  }

  /** A trace that follows the rule agrees with any other one on their common ticks. */
  lemma {:induction false} TracesAgree(s0: seq<Process>, run: seq<int>, run': seq<int>, key: Key, u: int)
    requires TraceFollowsRule(s0, run, key) && TraceFollowsRule(s0, run', key)
    requires 0 <= u <= |run| && u <= |run'|
    ensures run[..u] == run'[..u]
  {
    if u > 0 {
      TracesAgree(s0, run, run', key, u - 1);
      var w := u - 1;
      assert TickRule(s0, run, key, w) && TickRule(s0, run', key, w);
      assert run[..w] == run'[..w];
      if run[w] != -1 && run'[w] != -1 {
        ChosenIsUnique(View(s0, run[..w]), w, key, NotCompleted, run[w], run'[w]);
      }
      assert run[..u] == run[..w] + [run[w]];
      assert run'[..u] == run'[..w] + [run'[w]];
    }
  }

  /** Once every burst has been granted, the rule allows only idle ticks. */
  lemma {:induction false} OnlyIdleAfter(s0: seq<Process>, run: seq<int>, key: Key, u: int)
    requires TraceFollowsRule(s0, run, key) && 0 <= u <= |run|
    requires forall j :: 0 <= j < |s0| ==> Granted(run, j) == s0[j].burst == Granted(run[..u], j)
    ensures forall w :: u <= w < |run| ==> run[w] == -1
  {
    assert run == run[..u] + run[u..];
    assert multiset(run) == multiset(run[..u]) + multiset(run[u..]);
    forall w | u <= w < |run| ensures run[w] == -1 {
      assert TickRule(s0, run, key, w);
      assert run[u..][w - u] == run[w];
    }
  }

  /** u is the first tick of j in at most one place; likewise the last. */
  lemma TicksUnique(run: seq<int>, j: int, u: int, u': int)
    ensures FirstTick(run, j, u) && FirstTick(run, j, u') ==> u == u'
    ensures LastTick(run, j, u) && LastTick(run, j, u') ==> u == u'
  {
  }

  /**
   * The description pins the run down: two complete schedules of the same
   * input under the same key have the same trace, processes and timeline.
   */
  lemma PreemptiveDeterministic(s0: seq<Process>, s: seq<Process>, timeline: seq<ExecutionRecord>, run: seq<int>,
                                s': seq<Process>, timeline': seq<ExecutionRecord>, run': seq<int>, key: Key)
    requires PreemptiveSchedule(s0, s, timeline, run, key)
    requires PreemptiveSchedule(s0, s', timeline', run', key)
    ensures run == run' && s == s' && timeline == timeline'
  {
    SameLength(s0, s, timeline, run, s', timeline', run', key);
    SameLength(s0, s', timeline', run', s, timeline, run, key);
    TracesAgree(s0, run, run', key, |run|);
    assert run == run[..|run|] && run' == run'[..|run'|];
    forall j | 0 <= j < |s| ensures s[j] == s'[j] {
      TicksUnique(run, j, s[j].start, s'[j].start);
      TicksUnique(run, j, s[j].completion - 1, s'[j].completion - 1);
    }
  }

  /** A complete schedule's trace is no longer than any other complete schedule's. */
  lemma SameLength(s0: seq<Process>, s: seq<Process>, timeline: seq<ExecutionRecord>, run: seq<int>,
                   s': seq<Process>, timeline': seq<ExecutionRecord>, run': seq<int>, key: Key)
    requires PreemptiveSchedule(s0, s, timeline, run, key)
    requires PreemptiveSchedule(s0, s', timeline', run', key)
    ensures |run'| <= |run|
  {
    if |run| < |run'| {
      TracesAgree(s0, run, run', key, |run|);
      assert run'[..|run|] == run;
      OnlyIdleAfter(s0, run', key, |run|);
    }
  }
}
