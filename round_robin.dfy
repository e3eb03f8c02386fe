/*
 * Round Robin: the working set is stably sorted by arrival, arrived
 * processes wait in a FIFO ready queue, and the process at its front holds
 * the CPU for at most one quantum before it goes to the back of the queue.
 * Processes that arrive during a slice are queued before the process whose
 * slice just ended.
 *
 * The schedule is given here as a function over the sorted working set
 * (Schedule) that the C++ round_robin, the Python _round_robin and the GUI
 * Scheduler.round_robin all compute.
 */
module RoundRobin {
  import opened Types
  import opened WorkingSet
  import opened ReadyQueue

  const NAME: string := "Round Robin"

  /** The slot indices lo, lo + 1, ..., hi - 1. */
  function Span(lo: int, hi: int): (r: seq<int>)
    requires lo <= hi
    ensures |r| == hi - lo && forall k :: 0 <= k < |r| ==> r[k] == lo + k
  {
    seq(hi - lo, k => lo + k)
  }

  /**
   * A round-robin run over the sorted working set procs: the clock, the
   * ready queue as slot indices (front first), the first slot not yet
   * admitted, the timeline so far and the number of completed processes.
   */
  datatype Round = Round(clock: int, queue: seq<int>, next: int, procs: seq<Process>,
                         timeline: seq<ExecutionRecord>, completed: int)

  /**
   * The admission loop: from slot next on, every process that has arrived by
   * clock joins the back of the queue, stopping at the first that has not.
   */
  function Admit(procs: seq<Process>, clock: int, queue: seq<int>, next: int): (r: (seq<int>, int))
    requires 0 <= next <= |procs|
    ensures next <= r.1 <= |procs|
    ensures r.0 == queue + Span(next, r.1)
    ensures forall i :: next <= i < r.1 ==> procs[i].arrival <= clock
    ensures r.1 == |procs| || procs[r.1].arrival > clock
    decreases |procs| - next
  {
    if next < |procs| && procs[next].arrival <= clock then
      var r := Admit(procs, clock, queue + [next], next + 1);
      assert [next] + Span(next + 1, r.1) == Span(next, r.1);
      r
    else
      (queue, next)
  }

  /** Admission depends on the arrivals only. */
  lemma AdmitArrivalsOnly(procs: seq<Process>, procs': seq<Process>, clock: int, queue: seq<int>, next: int)
    requires 0 <= next <= |procs| == |procs'|
    requires forall i :: 0 <= i < |procs| ==> procs'[i].arrival == procs[i].arrival
    ensures Admit(procs', clock, queue, next) == Admit(procs, clock, queue, next)
    decreases |procs| - next
  {
    if next < |procs| && procs[next].arrival <= clock {
      AdmitArrivalsOnly(procs, procs', clock, queue + [next], next + 1);
    }
  }

  /** The state before the main loop: clock 0 and every process that arrives at 0 or earlier queued. */
  function Initial(s: seq<Process>): Round {
    var (queue, next) := Admit(s, 0, [], 0);
    Round(0, queue, next, s, [], 0)
  }

  /** An empty queue with processes still to come: the clock jumps to the next arrival and admits. */
  function Refill(st: Round): (r: Round)
    requires 0 <= st.next <= |st.procs|
    ensures r.procs == st.procs && r.timeline == st.timeline && r.completed == st.completed
  {
    if st.queue == [] && st.next < |st.procs| then
      var clock := st.procs[st.next].arrival;
      var (queue, next) := Admit(st.procs, clock, [], st.next);
      st.(clock := clock, queue := queue, next := next)
    else
      st
  }

  /** The length of the slice a process with the given remaining time receives. */
  function SliceLength(remaining: int, quantum: int): int {
    if remaining < quantum then remaining else quantum
  }

  /** A process after one slice starting at clock: started if it was not, and its remaining time cut. */
  function Ran(p: Process, clock: int, quantum: int): Process {
    p.(start := if p.start == -1 then clock else p.start, remaining := p.remaining - SliceLength(p.remaining, quantum))
  }

  /** The fields written when a process's last slice ends at time t. */
  function Complete(p: Process, t: int): (r: Process)
    ensures SameDescriptor(r, p) && r.remaining == p.remaining && r.start == p.start
    ensures r.completion == t && Finished(r)
  {
    p.(completion := t, turnaround := t - p.arrival, waiting := t - p.arrival - p.burst, completed := true)
  }

  /**
   * One slice: the front process runs, arrivals up to the new clock are
   * admitted, then the process rejoins the queue or completes.
   */
  function Slice(st: Round, quantum: int): Round
    requires st.queue != [] && 0 <= st.queue[0] < |st.procs| && 0 <= st.next <= |st.procs|
  {
    var i := st.queue[0];
    var p := st.procs[i];
    var t := st.clock + SliceLength(p.remaining, quantum);
    var ran := Ran(p, st.clock, quantum);
    var procs := st.procs[i := ran];
    var (queue, next) := Admit(procs, t, st.queue[1..], st.next);
    var timeline := st.timeline + [ExecutionRecord(p.id, st.clock, t)];
    if ran.remaining > 0 then
      Round(t, queue + [i], next, procs, timeline, st.completed)
    else
      Round(t, queue, next, procs[i := Complete(ran, t)], timeline, st.completed + 1)
  }

  /** What a process still stands for in the termination measure. */
  function PendingOf(p: Process): int {
    if p.completed then 0 else Max(p.remaining, 0) + 1
  }

  /** The termination measure is never negative. */
  lemma PendingNonNegative(procs: seq<Process>)
    ensures Total(procs, PendingOf) >= 0
  {
    TotalNonNegative(procs, PendingOf);
  }

  /**
   * The ready queue holds every admitted, unfinished slot exactly once and
   * nothing else.
   */
  ghost predicate QueueHolds(queue: seq<int>, next: int, procs: seq<Process>) {
    && 0 <= next <= |procs|
    && (forall k :: 0 <= k < |queue| ==> 0 <= queue[k] < next && !procs[queue[k]].completed)
    && (forall k, l :: 0 <= k < l < |queue| ==> queue[k] != queue[l])
    && (forall i :: 0 <= i < next ==> procs[i].completed || i in queue)
  }

  /** What serving the front of a queue needs: a front, and distinct admitted slots. */
  ghost predicate Servable(queue: seq<int>, next: int, n: int) {
    && queue != [] && 0 <= next <= n
    && (forall k :: 0 <= k < |queue| ==> 0 <= queue[k] < next)
    && (forall k :: 1 <= k < |queue| ==> queue[k] != queue[0])
  }

  /**
   * The bookkeeping the main loop keeps: the queue is right, nothing beyond
   * next has been touched, the completed counter is right, and next has not
   * arrived yet.
   */
  ghost predicate Wellformed(st: Round, quantum: int) {
    match st
    case Round(clock, queue, next, procs, _, completed) =>
      && quantum > 0
      && QueueHolds(queue, next, procs)
      && (forall i :: next <= i < |procs| ==> Pristine(procs[i]))
      && completed == CountCompleted(procs)
      && (next < |procs| ==> procs[next].arrival > clock)
  }

  lemma InitialWellformed(s: seq<Process>, quantum: int)
    requires quantum > 0
    requires forall i :: 0 <= i < |s| ==> Pristine(s[i])
    ensures Wellformed(Initial(s), quantum)
  {
    var st := Initial(s);
    CountCompletedNone(s);
    forall i | 0 <= i < st.next ensures i in st.queue {
      assert st.queue[i] == i;
    }
  }

  /**
   * While a process is unfinished, the queue after the refill step is not
   * empty: the `break` of the C++ loop is never taken.
   */
  lemma RefillReady(st: Round, quantum: int)
    requires Wellformed(st, quantum) && st.completed < |st.procs|
    ensures Refill(st).queue != [] && Wellformed(Refill(st), quantum)
  {
    if st.queue == [] {
      if st.next == |st.procs| {
        assert false;
      }
      var r := Refill(st);
      assert r.queue[0] == st.next;
      forall i | 0 <= i < r.next ensures r.procs[i].completed || i in r.queue {
        if i >= st.next {
          assert r.queue[i - st.next] == i;
        }
      }
    }
  }

  /**
   * After a slice the queue is the rest of the old queue, the newly admitted
   * slots, and the slot that ran unless it completed.
   */
  lemma QueueAfterSlice(queue: seq<int>, next: int, procs: seq<Process>,
                        queue': seq<int>, next': int, procs': seq<Process>)
    requires QueueHolds(queue, next, procs) && queue != []
    requires |procs'| == |procs| && next <= next' <= |procs|
    requires forall j :: 0 <= j < |procs| && j != queue[0] ==> procs'[j].completed == procs[j].completed
    requires forall j :: next <= j < next' ==> !procs[j].completed
    requires queue' == queue[1..] + Span(next, next') + (if procs'[queue[0]].completed then [] else [queue[0]])
    ensures QueueHolds(queue', next', procs')
  {
    var i := queue[0];
    forall j | 0 <= j < next' ensures procs'[j].completed || j in queue' {
      if j != i && j < next && !procs[j].completed {
        assert j in queue;
        var k :| 0 <= k < |queue| && queue[k] == j;
        assert queue'[k - 1] == j;
      } else if j >= next {
        assert queue'[j - next + |queue| - 1] == j;
      } else if j == i && !procs'[i].completed {
        assert queue'[|queue'| - 1] == i;
      }
    }
  }

  /** What one slice does to the bookkeeping, read off its definition. */
  lemma SliceShape(st: Round, quantum: int)
    requires Wellformed(st, quantum) && st.queue != []
    ensures var r, i := Slice(st, quantum), st.queue[0];
      && r.procs == st.procs[i := r.procs[i]]
      && r.procs[i].arrival == st.procs[i].arrival
      && PendingOf(r.procs[i]) < PendingOf(st.procs[i])
      && st.next <= r.next <= |st.procs|
      && r.queue == st.queue[1..] + Span(st.next, r.next) + (if r.procs[i].completed then [] else [i])
      && (r.next == |st.procs| || st.procs[r.next].arrival > r.clock)
      && r.completed == st.completed + (if r.procs[i].completed then 1 else 0)
  {
    var i := st.queue[0];
    var p := st.procs[i];
    var t := st.clock + SliceLength(p.remaining, quantum);
    var ran := Ran(p, st.clock, quantum);
    var procs := st.procs[i := ran];
    AdmitArrivalsOnly(st.procs, procs, t, st.queue[1..], st.next);
  }

  lemma SliceWellformed(st: Round, quantum: int)
    requires Wellformed(st, quantum) && st.queue != []
    ensures Wellformed(Slice(st, quantum), quantum)
    ensures Total(Slice(st, quantum).procs, PendingOf) < Total(st.procs, PendingOf)
  {
    var i := st.queue[0];
    var r := Slice(st, quantum);
    SliceShape(st, quantum);
    CountCompletedUpdate(st.procs, i, r.procs[i]);
    TotalUpdate(st.procs, i, r.procs[i], PendingOf);
    QueueAfterSlice(st.queue, st.next, st.procs, r.queue, r.next, r.procs);
  }

  /** The main loop: slices until every process has completed. */
  function Run(st: Round, quantum: int): (r: Round)
    requires Wellformed(st, quantum)
    ensures Wellformed(r, quantum) && r.completed == |r.procs| && |r.procs| == |st.procs|
    decreases Total(st.procs, PendingOf)
  {
    if st.completed >= |st.procs| then
      st
    else
      var st1 := Refill(st);
      RefillReady(st, quantum);
      var st2 := Slice(st1, quantum);
      SliceWellformed(st1, quantum);
      PendingNonNegative(st2.procs);
      Run(st2, quantum)
  }

  /** The round-robin schedule of a sorted, freshly reset working set. */
  function Schedule(s: seq<Process>, quantum: int): (r: Round)
    requires quantum > 0
    requires forall i :: 0 <= i < |s| ==> Pristine(s[i])
    ensures |r.procs| == |s| && forall i :: 0 <= i < |s| ==> r.procs[i].completed
  {
    InitialWellformed(s, quantum);
    Run(Initial(s), quantum)
  }

  /** CPU time the timeline gives to process pid. */
  function Work(timeline: seq<ExecutionRecord>, pid: int): int {
    if timeline == [] then 0
    else
      var e := timeline[|timeline| - 1];
      Work(timeline[..|timeline| - 1], pid) + (if e.pid == pid then e.end - e.start else 0)
  }

  /**
   * One process p, measured against its reset original p0: the descriptor
   * is kept, the remaining time lies between 0 and the burst, an admitted
   * process has arrived, a started process started after its arrival and has
   * been on the CPU no longer than the clock has run since, and a completed
   * one has no time left and completed no earlier than start + burst.
   */
  ghost predicate ProcSound(p0: Process, p: Process, admitted: bool, clock: int) {
    && SameDescriptor(p, p0)
    && 0 <= p.remaining <= p.burst
    && (admitted ==> p.arrival <= clock)
    && (p.start == -1 ==> p.remaining == p.burst && !p.completed)
    && (p.start != -1 ==> p.arrival <= p.start && p.start + p.burst - p.remaining <= clock)
    && (p.completed ==> p.remaining == 0 && p.start != -1 && p.start + p.burst <= p.completion <= clock && Finished(p))
  }

  ghost predicate ProcsSound(s0: seq<Process>, procs: seq<Process>, next: int, clock: int) {
    && clock >= 0
    && |procs| == |s0|
    && forall i :: 0 <= i < |s0| ==> ProcSound(s0[i], procs[i], i < next, clock)
  }

  /** Slices last at most one quantum, never overlap, and all lie before the clock. */
  ghost predicate TimelineSound(timeline: seq<ExecutionRecord>, clock: int, quantum: int) {
    && (forall k :: 0 <= k < |timeline| ==> 0 <= timeline[k].end - timeline[k].start <= quantum)
    && (forall k :: 0 < k < |timeline| ==> timeline[k - 1].end <= timeline[k].start)
    && (timeline != [] ==> timeline[|timeline| - 1].end <= clock)
  }

  /** The timeline accounts for exactly the work each process has received. */
  ghost predicate WorkDone(s0: seq<Process>, procs: seq<Process>, timeline: seq<ExecutionRecord>)
    requires |procs| == |s0|
  {
    forall i :: 0 <= i < |s0| ==> Work(timeline, s0[i].id) == s0[i].burst - procs[i].remaining
  }

  ghost predicate Sound(s0: seq<Process>, st: Round, quantum: int) {
    && UniqueIds(s0)
    && (forall i :: 0 <= i < |s0| ==> s0[i].burst >= 0)
    && ProcsSound(s0, st.procs, st.next, st.clock)
    && TimelineSound(st.timeline, st.clock, quantum)
    && WorkDone(s0, st.procs, st.timeline)
  }

  /** What one slice does to the clock, the timeline and the process that ran. */
  lemma SliceDetails(st: Round, quantum: int)
    requires Wellformed(st, quantum) && st.queue != []
    ensures var r, p := Slice(st, quantum), st.procs[st.queue[0]];
      var q, exec := r.procs[st.queue[0]], SliceLength(p.remaining, quantum);
      && r.clock == st.clock + exec
      && r.timeline == st.timeline + [ExecutionRecord(p.id, st.clock, r.clock)]
      && SameDescriptor(q, p)
      && q.start == (if p.start == -1 then st.clock else p.start)
      && q.remaining == p.remaining - exec
      && (q.completed <==> q.remaining <= 0)
      && (q.completed ==> q.completion == r.clock && Finished(q))
  {
  }

  /** A later clock and more admitted processes, all of which have arrived, keep ProcsSound. */
  lemma ProcsLater(s0: seq<Process>, procs: seq<Process>, next: int, clock: int, next': int, clock': int)
    requires ProcsSound(s0, procs, next, clock)
    requires clock <= clock' && next <= next'
    requires forall j :: next <= j < next' && 0 <= j < |procs| ==> procs[j].arrival <= clock'
    ensures ProcsSound(s0, procs, next', clock')
  {
  }

  /** The process that ran keeps its per-process facts after its slice. */
  lemma ProcsAfterSlice(s0: seq<Process>, procs: seq<Process>, next: int, clock: int, quantum: int,
                        i: int, q: Process)
    requires ProcsSound(s0, procs, next, clock) && quantum > 0
    requires 0 <= i < next && i < |procs| && !procs[i].completed
    requires var p, exec := procs[i], SliceLength(procs[i].remaining, quantum);
      && SameDescriptor(q, p)
      && q.start == (if p.start == -1 then clock else p.start)
      && q.remaining == p.remaining - exec
      && (q.completed <==> q.remaining <= 0)
      && (q.completed ==> q.completion == clock + exec && Finished(q))
    ensures ProcsSound(s0, procs[i := q], next, clock + SliceLength(procs[i].remaining, quantum))
  {
    var clock' := clock + SliceLength(procs[i].remaining, quantum);
    assert ProcSound(s0[i], procs[i], true, clock);
    assert ProcSound(s0[i], q, true, clock');
    forall j | 0 <= j < |s0| ensures ProcSound(s0[j], procs[i := q][j], j < next, clock') {
      if j != i {
        assert ProcSound(s0[j], procs[j], j < next, clock);
      }
    }
  }

  lemma TimelineAfterSlice(timeline: seq<ExecutionRecord>, clock: int, quantum: int, e: ExecutionRecord)
    requires TimelineSound(timeline, clock, quantum)
    requires e.start == clock && 0 <= e.end - e.start <= quantum
    ensures TimelineSound(timeline + [e], e.end, quantum)
  {
  }

  lemma WorkAfterSlice(s0: seq<Process>, procs: seq<Process>, timeline: seq<ExecutionRecord>,
                       i: int, q: Process, e: ExecutionRecord)
    requires |procs| == |s0| && UniqueIds(s0) && WorkDone(s0, procs, timeline)
    requires 0 <= i < |s0| && e.pid == s0[i].id && e.end - e.start == procs[i].remaining - q.remaining
    ensures WorkDone(s0, procs[i := q], timeline + [e])
  {
    var t := timeline + [e];
    assert t[..|t| - 1] == timeline;
    forall j | 0 <= j < |s0| ensures Work(t, s0[j].id) == s0[j].burst - procs[i := q][j].remaining {
      if j != i {
        assert s0[j].id != s0[i].id;
      }
    }
  }

  lemma SliceSound(s0: seq<Process>, st: Round, quantum: int)
    requires Wellformed(st, quantum) && Sound(s0, st, quantum) && st.queue != []
    ensures Sound(s0, Slice(st, quantum), quantum)
  {
    var r, i := Slice(st, quantum), st.queue[0];
    var q := r.procs[i];
    SliceShape(st, quantum);
    SliceDetails(st, quantum);
    ProcsAfterSlice(s0, st.procs, st.next, st.clock, quantum, i, q);
    ProcsLater(s0, st.procs[i := q], st.next, r.clock, r.next, r.clock);
    TimelineAfterSlice(st.timeline, st.clock, quantum, r.timeline[|r.timeline| - 1]);
    WorkAfterSlice(s0, st.procs, st.timeline, i, q, r.timeline[|r.timeline| - 1]);
  }

  lemma RefillSound(s0: seq<Process>, st: Round, quantum: int)
    requires Wellformed(st, quantum) && Sound(s0, st, quantum)
    ensures Sound(s0, Refill(st), quantum)
  {
    var r := Refill(st);
    if st.queue == [] && st.next < |st.procs| {
      ProcsLater(s0, st.procs, st.next, st.clock, r.next, r.clock);
    }
  }

  lemma InitialSound(s: seq<Process>, quantum: int)
    requires forall i :: 0 <= i < |s| ==> Pristine(s[i]) && s[i].burst >= 0
    requires UniqueIds(s)
    ensures Sound(s, Initial(s), quantum)
  {
  }

  /**
   * One turn of the main loop: refill if the queue ran dry, then one slice.
   * The bookkeeping is kept, the measure shrinks and the run goes on from
   * the new state.
   */
  lemma Turn(st: Round, quantum: int) returns (st': Round)
    requires Wellformed(st, quantum) && st.completed < |st.procs|
    ensures Refill(st).queue != [] && st' == Slice(Refill(st), quantum)
    ensures Wellformed(st', quantum) && 0 <= Total(st'.procs, PendingOf) < Total(st.procs, PendingOf)
  {
    RefillReady(st, quantum);
    st' := Slice(Refill(st), quantum);
    SliceWellformed(Refill(st), quantum);
    PendingNonNegative(st'.procs);
  }

  lemma RunUnfold(st: Round, st': Round, quantum: int)
    requires Wellformed(st, quantum) && st.completed < |st.procs|
    requires Refill(st).queue != [] && 0 <= Refill(st).queue[0] < |st.procs| && 0 <= Refill(st).next <= |st.procs|
    requires st' == Slice(Refill(st), quantum) && Wellformed(st', quantum)
    ensures Run(st, quantum) == Run(st', quantum)
  {
  }

  lemma TurnSound(s0: seq<Process>, st: Round, quantum: int)
    requires Wellformed(st, quantum) && Sound(s0, st, quantum) && st.completed < |st.procs|
    requires Refill(st).queue != []
    ensures Sound(s0, Slice(Refill(st), quantum), quantum)
  {
    RefillReady(st, quantum);
    RefillSound(s0, st, quantum);
    SliceSound(s0, Refill(st), quantum);
  }

  lemma {:induction false} RunSound(s0: seq<Process>, st: Round, quantum: int)
    requires Wellformed(st, quantum) && Sound(s0, st, quantum)
    ensures Sound(s0, Run(st, quantum), quantum)
    decreases Total(st.procs, PendingOf)
  {
    if st.completed < |st.procs| {
      var st' := Turn(st, quantum);
      RunUnfold(st, st', quantum);
      TurnSound(s0, st, quantum);
      RunSound(s0, st', quantum);
    }
  }

  /** The guarantees of a finished, sound run. */
  lemma Finale(s: seq<Process>, r: Round, quantum: int)
    requires Wellformed(r, quantum) && Sound(s, r, quantum) && r.completed == |r.procs|
    ensures |r.procs| == |s|
    ensures forall i :: 0 <= i < |s| ==>
      && SameDescriptor(r.procs[i], s[i]) && Finished(r.procs[i]) && r.procs[i].remaining == 0
      && s[i].arrival <= r.procs[i].start
      && r.procs[i].start + s[i].burst <= r.procs[i].completion
      && r.procs[i].waiting >= r.procs[i].start - s[i].arrival >= 0
      && Work(r.timeline, s[i].id) == s[i].burst
    ensures forall k :: 0 <= k < |r.timeline| ==> 0 <= r.timeline[k].end - r.timeline[k].start <= quantum
    ensures forall k :: 0 < k < |r.timeline| ==> r.timeline[k - 1].end <= r.timeline[k].start
  {
  }

  /**
   * What a round-robin schedule guarantees when no burst is negative: every
   * process completes after arriving, its waiting time is at least the delay
   * before its first slice, the timeline gives it exactly its burst, and the
   * slices last at most one quantum and never overlap.
   */
  lemma RoundRobinSound(s: seq<Process>, quantum: int)
    requires quantum > 0
    requires forall i :: 0 <= i < |s| ==> Pristine(s[i]) && s[i].burst >= 0
    requires UniqueIds(s)
    ensures var r := Schedule(s, quantum);
      && |r.procs| == |s|
      && (forall i :: 0 <= i < |s| ==>
            && SameDescriptor(r.procs[i], s[i]) && Finished(r.procs[i]) && r.procs[i].remaining == 0
            && s[i].arrival <= r.procs[i].start
            && r.procs[i].start + s[i].burst <= r.procs[i].completion
            && r.procs[i].waiting >= r.procs[i].start - s[i].arrival >= 0
            && Work(r.timeline, s[i].id) == s[i].burst)
      && (forall k :: 0 <= k < |r.timeline| ==> 0 <= r.timeline[k].end - r.timeline[k].start <= quantum)
      && (forall k :: 0 < k < |r.timeline| ==> r.timeline[k - 1].end <= r.timeline[k].start)
  {
    InitialWellformed(s, quantum);
    InitialSound(s, quantum);
    RunSound(s, Initial(s), quantum);
    Finale(s, Schedule(s, quantum), quantum);
  }

  /** The run stops on the slice that retires its last process, so the clock stops at a completion. */
  lemma {:induction false} RunEndsOnCompletion(st: Round, quantum: int)
    requires Wellformed(st, quantum) && st.completed < |st.procs|
    ensures exists i :: 0 <= i < |Run(st, quantum).procs| && Run(st, quantum).procs[i].completion == Run(st, quantum).clock
    decreases Total(st.procs, PendingOf)
  {
    var st' := Turn(st, quantum);
    RunUnfold(st, st', quantum);
    if st'.completed < |st'.procs| {
      RunEndsOnCompletion(st', quantum);
    } else {
      RefillReady(st, quantum);
      SliceStops(Refill(st), quantum);
    }
  }

  /** A slice that moves the completed counter has retired its process at the new clock. */
  lemma SliceStops(st: Round, quantum: int)
    requires st.queue != [] && 0 <= st.queue[0] < |st.procs| && 0 <= st.next <= |st.procs|
    ensures Slice(st, quantum).completed != st.completed ==>
      |Slice(st, quantum).procs| == |st.procs| && Slice(st, quantum).procs[st.queue[0]].completion == Slice(st, quantum).clock
  {
  }

  /**
   * A round-robin schedule of a non-empty list ends when its latest
   * process completes: every completion lies before the final clock and
   * one lies on it.
   */
  lemma ScheduleEndsAtCompletion(s: seq<Process>, quantum: int)
    requires quantum > 0 && s != []
    requires forall i :: 0 <= i < |s| ==> Pristine(s[i]) && s[i].burst >= 0
    requires UniqueIds(s)
    ensures var r := Schedule(s, quantum);
      && (forall i :: 0 <= i < |r.procs| ==> r.procs[i].completion <= r.clock)
      && (exists i :: 0 <= i < |r.procs| && r.procs[i].completion == r.clock)
  {
    InitialWellformed(s, quantum);
    ScheduleCompletionsBeforeClock(s, quantum);
    assert Initial(s).completed == 0 < |Initial(s).procs|;
    RunEndsOnCompletion(Initial(s), quantum);
    assert Schedule(s, quantum) == Run(Initial(s), quantum);
  }

  lemma ScheduleCompletionsBeforeClock(s: seq<Process>, quantum: int)
    requires quantum > 0
    requires forall i :: 0 <= i < |s| ==> Pristine(s[i]) && s[i].burst >= 0
    requires UniqueIds(s)
    ensures var r := Schedule(s, quantum); forall i :: 0 <= i < |r.procs| ==> r.procs[i].completion <= r.clock
  {
    InitialWellformed(s, quantum);
    InitialSound(s, quantum);
    RunSound(s, Initial(s), quantum);
    CompletionsBeforeClock(s, Run(Initial(s), quantum), quantum);
  }

  /** In a sound state every completed process completed no later than the clock. */
  lemma CompletionsBeforeClock(s0: seq<Process>, st: Round, quantum: int)
    requires Sound(s0, st, quantum)
    ensures forall i :: 0 <= i < |st.procs| && st.procs[i].completed ==> st.procs[i].completion <= st.clock
  {
    forall i | 0 <= i < |st.procs| && st.procs[i].completed ensures st.procs[i].completion <= st.clock {
      assert ProcSound(s0[i], st.procs[i], i < st.next, st.clock);
    }
  }

  /** Slice, for a process that still has time left after its slice. */
  lemma SliceRequeues(st: Round, quantum: int, ran: Process, t: int, queue: seq<int>, next: int)
    requires st.queue != [] && 0 <= st.queue[0] < |st.procs| && 0 <= st.next <= |st.procs|
    requires t == st.clock + SliceLength(st.procs[st.queue[0]].remaining, quantum)
    requires ran == Ran(st.procs[st.queue[0]], st.clock, quantum) && ran.remaining > 0
    requires queue == Admit(st.procs[st.queue[0] := ran], t, st.queue[1..], st.next).0
    requires next == Admit(st.procs[st.queue[0] := ran], t, st.queue[1..], st.next).1
    ensures Slice(st, quantum) == Round(t, queue + [st.queue[0]], next, st.procs[st.queue[0] := ran],
                                       st.timeline + [ExecutionRecord(ran.id, st.clock, t)], st.completed)
  {
  }

  /** Slice, for a process whose slice ends its work. */
  lemma SliceRetires(st: Round, quantum: int, ran: Process, t: int, queue: seq<int>, next: int)
    requires st.queue != [] && 0 <= st.queue[0] < |st.procs| && 0 <= st.next <= |st.procs|
    requires t == st.clock + SliceLength(st.procs[st.queue[0]].remaining, quantum)
    requires ran == Ran(st.procs[st.queue[0]], st.clock, quantum) && ran.remaining <= 0
    requires queue == Admit(st.procs[st.queue[0] := ran], t, st.queue[1..], st.next).0
    requires next == Admit(st.procs[st.queue[0] := ran], t, st.queue[1..], st.next).1
    ensures Slice(st, quantum) == Round(t, queue, next, st.procs[st.queue[0] := Complete(ran, t)],
                                       st.timeline + [ExecutionRecord(ran.id, st.clock, t)], st.completed + 1)
  {
  }

  /** The copies in the ready queue are the current values of the slots the abstract queue lists. */
  ghost predicate Mirrors(contents: seq<Process>, procs: seq<Process>, queue: seq<int>) {
    |contents| == |queue| && forall k :: 0 <= k < |queue| ==> 0 <= queue[k] < |procs| && contents[k] == procs[queue[k]]
  }

  /** Writing a slot that is not queued leaves the queued copies current. */
  lemma MirrorsKept(contents: seq<Process>, procs: seq<Process>, queue: seq<int>, i: int, p: Process)
    requires Mirrors(contents, procs, queue) && 0 <= i < |procs|
    requires forall k :: 0 <= k < |queue| ==> queue[k] != i
    ensures Mirrors(contents, procs[i := p], queue)
  {
  }

  /** The lookup of lines 69-75: the first slot holding the id, or -1. */
  method FindById(a: array<Process>, id: int) returns (idx: int)
    ensures -1 <= idx < a.Length
    ensures idx == -1 ==> forall i :: 0 <= i < a.Length ==> a[i].id != id
    ensures idx != -1 ==> a[idx].id == id && forall i :: 0 <= i < idx ==> a[i].id != id
  {
    var i := 0;
    while i < a.Length
      invariant 0 <= i <= a.Length
      invariant forall j :: 0 <= j < i ==> a[j].id != id
    {
      if a[i].id == id {
        return i;
      }
      i := i + 1;
    }
    return -1;
  }

  /** An admission loop (lines 48-51, 57-60 and 93-96): copies of the arrived slots go to the rear. */
  method AdmitArrivals(a: array<Process>, rq: Queue, t: int, next: int, ghost queue: seq<int>)
    returns (next': int, ghost queue': seq<int>)
    requires rq.Valid() && a !in rq.Repr
    requires 0 <= next <= a.Length && Mirrors(rq.Contents, a[..], queue)
    modifies rq.Repr
    ensures rq.Valid() && fresh(rq.Repr - old(rq.Repr))
    ensures (queue', next') == Admit(a[..], t, queue, next)
    ensures Mirrors(rq.Contents, a[..], queue')
  {
    next', queue' := next, queue;
    while next' < a.Length && a[next'].arrival <= t
      invariant next <= next' <= a.Length
      invariant rq.Valid() && fresh(rq.Repr - old(rq.Repr))
      invariant Admit(a[..], t, queue', next') == Admit(a[..], t, queue, next)
      invariant Mirrors(rq.Contents, a[..], queue')
      decreases a.Length - next'
    {
      rq.Enqueue(a[next']);
      queue' := queue' + [next'];
      next' := next' + 1;
    }
  }

  /**
   * Lines 66-90: dequeue the front copy, find its slot by id, start it if
   * it has not started, and run it for min(remaining, quantum).
   */
  method RunFront(a: array<Process>, rq: Queue, quantum: int, t: int, ghost queue: seq<int>)
    returns (idx: int, t': int, record: ExecutionRecord)
    requires rq.Valid() && a !in rq.Repr && Mirrors(rq.Contents, a[..], queue) && queue != []
    requires UniqueIds(a[..])
    modifies a, rq
    ensures rq.Valid() && rq.Repr == old(rq.Repr) && rq.Contents == old(rq.Contents)[1..]
    ensures idx == queue[0] && 0 <= idx < a.Length
    ensures t' == t + SliceLength(old(a[idx]).remaining, quantum)
    ensures a[..] == old(a[..])[idx := Ran(old(a[idx]), t, quantum)]
    ensures record == ExecutionRecord(old(a[idx]).id, t, t')
  {
    var current := rq.Dequeue();
    idx := FindById(a, current.id);
    if a[idx].start == -1 {
      a[idx] := a[idx].(start := t);
    }
    var exec := if current.remaining < quantum then current.remaining else quantum;
    record := ExecutionRecord(current.id, t, t + exec);
    t' := t + exec;
    a[idx] := a[idx].(remaining := a[idx].remaining - exec);
  }

  /**
   * Lines 93-108: admit the arrivals up to the new clock, then requeue a copy
   * of the process if it has time left, or complete it.
   */
  method Settle(a: array<Process>, rq: Queue, idx: int, t: int, next: int, ghost queue: seq<int>)
    returns (next': int, retired: bool, ghost queue': seq<int>)
    requires rq.Valid() && a !in rq.Repr && Mirrors(rq.Contents, a[..], queue)
    requires 0 <= idx < next <= a.Length
    requires forall k :: 0 <= k < |queue| ==> queue[k] != idx
    modifies a, rq.Repr
    ensures rq.Valid() && fresh(rq.Repr - old(rq.Repr)) && Mirrors(rq.Contents, a[..], queue')
    ensures var (admitted, n) := Admit(old(a[..]), t, queue, next);
      && next' == n
      && retired == (old(a[idx]).remaining <= 0)
      && (!retired ==> queue' == admitted + [idx] && a[..] == old(a[..]))
      && (retired ==> queue' == admitted && a[..] == old(a[..])[idx := Complete(old(a[idx]), t)])
  {
    next', queue' := AdmitArrivals(a, rq, t, next, queue);
    retired := a[idx].remaining <= 0;
    if !retired {
      var updated := a[idx];
      rq.Enqueue(updated);
      queue' := queue' + [idx];
    } else {
      assert a !in rq.Repr;
      MirrorsKept(rq.Contents, a[..], queue', idx, Complete(a[idx], t));
      CompleteAt(a, idx, t);
    }
  }

  /** Lines 103-106: the completion fields of slot i, written one after another. */
  method CompleteAt(a: array<Process>, i: int, t: int)
    requires 0 <= i < a.Length
    modifies a
    ensures a[..] == old(a[..])[i := Complete(old(a[i]), t)]
  {
    a[i] := a[i].(completion := t);
    a[i] := a[i].(turnaround := a[i].completion - a[i].arrival);
    a[i] := a[i].(waiting := a[i].turnaround - a[i].burst, completed := true);
  }

  /**
   * Lines 54-64: when the queue is empty, the clock jumps to the next
   * arrival and the arrivals are admitted. The source breaks out of its loop
   * when nothing is left to admit; that case cannot arise, and callers
   * guarantee it.
   */
  method RefillQueue(a: array<Process>, rq: Queue, t: int, next: int,
                     ghost queue: seq<int>, ghost timeline: seq<ExecutionRecord>, ghost completed: int)
    returns (t': int, next': int, ghost queue': seq<int>)
    requires rq.Valid() && a !in rq.Repr && Mirrors(rq.Contents, a[..], queue)
    requires 0 <= next <= a.Length && (queue != [] || next < a.Length)
    modifies rq.Repr
    ensures rq.Valid() && fresh(rq.Repr - old(rq.Repr)) && Mirrors(rq.Contents, a[..], queue')
    ensures Round(t', queue', next', a[..], timeline, completed)
         == Refill(Round(t, queue, next, a[..], timeline, completed))
  {
    t', next', queue' := t, next, queue;
    if rq.IsEmpty() {
      if next < a.Length {
        t' := a[next].arrival;
        next', queue' := AdmitArrivals(a, rq, t', next, queue);
      } else {
        assert false;
      }
    }
  }

  /** Lines 66-108: one slice for the process at the front of the queue. */
  method ServeFront(a: array<Process>, rq: Queue, quantum: int, t: int, next: int, completed: int,
                    timeline: seq<ExecutionRecord>, ghost queue: seq<int>)
    returns (t': int, next': int, completed': int, timeline': seq<ExecutionRecord>, ghost queue': seq<int>)
    requires rq.Valid() && a !in rq.Repr && Mirrors(rq.Contents, a[..], queue)
    requires quantum > 0 && Servable(queue, next, a.Length) && UniqueIds(a[..])
    modifies a, rq.Repr
    ensures rq.Valid() && fresh(rq.Repr - old(rq.Repr)) && Mirrors(rq.Contents, a[..], queue')
    ensures Round(t', queue', next', a[..], timeline', completed')
         == Slice(Round(t, queue, next, old(a[..]), timeline, completed), quantum)
  {
    ghost var st := Round(t, queue, next, a[..], timeline, completed);
    var idx, record;
    idx, t', record := RunFront(a, rq, quantum, t, queue);
    ghost var ran := a[idx];
    ghost var admitted := Admit(a[..], t', queue[1..], next).0;
    timeline' := timeline + [record];
    var retired;
    next', retired, queue' := Settle(a, rq, idx, t', next, queue[1..]);
    if retired {
      completed' := completed + 1;
      SliceRetires(st, quantum, ran, t', admitted, next');
    } else {
      completed' := completed;
      SliceRequeues(st, quantum, ran, t', admitted, next');
    }
  }

  /** Slice preserves every process identifier, so unique ids stay unique. */
  lemma SliceKeepsIds(st: Round, quantum: int)
    requires st.queue != [] && 0 <= st.queue[0] < |st.procs| && 0 <= st.next <= |st.procs|
    requires UniqueIds(st.procs)
    ensures UniqueIds(Slice(st, quantum).procs)
  {
    SliceKeepsPids(st, quantum);
  }

  /** A slice rewrites one process and keeps every id in its slot. */
  lemma SliceKeepsPids(st: Round, quantum: int)
    requires st.queue != [] && 0 <= st.queue[0] < |st.procs| && 0 <= st.next <= |st.procs|
    ensures |Slice(st, quantum).procs| == |st.procs|
    ensures forall k :: 0 <= k < |st.procs| ==> Slice(st, quantum).procs[k].id == st.procs[k].id
  {
    var r, i := Slice(st, quantum), st.queue[0];
    assert |r.procs| == |st.procs|;
    assert forall k :: 0 <= k < |r.procs| ==> r.procs[k].id == st.procs[k].id;
  }

  /**
   * One turn as the imperative loop sees it: there is something to refill
   * from, the refilled queue can be served, the run continues from the
   * next state and the identifiers stay unique.
   */
  lemma Advance(st: Round, quantum: int) returns (st': Round)
    requires Wellformed(st, quantum) && st.completed < |st.procs| && UniqueIds(st.procs)
    ensures st.queue != [] || st.next < |st.procs|
    ensures Servable(Refill(st).queue, Refill(st).next, |st.procs|)
    ensures st' == Slice(Refill(st), quantum)
    ensures Wellformed(st', quantum) && 0 <= Total(st'.procs, PendingOf) < Total(st.procs, PendingOf)
    ensures Run(st, quantum) == Run(st', quantum) && UniqueIds(st'.procs)
  {
    RefillReady(st, quantum);
    st' := Turn(st, quantum);
    RunUnfold(st, st', quantum);
    SliceKeepsIds(Refill(st), quantum);
  }

  /**
   * One pass of the main loop (lines 58-108): refill if idle, then serve the
   * front. The new concrete state is the next state st' of the reference run.
   */
  method Cycle(a: array<Process>, rq: Queue, quantum: int, t: int, next: int, completed: int,
               timeline: seq<ExecutionRecord>, ghost queue: seq<int>, ghost st: Round)
    returns (t': int, next': int, completed': int, timeline': seq<ExecutionRecord>,
             ghost queue': seq<int>, ghost st': Round)
    requires rq.Valid() && a !in rq.Repr && Mirrors(rq.Contents, a[..], queue)
    requires st == Round(t, queue, next, a[..], timeline, completed)
    requires Wellformed(st, quantum) && completed < a.Length && UniqueIds(st.procs)
    modifies a, rq.Repr
    ensures rq.Valid() && fresh(rq.Repr - old(rq.Repr)) && Mirrors(rq.Contents, a[..], queue')
    ensures st' == Round(t', queue', next', a[..], timeline', completed')
    ensures Wellformed(st', quantum) && UniqueIds(st'.procs) && Run(st', quantum) == Run(st, quantum)
    ensures 0 <= Total(st'.procs, PendingOf) < Total(st.procs, PendingOf)
  {
    st' := Advance(st, quantum);
    t', next', completed', timeline', queue' := RefillAndServe(a, rq, quantum, t, next, completed, timeline, queue, st);
  }

  /** Lines 58-108 proper: refill if idle, then serve the front. */
  method RefillAndServe(a: array<Process>, rq: Queue, quantum: int, t: int, next: int, completed: int,
                        timeline: seq<ExecutionRecord>, ghost queue: seq<int>, ghost st: Round)
    returns (t': int, next': int, completed': int, timeline': seq<ExecutionRecord>, ghost queue': seq<int>)
    requires rq.Valid() && a !in rq.Repr && Mirrors(rq.Contents, a[..], queue)
    requires st == Round(t, queue, next, a[..], timeline, completed)
    requires quantum > 0 && 0 <= next <= a.Length && (queue != [] || next < a.Length)
    requires Servable(Refill(st).queue, Refill(st).next, a.Length) && UniqueIds(a[..])
    modifies a, rq.Repr
    ensures rq.Valid() && fresh(rq.Repr - old(rq.Repr)) && Mirrors(rq.Contents, a[..], queue')
    ensures Round(t', queue', next', a[..], timeline', completed') == Slice(Refill(st), quantum)
  {
    var t1, n1;
    ghost var q1;
    t1, n1, q1 := RefillQueue(a, rq, t, next, queue, timeline, completed);
    t', next', completed', timeline', queue' := ServeFront(a, rq, quantum, t1, n1, completed, timeline, q1);
  }

  /**
   * The queue loop of round_robin (lines 58-108), from a well-formed state
   * st of the reference run: it drives the array and the timeline to the
   * end of that run.
   */
  method Drain(a: array<Process>, rq: Queue, quantum: int, t: int, next: int, completed: int,
               timeline: seq<ExecutionRecord>, ghost queue: seq<int>, ghost st: Round)
    returns (timeline': seq<ExecutionRecord>)
    requires rq.Valid() && a !in rq.Repr && Mirrors(rq.Contents, a[..], queue)
    requires st == Round(t, queue, next, a[..], timeline, completed)
    requires Wellformed(st, quantum) && UniqueIds(st.procs)
    modifies a, rq.Repr
    ensures a[..] == Run(st, quantum).procs && timeline' == Run(st, quantum).timeline
  {
    var t, next, completed, queue := t, next, completed, queue;
    timeline' := timeline;
    ghost var cur := st;
    while completed < a.Length
      invariant rq.Valid() && a !in rq.Repr && fresh(rq.Repr - old(rq.Repr))
      invariant Mirrors(rq.Contents, a[..], queue)
      invariant cur == Round(t, queue, next, a[..], timeline', completed)
      invariant Wellformed(cur, quantum) && UniqueIds(cur.procs)
      invariant Run(cur, quantum) == Run(st, quantum)
      decreases Total(cur.procs, PendingOf)
    {
      t, next, completed, timeline', queue, cur := Cycle(a, rq, quantum, t, next, completed, timeline', queue, cur);
    }
  }

  /**
   * The main loop of round_robin (lines 42-109) over the sorted, reset
   * working set a: it leaves in a the processes of Schedule and returns its
   * timeline.
   */
  method RunRoundRobin(a: array<Process>, quantum: int) returns (timeline: seq<ExecutionRecord>)
    requires quantum > 0 && UniqueIds(a[..])
    requires forall i :: 0 <= i < a.Length ==> Pristine(a[i])
    modifies a
    ensures a[..] == Schedule(old(a[..]), quantum).procs
    ensures timeline == Schedule(old(a[..]), quantum).timeline
  {
    ghost var s := a[..];
    InitialWellformed(s, quantum);
    var rq := new Queue();
    var next;
    ghost var queue: seq<int>;
    next, queue := AdmitArrivals(a, rq, 0, 0, []);
    timeline := Drain(a, rq, quantum, 0, next, 0, [], queue, Initial(s));
  }

  /**
   * round_robin: copy and reset, bubble sort by arrival, then the queue
   * loop. The result is the round-robin schedule of the stably sorted input.
   */
  method RoundRobin(input: seq<Process>, quantum: int) returns (result: SchedulingResult, ghost sorted: seq<Process>)
    requires |input| <= MAX_PROCESSES
    requires quantum > 0
    requires UniqueIds(input)
    ensures result.algorithm == NAME && result.stats == None
    ensures IsStableSortByArrival(ResetAll(input), sorted) && UniqueIds(sorted)
    ensures forall i :: 0 <= i < |sorted| ==> Pristine(sorted[i])
    ensures result.processes == Schedule(sorted, quantum).procs
    ensures result.timeline == Schedule(sorted, quantum).timeline
  {
    var work := CloneReset(input);
    ghost var perm := SortByArrival(work);
    sorted := work[..];
    assert UniqueIds(ResetAll(input));
    ArrangedUniqueIds(ResetAll(input), sorted, perm);
    var timeline := RunRoundRobin(work, quantum);
    result := SchedulingResult(NAME, work[..], timeline, None);
  }
}
