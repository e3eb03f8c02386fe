/*
 * The Scheduler class of gui/scheduler_gui.py: the same six algorithms over
 * dicts stably sorted by arrival, written for the Gantt chart. Instead of a
 * timeline of [start, end) records they emit an `execution` list of blocks
 * {id, duration}, with idle spans as blocks of id -1, so that laid end to
 * end from time 0 the blocks cover the whole run; the preemptive algorithms
 * emit one block per tick.
 *
 * A dict is modelled by the Process datatype, as for the fallback engine of
 * scheduler_api.py: `start` holds the time of first selection, so the dict's
 * `response` is start - arrival (and -1 before the first selection), and the
 * `completed` flag marks what the GUI keeps in its `done` list or counts
 * with `completed += 1`.
 */
module GuiScheduler {
  import opened Types
  import opened WorkingSet
  import opened Selection
  import opened NonPreemptive
  import opened Preemptive
  import opened Decimal
  import Fcfs
  import RoundRobin
  import Aggregates
  import PythonEngine

  /** The id of an idle block. */
  const IDLE: int := -1

  /** The GUI's Process: its name and colour are derived from the pid. */
  datatype GuiProcess = GuiProcess(id: int, arrival: int, burst: int, priority: int)

  /** One entry of `execution`: the process (or IDLE) that held the CPU, and for how long. */
  datatype Block = Block(id: int, duration: int)

  /** A dict as _format hands it back. */
  datatype Job = Job(id: int, name: string, arrival: int, burst: int, priority: int, remaining: int,
                     completion: int, waiting: int, turnaround: int, response: int)

  /** The dict _format returns. */
  datatype GuiResult = GuiResult(algorithm: string, processes: seq<Job>, execution: seq<Block>,
                                 avgWaiting: real, avgTurnaround: real, cpuUtil: real)

  /** The pids the GUI hands out are 1, 2, ...: none is the idle id. */
  predicate ValidPids(processes: seq<GuiProcess>) {
    forall j :: 0 <= j < |processes| ==> processes[j].id > 0
  }

  /** The GUI process as the fallback engine's ProcessInput. */
  function InputOf(p: GuiProcess): PythonEngine.ProcessInput {
    PythonEngine.ProcessInput(p.id, p.arrival, p.burst, p.priority)
  }

  function Inputs(processes: seq<GuiProcess>): (r: seq<PythonEngine.ProcessInput>)
    ensures |r| == |processes| && forall j :: 0 <= j < |processes| ==> r[j] == InputOf(processes[j])
  {
    seq(|processes|, j requires 0 <= j < |processes| => InputOf(processes[j]))
  }

  /** The dicts the algorithms build before sorting: remaining = burst, response -1, the rest 0. */
  function Dicts(processes: seq<GuiProcess>): (r: seq<Process>)
    ensures |r| == |processes|
    ensures forall j :: 0 <= j < |processes| ==>
      r[j] == CreateProcess(processes[j].id, processes[j].arrival, processes[j].burst, processes[j].priority)
  {
    PythonEngine.FreshAll(Inputs(processes))
  }

  /** The name of the dict: "P" followed by the pid. */
  function NameOf(pid: int): string {
    "P" + IntToString(pid)
  }

  function JobOf(p: Process): Job {
    Job(p.id, NameOf(p.id), p.arrival, p.burst, p.priority, p.remaining, p.completion, p.waiting,
        p.turnaround, if p.start == -1 then -1 else p.start - p.arrival)
  }

  function Jobs(s: seq<Process>): (r: seq<Job>)
    ensures |r| == |s| && forall j :: 0 <= j < |s| ==> r[j] == JobOf(s[j])
  {
    seq(|s|, j requires 0 <= j < |s| => JobOf(s[j]))
  }

  /** sum(e["duration"] for e in execution). */
  function Durations(execution: seq<Block>): int {
    if execution == [] then 0
    else Durations(execution[..|execution| - 1]) + execution[|execution| - 1].duration
  }

  /**
   * The execution list read as a Gantt chart from time 0: each block of a
   * process is the record [its offset, its offset + duration); idle blocks
   * only move the offset.
   */
  function Chart(execution: seq<Block>): seq<ExecutionRecord> {
    if execution == [] then []
    else
      var init, b := execution[..|execution| - 1], execution[|execution| - 1];
      if b.id == IDLE then Chart(init)
      else Chart(init) + [ExecutionRecord(b.id, Durations(init), Durations(init) + b.duration)]
  }

  /** Appending a block of a process adds its record at the current offset. */
  lemma ChartBusy(execution: seq<Block>, id: int, duration: int)
    requires id != IDLE
    ensures Durations(execution + [Block(id, duration)]) == Durations(execution) + duration
    ensures Chart(execution + [Block(id, duration)])
         == Chart(execution) + [ExecutionRecord(id, Durations(execution), Durations(execution) + duration)]
  {
    assert (execution + [Block(id, duration)])[..|execution|] == execution;
  }

  /** Appending an idle block moves the offset and adds no record. */
  lemma ChartIdle(execution: seq<Block>, duration: int)
    ensures Durations(execution + [Block(IDLE, duration)]) == Durations(execution) + duration
    ensures Chart(execution + [Block(IDLE, duration)]) == Chart(execution)
  {
    assert (execution + [Block(IDLE, duration)])[..|execution|] == execution;
  }

  /**
   * The opening of every algorithm: the dicts of the processes, sorted by
   * arrival with Python's stable sorted() (modelled by the stable sort of
   * the working-set module).
   */
  method Prepare(processes: seq<GuiProcess>) returns (a: array<Process>)
    ensures fresh(a) && IsStableSortByArrival(Dicts(processes), a[..])
    ensures forall j :: 0 <= j < a.Length ==> Pristine(a[j])
    ensures ValidPids(processes) ==> forall j :: 0 <= j < a.Length ==> a[j].id > 0
    ensures (forall j :: 0 <= j < |processes| ==> processes[j].burst > 0) ==>
      forall j :: 0 <= j < a.Length ==> a[j].burst > 0
  {
    a := new Process[|processes|](j requires 0 <= j < |processes| =>
      CreateProcess(processes[j].id, processes[j].arrival, processes[j].burst, processes[j].priority));
    assert a[..] == Dicts(processes);
    ghost var perm := SortByArrival(a);
    forall j | 0 <= j < a.Length
      ensures Pristine(a[j]) && a[j] == Dicts(processes)[perm[j]]
    {
    }
  }

  /**
   * The loop of Scheduler.fcfs (lines 61-74): an idle block up to a late
   * arrival, then the process's whole burst. The chart is the in-turn
   * schedule and the blocks end at the last completion.
   */
  method DispatchFcfs(a: array<Process>) returns (execution: seq<Block>)
    requires forall k :: 0 <= k < a.Length ==> Pristine(a[k]) && a[k].id != IDLE
    modifies a
    ensures PythonEngine.InTurn(old(a[..]), a[..], Chart(execution))
    ensures Durations(execution) == Fcfs.FreeAt(a[..], a.Length)
  {
    var t := 0;
    execution := [];
    for i := 0 to a.Length
      invariant t == Fcfs.FreeAt(a[..], i) && Durations(execution) == t
      invariant forall k :: 0 <= k < a.Length ==> SameDescriptor(a[k], old(a[k]))
      invariant forall k :: i <= k < a.Length ==> a[k] == old(a[k])
      invariant forall k :: 0 <= k < i ==> Fcfs.ServedInTurn(a[..], k)
      invariant |Chart(execution)| == i && forall k :: 0 <= k < i ==> Chart(execution)[k] == RecordOf(a[k])
    {
      ghost var before := a[..];
      if t < a[i].arrival {
        ChartIdle(execution, a[i].arrival - t);
        execution := execution + [Block(IDLE, a[i].arrival - t)];
        t := a[i].arrival;
      }
      ChartBusy(execution, a[i].id, a[i].burst);
      execution := execution + [Block(a[i].id, a[i].burst)];
      RunToCompletionAt(a, i, t);
      t := t + a[i].burst;
      Fcfs.ServedPrefixKept(before, a[..], i);
    }
  }

  /** The process is still owed the CPU: not in `done`, or remaining > 0. */
  predicate Pending(p: Process, gate: Gate) {
    if gate == NotCompleted then !p.completed else p.remaining > 0
  }

  /**
   * min(p["arrival"] for the pending p), or None where the GUI's list of
   * those arrivals is empty.
   */
  function EarliestPending(s: seq<Process>, gate: Gate): (m: Option<int>)
    ensures m.None? <==> forall j :: 0 <= j < |s| ==> !Pending(s[j], gate)
    ensures m.Some? ==> forall j :: 0 <= j < |s| && Pending(s[j], gate) ==> m.value <= s[j].arrival
    ensures m.Some? ==> exists j :: 0 <= j < |s| && Pending(s[j], gate) && s[j].arrival == m.value
  {
    if s == [] then None
    else
      var init, p := s[..|s| - 1], s[|s| - 1];
      assert forall j :: 0 <= j < |init| ==> init[j] == s[j];
      var m := EarliestPending(init, gate);
      if !Pending(p, gate) then m
      else if m.None? || p.arrival < m.value then Some(p.arrival)
      else m
  }

  /** Nothing pending has arrived by t: the scans come back with -1. */
  ghost predicate Stalled(s: seq<Process>, t: int, gate: Gate) {
    forall j :: 0 <= j < |s| ==> !Eligible(s[j], t, gate)
  }

  /**
   * The GUI's idle jump: with nothing arrived at t, the clock may move to the
   * earliest pending arrival, where something has arrived.
   */
  lemma ProgressJump(s0: seq<Process>, s: seq<Process>, timeline: seq<ExecutionRecord>,
                     order: seq<int>, key: Key, t: int)
    requires Progress(s0, s, timeline, order, key, t) && |order| < |s0|
    requires Stalled(s, t, NotCompleted)
    ensures EarliestPending(s, NotCompleted).Some?
    ensures var next := EarliestPending(s, NotCompleted).value;
      t < next && Progress(s0, s, timeline, order, key, next) && !Stalled(s, next, NotCompleted)
  {
    var next := EarliestPending(s, NotCompleted);
    var j :| 0 <= j < |s| && !s[j].completed;
    var i :| 0 <= i < |s| && Pending(s[i], NotCompleted) && s[i].arrival == next.value;
    assert Eligible(s[i], next.value, NotCompleted);
  }

  /** The invariant of the GUI's non-preemptive loop: the engine's, with the chart of the blocks. */
  ghost predicate Charted(s0: seq<Process>, s: seq<Process>, execution: seq<Block>,
                          order: seq<int>, key: Key, t: int)
  {
    && Progress(s0, s, Chart(execution), order, key, t)
    && Durations(execution) == t
    && (|order| == |s0| ==> t == ClockBefore(s, order, |order|))
  }

  /**
   * One pass of the loop of Scheduler.sjf / Scheduler.priority_np: the scan,
   * then either the idle jump to the earliest pending arrival or a dispatch
   * of the winner to completion.
   */
  method SelectOnce(a: array<Process>, key: Key, t: int, execution: seq<Block>,
                    ghost s0: seq<Process>, ghost order: seq<int>)
    returns (dispatched: bool, t': int, execution': seq<Block>, ghost order': seq<int>)
    requires DescriptorKey(key) && |order| < |s0|
    requires forall j :: 0 <= j < |s0| ==> Pristine(s0[j]) && s0[j].id != IDLE
    requires Charted(s0, a[..], execution, order, key, t)
    modifies a
    ensures Charted(s0, a[..], execution', order', key, t')
    ensures dispatched ==> |order'| == |order| + 1
    ensures !dispatched ==>
      (order' == order && Stalled(old(a[..]), t, NotCompleted) && a[..] == old(a[..])
       && !Stalled(a[..], t', NotCompleted))
  {
    var idx := Scan(a, t, key, NotCompleted, None);
    if idx == -1 {
      NothingUnderLimit(a[..], t, key, NotCompleted, None);
      t' := EarliestPending(a[..], NotCompleted).value;
      ProgressJump(s0, a[..], Chart(execution), order, key, t);
      ChartIdle(execution, t' - t);
      execution' := execution + [Block(IDLE, t' - t)];
      order' := order;
      dispatched := false;
    } else {
      ghost var cur := a[..];
      assert a[idx].id == s0[idx].id;
      ChartBusy(execution, a[idx].id, a[idx].burst);
      execution' := execution + [Block(a[idx].id, a[idx].burst)];
      RunToCompletionAt(a, idx, t);
      t' := t + a[idx].burst;
      order' := order + [idx];
      ProgressDispatch(s0, cur, Chart(execution), order, key, t, idx, a[..], Chart(execution'), order', t');
      dispatched := true;
    }
  }

  /**
   * The loop of Scheduler.sjf (key burst) and Scheduler.priority_np (key
   * priority): when nothing has arrived the clock jumps to the earliest
   * pending arrival behind one idle block. The chart is the non-preemptive
   * schedule of the engine and the blocks end at the last completion.
   */
  method DispatchSelected(a: array<Process>, key: Key) returns (execution: seq<Block>, ghost order: seq<int>)
    requires DescriptorKey(key)
    requires forall j :: 0 <= j < a.Length ==> Pristine(a[j]) && a[j].id != IDLE
    modifies a
    ensures NonPreemptiveSchedule(old(a[..]), a[..], Chart(execution), order, key)
    ensures Durations(execution) == ClockBefore(a[..], order, |order|)
  {
    ghost var s0 := a[..];
    var n := a.Length;
    var t := 0;
    var completed := 0;
    execution := [];
    order := [];
    ProgressInit(s0, key);
    while completed < n
      invariant completed == |order| <= n
      invariant Charted(s0, a[..], execution, order, key, t)
      decreases n - completed, if Stalled(a[..], t, NotCompleted) then 1 else 0
    {
      var dispatched;
      dispatched, t, execution, order := SelectOnce(a, key, t, execution, s0, order);
      if dispatched {
        completed := completed + 1;
      }
    }
    ProgressComplete(s0, a[..], Chart(execution), order, key, t);
  }

  /** The GUI's per-unit timeline of a trace: the pid of each granted tick, IDLE for an idle one. */
  function PidTrace(ids: seq<int>, run: seq<int>): (ticks: seq<int>)
    ensures |ticks| == |run|
    ensures forall u :: 0 <= u < |run| ==> ticks[u] == if 0 <= run[u] < |ids| then ids[run[u]] else IDLE
  {
    seq(|run|, u requires 0 <= u < |run| => if 0 <= run[u] < |ids| then ids[run[u]] else IDLE)
  }

  /** A tick more in the trace is one pid more in the per-unit timeline. */
  lemma PidTraceAppend(ids: seq<int>, run: seq<int>, x: int)
    ensures PidTrace(ids, run + [x]) == PidTrace(ids, run) + [if 0 <= x < |ids| then ids[x] else IDLE]
  {
  }

  /** [{"id": pid, "duration": 1} for pid in timeline]. */
  function UnitBlocks(ticks: seq<int>): (execution: seq<Block>)
    ensures |execution| == |ticks| && forall u :: 0 <= u < |ticks| ==> execution[u] == Block(ticks[u], 1)
  {
    seq(|ticks|, u requires 0 <= u < |ticks| => Block(ticks[u], 1))
  }

  /** One unit per tick: the blocks of a per-unit timeline last as long as the run. */
  lemma {:induction false} UnitBlocksLast(ticks: seq<int>)
    ensures Durations(UnitBlocks(ticks)) == |ticks|
    decreases |ticks|
  {
    if ticks != [] {
      UnitBlocksLast(ticks[..|ticks| - 1]);
      assert UnitBlocks(ticks)[..|ticks| - 1] == UnitBlocks(ticks[..|ticks| - 1]);
    }
  }

  /**
   * Gantt records with each record that continues the previous one (same
   * process, starting where it ended) folded into it.
   */
  function Merge(records: seq<ExecutionRecord>): seq<ExecutionRecord> {
    if records == [] then []
    else
      var m, e := Merge(records[..|records| - 1]), records[|records| - 1];
      if m != [] && m[|m| - 1].pid == e.pid && m[|m| - 1].end == e.start
      then m[..|m| - 1] + [m[|m| - 1].(end := e.end)]
      else m + [e]
  }

  /** Every record of a trace's blocks ends by the end of the trace. */
  lemma {:induction false} BlocksWithin(ids: seq<int>, run: seq<int>)
    ensures forall k :: 0 <= k < |Blocks(ids, run)| ==> Blocks(ids, run)[k].end <= |run|
    decreases |run|
  {
    if run != [] {
      BlocksWithin(ids, run[..|run| - 1]);
    }
  }

  /** One record more: it extends the last merged record when it continues it, and is added otherwise. */
  lemma MergeStep(records: seq<ExecutionRecord>, e: ExecutionRecord)
    ensures var m := Merge(records);
      Merge(records + [e]) == if m != [] && m[|m| - 1].pid == e.pid && m[|m| - 1].end == e.start
                              then m[..|m| - 1] + [m[|m| - 1].(end := e.end)]
                              else m + [e]
  {
    assert (records + [e])[..|records|] == records;
  }

  /** A granted tick of x after the trace r: the charts of the units and the trace's blocks grow alike. */
  lemma MergedTick(ids: seq<int>, r: seq<int>, x: int)
    requires forall k, l :: 0 <= k < l < |ids| ==> ids[k] != ids[l]
    requires 0 <= x < |ids| && ids[x] != IDLE
    requires Merge(Chart(UnitBlocks(PidTrace(ids, r)))) == Blocks(ids, r)
    ensures Merge(Chart(UnitBlocks(PidTrace(ids, r + [x])))) == Blocks(ids, r + [x])
  {
    var before := UnitBlocks(PidTrace(ids, r));
    UnitBlocksLast(PidTrace(ids, r));
    PidTraceAppend(ids, r, x);
    assert UnitBlocks(PidTrace(ids, r + [x])) == before + [Block(ids[x], 1)];
    ChartBusy(before, ids[x], 1);
    var e := ExecutionRecord(ids[x], |r|, |r| + 1);
    MergeStep(Chart(before), e);
    var b := Blocks(ids, r);
    assert (r + [x])[..|r|] == r;
    if r != [] && r[|r| - 1] == x {
    } else if r != [] && 0 <= r[|r| - 1] < |ids| {
      assert b[|b| - 1].pid == ids[r[|r| - 1]];
    } else if r != [] {
      BlocksWithin(ids, r[..|r| - 1]);
      assert b == Blocks(ids, r[..|r| - 1]);
    }
  }

  /**
   * The GUI draws a preemptive run one unit block per tick; folding the
   * consecutive units of a process back together gives exactly the records
   * of the engine's timeline, provided the pids are distinct.
   */
  lemma {:induction false} MergedTicks(ids: seq<int>, run: seq<int>)
    requires forall k :: 0 <= k < |ids| ==> ids[k] != IDLE
    requires forall k, l :: 0 <= k < l < |ids| ==> ids[k] != ids[l]
    ensures Merge(Chart(UnitBlocks(PidTrace(ids, run)))) == Blocks(ids, run)
    decreases |run|
  {
    if run != [] {
      var r, x := run[..|run| - 1], run[|run| - 1];
      MergedTicks(ids, r);
      assert run == r + [x];
      if 0 <= x < |ids| {
        MergedTick(ids, r, x);
      } else {
        var before := UnitBlocks(PidTrace(ids, r));
        PidTraceAppend(ids, r, x);
        assert UnitBlocks(PidTrace(ids, run)) == before + [Block(IDLE, 1)];
        ChartIdle(before, 1);
      }
    }
  }

  /** The GUI's loop state of a preemptive run: the engine's invariant, with the per-unit timeline. */
  ghost predicate Ticking(s0: seq<Process>, s: seq<Process>, run: seq<int>, ticks: seq<int>,
                          timeline: seq<ExecutionRecord>, last: int, lastStart: int, key: Key, completed: int)
  {
    && Tracking(s0, s, run, timeline, last, lastStart, key, completed)
    && ticks == PidTrace(Ids(s0), run)
  }

  /** Below the earliest pending arrival nothing is eligible, and it is no later than the last arrival. */
  lemma EarliestPendingBounds(s0: seq<Process>, s: seq<Process>, run: seq<int>, timeline: seq<ExecutionRecord>,
                              lastStart: int, key: Key, completed: int)
    requires Tracking(s0, s, run, timeline, -1, lastStart, key, completed) && completed < |s0|
    requires Stalled(s, |run|, RemainingLeft)
    ensures EarliestPending(s, RemainingLeft).Some?
    ensures var next := EarliestPending(s, RemainingLeft).value;
      |run| < next <= MaxArrival(s0) && forall u :: |run| <= u < next ==> Stalled(s, u, RemainingLeft)
  {
    var j :| 0 <= j < |s| && !s[j].completed;
    var next := EarliestPending(s, RemainingLeft).value;
    var i :| 0 <= i < |s| && Pending(s[i], RemainingLeft) && s[i].arrival == next;
    assert s[i].arrival == s0[i].arrival;
  }

  /**
   * The GUI's idle stretch `for t in range(current_time, next_arr)`: one idle
   * tick per unit of time up to the earliest pending arrival.
   */
  method IdleUntil(t: int, next: int, ticks: seq<int>, ghost s0: seq<Process>, ghost s: seq<Process>,
                   ghost run: seq<int>, ghost timeline: seq<ExecutionRecord>, ghost lastStart: int,
                   key: Key, completed: int)
    returns (ticks': seq<int>, ghost run': seq<int>)
    requires t == |run| <= next && completed < |s0|
    requires Ticking(s0, s, run, ticks, timeline, -1, lastStart, key, completed)
    requires forall u :: t <= u < next ==> Stalled(s, u, RemainingLeft)
    ensures |run'| == next && Ticking(s0, s, run', ticks', timeline, -1, lastStart, key, completed)
  {
    ticks', run' := ticks, run;
    for u := t to next
      invariant u == |run'| && Ticking(s0, s, run', ticks', timeline, -1, lastStart, key, completed)
    {
      assert Stalled(s, u, RemainingLeft);
      IdleStep(s0, s, run', timeline, lastStart, key, RemainingLeft, completed);
      PidTraceAppend(Ids(s0), run', -1);
      ticks' := ticks' + [IDLE];
      run' := run' + [-1];
    }
  }

  /**
   * The tick of the scan's winner i at time t: its response on first
   * selection, one unit less remaining, and its completion when that reaches
   * 0. The ghost records follow the trace's blocks.
   */
  method GrantOnce(a: array<Process>, i: int, key: Key, t: int, completed: int,
                   ghost s0: seq<Process>, ghost run: seq<int>, ghost timeline: seq<ExecutionRecord>,
                   ghost last: int, ghost lastStart: int)
    returns (completed': int, ghost timeline': seq<ExecutionRecord>, ghost last': int, ghost lastStart': int)
    requires t == |run| && 0 <= i < a.Length && Chosen(a[..], t, key, RemainingLeft, i)
    requires Tracking(s0, a[..], run, timeline, last, lastStart, key, completed)
    modifies a
    ensures Tracking(s0, a[..], run + [i], timeline', last', lastStart', key, completed')
    ensures a[..] == old(a[..])[i := TickOf(old(a[i]), t)]
    ensures Total(a[..], RemainingOf) < Total(old(a[..]), RemainingOf)
  {
    ghost var cur := a[..];
    ghost var closed := if last != -1 && last != i
                        then timeline + [ExecutionRecord(Ids(s0)[last], lastStart, t)] else timeline;
    lastStart' := if last != i then t else lastStart;
    TickAt(a, i, t);
    if a[i].remaining == 0 {
      completed' := completed + 1;
      timeline', last' := closed + [ExecutionRecord(Ids(s0)[i], lastStart', t + 1)], -1;
    } else {
      completed' := completed;
      timeline', last' := closed, i;
    }
    TickTracking(s0, cur, run, timeline, last, lastStart, key, RemainingLeft, completed, i,
                 closed, timeline', last', lastStart', completed');
  }

  /**
   * One pass of the loop of Scheduler.srtf (key remaining) and
   * Scheduler.priority_p (key priority): the scan, then either the idle
   * stretch up to the earliest pending arrival (the GUI's `if arrivals:`
   * always holds here, since a process is still owed time) or one tick of
   * the winner.
   */
  method TickOnce(a: array<Process>, key: Key, t: int, ticks: seq<int>, completed: int,
                  ghost s0: seq<Process>, ghost run: seq<int>, ghost timeline: seq<ExecutionRecord>,
                  ghost last: int, ghost lastStart: int)
    returns (t': int, ticks': seq<int>, completed': int, ghost run': seq<int>,
             ghost timeline': seq<ExecutionRecord>, ghost last': int, ghost lastStart': int)
    requires t == |run| && completed < |s0|
    requires forall j :: 0 <= j < |s0| ==> Pristine(s0[j])
    requires Ticking(s0, a[..], run, ticks, timeline, last, lastStart, key, completed)
    modifies a
    ensures t' == |run'| && Ticking(s0, a[..], run', ticks', timeline', last', lastStart', key, completed')
    ensures Total(a[..], RemainingOf) < Total(old(a[..]), RemainingOf)
         || (a[..] == old(a[..]) && t < t' <= MaxArrival(s0))
  {
    ghost var cur := a[..];
    var i := Scan(a, t, key, RemainingLeft, None);
    ScanOutcome(s0, cur, run, timeline, last, lastStart, key, RemainingLeft, None, completed, i);
    if i == -1 {
      EarliestPendingBounds(s0, cur, run, timeline, lastStart, key, completed);
      var nextArr := EarliestPending(a[..], RemainingLeft).value;
      ticks', run' := IdleUntil(t, nextArr, ticks, s0, cur, run, timeline, lastStart, key, completed);
      t', completed' := nextArr, completed;
      timeline', last', lastStart' := timeline, last, lastStart;
    } else {
      assert a[i].id == Ids(s0)[i];
      completed', timeline', last', lastStart' := GrantOnce(a, i, key, t, completed, s0, run, timeline, last, lastStart);
      PidTraceAppend(Ids(s0), run, i);
      ticks' := ticks + [a[i].id];
      t' := t + 1;
      run' := run + [i];
    }
  }

  /**
   * The loop of Scheduler.srtf and Scheduler.priority_p, then the per-unit
   * blocks. The trace follows the selection rule of the engine, the blocks
   * are its ticks one by one, and they last as long as the run.
   */
  method TickSelected(a: array<Process>, key: Key) returns (execution: seq<Block>, ghost run: seq<int>)
    requires forall j :: 0 <= j < a.Length ==> Pristine(a[j]) && a[j].burst > 0
    modifies a
    ensures PreemptiveSchedule(old(a[..]), a[..], Blocks(Ids(old(a[..])), run), run, key)
    ensures execution == UnitBlocks(PidTrace(Ids(old(a[..])), run))
    ensures Durations(execution) == |run|
  {
    ghost var s0 := a[..];
    var n := a.Length;
    ghost var horizon := if n == 0 then 0 else MaxArrival(s0);
    var t := 0;
    var completed := 0;
    var ticks := [];
    ghost var timeline := [];
    ghost var last := -1;
    ghost var lastStart := 0;
    run := [];
    TrackingInit(s0, key);
    while completed < n
      invariant t == |run| && Ticking(s0, a[..], run, ticks, timeline, last, lastStart, key, completed)
      decreases Total(a[..], RemainingOf), horizon - t
    {
      TotalNonNegative(a[..], RemainingOf);
      t, ticks, completed, run, timeline, last, lastStart :=
        TickOnce(a, key, t, ticks, completed, s0, run, timeline, last, lastStart);
    }
    Finish(s0, a[..], run, timeline, last, lastStart, key, completed);
    execution := UnitBlocks(ticks);
    UnitBlocksLast(ticks);
  }

  /**
   * Lines 295-313: pop the front, set its response if it has none, run it
   * for min(quantum, remaining) in one block, admit the arrivals, then
   * requeue or complete it. One Slice of the reference round-robin run; the
   * ghost timeline is the record of the block.
   */
  method ServeSlice(a: array<Process>, quantum: int, t: int, queue: seq<int>, idx: int, completed: int,
                    ghost timeline: seq<ExecutionRecord>)
    returns (t': int, queue': seq<int>, idx': int, completed': int, block: Block,
             ghost timeline': seq<ExecutionRecord>)
    requires quantum > 0 && RoundRobin.Servable(queue, idx, a.Length)
    modifies a
    ensures RoundRobin.Round(t', queue', idx', a[..], timeline', completed')
         == RoundRobin.Slice(RoundRobin.Round(t, queue, idx, old(a[..]), timeline, completed), quantum)
    ensures block == Block(old(a[queue[0]]).id, t' - t)
    ensures timeline' == timeline + [ExecutionRecord(block.id, t, t')]
    ensures forall j :: 0 <= j < a.Length ==> a[j].id == old(a[j]).id
  {
    ghost var st := RoundRobin.Round(t, queue, idx, a[..], timeline, completed);
    var i := queue[0];
    t', block := RunBlock(a, quantum, t, i);
    timeline' := timeline + [ExecutionRecord(block.id, t, t')];
    ghost var ran := a[i];
    queue', idx' := PythonEngine.AdmitArrivals(a, t', queue[1..], idx);
    ghost var admitted := queue';
    if a[i].remaining > 0 {
      queue' := queue' + [i];
      completed' := completed;
      RoundRobin.SliceRequeues(st, quantum, ran, t', admitted, idx');
    } else {
      RoundRobin.CompleteAt(a, i, t');
      completed' := completed + 1;
      RoundRobin.SliceRetires(st, quantum, ran, t', admitted, idx');
    }
  }

  /** Lines 296-302: the response on first selection, and one block of min(quantum, remaining). */
  method RunBlock(a: array<Process>, quantum: int, t: int, i: int) returns (t': int, block: Block)
    requires 0 <= i < a.Length
    modifies a
    ensures t' == t + RoundRobin.SliceLength(old(a[i]).remaining, quantum)
    ensures a[..] == old(a[..])[i := RoundRobin.Ran(old(a[i]), t, quantum)]
    ensures block == Block(old(a[i]).id, t' - t)
  {
    if a[i].start == -1 {
      a[i] := a[i].(start := t);
    }
    var exec := if quantum <= a[i].remaining then quantum else a[i].remaining;
    block := Block(a[i].id, exec);
    a[i] := a[i].(remaining := a[i].remaining - exec);
    t' := t + exec;
  }

  /** The invariant of the GUI's round-robin loop: a step of the reference run, charted by the blocks. */
  ghost predicate RoundCharted(st: RoundRobin.Round, quantum: int, s: seq<Process>, execution: seq<Block>) {
    && RoundRobin.Wellformed(st, quantum) && |st.procs| == |s|
    && RoundRobin.Wellformed(RoundRobin.Initial(s), quantum)
    && RoundRobin.Run(st, quantum) == RoundRobin.Run(RoundRobin.Initial(s), quantum)
    && st.timeline == Chart(execution) && Durations(execution) == st.clock
    && (forall j :: 0 <= j < |st.procs| ==> st.procs[j].id != IDLE)
  }

  /**
   * An empty queue in the loop of Scheduler.round_robin: the idle block up
   * to the next arrival and its admission. The GUI's `if idx < n:` always
   * holds here, since a process is still owed time.
   */
  method RefillRound(a: array<Process>, quantum: int, t: int, idx: int, completed: int,
                     execution: seq<Block>, ghost s: seq<Process>)
    returns (t': int, queue': seq<int>, idx': int, execution': seq<Block>)
    requires completed < a.Length
    requires RoundCharted(RoundRobin.Round(t, [], idx, a[..], Chart(execution), completed), quantum, s, execution)
    ensures RoundCharted(RoundRobin.Round(t', queue', idx', a[..], Chart(execution'), completed), quantum, s, execution')
    ensures queue' != []
  {
    ghost var cur := RoundRobin.Round(t, [], idx, a[..], Chart(execution), completed);
    PythonEngine.RefillKeepsRun(cur, quantum);
    t', queue', idx', execution' := IdleRefill(a, t, idx, execution);
    assert RoundRobin.Round(t', queue', idx', a[..], Chart(execution'), completed) == RoundRobin.Refill(cur);
  }

  /** A non-empty queue in the loop of Scheduler.round_robin: one slice of the front process. */
  method SliceRound(a: array<Process>, quantum: int, t: int, queue: seq<int>, idx: int, completed: int,
                    execution: seq<Block>, ghost s: seq<Process>)
    returns (t': int, queue': seq<int>, idx': int, completed': int, execution': seq<Block>)
    requires completed < a.Length && queue != []
    requires RoundCharted(RoundRobin.Round(t, queue, idx, a[..], Chart(execution), completed), quantum, s, execution)
    modifies a
    ensures RoundCharted(RoundRobin.Round(t', queue', idx', a[..], Chart(execution'), completed'), quantum, s, execution')
    ensures 0 <= Total(a[..], RoundRobin.PendingOf) < Total(old(a[..]), RoundRobin.PendingOf)
  {
    ghost var cur := RoundRobin.Round(t, queue, idx, a[..], Chart(execution), completed);
    SliceReady(cur, quantum, s, execution);
    t', queue', idx', completed', execution' := SliceOnce(a, quantum, t, queue, idx, completed, execution);
    SliceCharted(cur, RoundRobin.Round(t', queue', idx', a[..], Chart(execution'), completed'), quantum, s,
                 execution, execution');
  }

  /** A non-empty queue can be served: the front is an admitted slot of a real process. */
  lemma SliceReady(cur: RoundRobin.Round, quantum: int, s: seq<Process>, execution: seq<Block>)
    requires RoundCharted(cur, quantum, s, execution) && cur.completed < |cur.procs| && cur.queue != []
    ensures quantum > 0 && RoundRobin.Servable(cur.queue, cur.next, |cur.procs|)
    ensures cur.procs[cur.queue[0]].id != IDLE
  {
    PythonEngine.SliceKeepsRun(cur, quantum);
  }

  /** The loop invariant survives a slice that the blocks chart, and the measure shrinks. */
  lemma SliceCharted(cur: RoundRobin.Round, next: RoundRobin.Round, quantum: int, s: seq<Process>,
                     execution: seq<Block>, execution': seq<Block>)
    requires RoundCharted(cur, quantum, s, execution) && cur.completed < |cur.procs| && cur.queue != []
    requires 0 <= cur.queue[0] < |cur.procs| && 0 <= cur.next <= |cur.procs|
    requires next == RoundRobin.Slice(cur, quantum)
    requires next.timeline == Chart(execution') && Durations(execution') == next.clock
    ensures RoundCharted(next, quantum, s, execution')
    ensures 0 <= Total(next.procs, RoundRobin.PendingOf) < Total(cur.procs, RoundRobin.PendingOf)
  {
    PythonEngine.SliceKeepsRun(cur, quantum);
    RoundRobin.SliceKeepsPids(cur, quantum);
  }

  /** Lines 285-289: an idle block up to the next arrival, then its admission. */
  method IdleRefill(a: array<Process>, t: int, idx: int, execution: seq<Block>)
    returns (t': int, queue': seq<int>, idx': int, execution': seq<Block>)
    requires 0 <= idx < a.Length && Durations(execution) == t
    ensures (queue', idx') == RoundRobin.Admit(a[..], t', [], idx) && t' == a[idx].arrival
    ensures Chart(execution') == Chart(execution) && Durations(execution') == t'
  {
    ChartIdle(execution, a[idx].arrival - t);
    execution' := execution + [Block(IDLE, a[idx].arrival - t)];
    t' := a[idx].arrival;
    queue', idx' := PythonEngine.AdmitArrivals(a, t', [], idx);
  }

  /** A slice, with its block appended to the execution list. */
  method SliceOnce(a: array<Process>, quantum: int, t: int, queue: seq<int>, idx: int, completed: int,
                   execution: seq<Block>)
    returns (t': int, queue': seq<int>, idx': int, completed': int, execution': seq<Block>)
    requires quantum > 0 && RoundRobin.Servable(queue, idx, a.Length)
    requires Durations(execution) == t && a[queue[0]].id != IDLE
    modifies a
    ensures RoundRobin.Round(t', queue', idx', a[..], Chart(execution'), completed')
         == RoundRobin.Slice(RoundRobin.Round(t, queue, idx, old(a[..]), Chart(execution), completed), quantum)
    ensures Durations(execution') == t'
    ensures forall j :: 0 <= j < a.Length ==> a[j].id == old(a[j]).id
  {
    var block;
    ghost var timeline;
    t', queue', idx', completed', block, timeline := ServeSlice(a, quantum, t, queue, idx, completed, Chart(execution));
    ChartBusy(execution, block.id, block.duration);
    execution' := execution + [block];
  }

  /**
   * The loop of Scheduler.round_robin (lines 274-313). The array ends as
   * the reference round-robin schedule leaves the processes, the chart of
   * the blocks is its timeline, and the blocks last until its final clock.
   */
  method SliceRoundRobin(a: array<Process>, quantum: int) returns (execution: seq<Block>)
    requires quantum > 0
    requires forall j :: 0 <= j < a.Length ==> Pristine(a[j]) && a[j].id != IDLE
    modifies a
    ensures a[..] == RoundRobin.Schedule(old(a[..]), quantum).procs
    ensures Chart(execution) == RoundRobin.Schedule(old(a[..]), quantum).timeline
    ensures Durations(execution) == RoundRobin.Schedule(old(a[..]), quantum).clock
  {
    ghost var s := a[..];
    RoundRobin.InitialWellformed(s, quantum);
    var t, completed, n := 0, 0, a.Length;
    var queue, idx := PythonEngine.AdmitArrivals(a, t, [], 0);
    execution := [];
    while completed < n
      invariant RoundCharted(RoundRobin.Round(t, queue, idx, a[..], Chart(execution), completed), quantum, s, execution)
      decreases Total(a[..], RoundRobin.PendingOf), if queue == [] then 1 else 0
    {
      RoundRobin.PendingNonNegative(a[..]);
      if queue == [] {
        t, queue, idx, execution := RefillRound(a, quantum, t, idx, completed, execution, s);
        continue;
      }
      t, queue, idx, completed, execution := SliceRound(a, quantum, t, queue, idx, completed, execution, s);
    }
  }

  /**
   * _format (lines 318-329): the averages over the dicts (a true division,
   * so an empty list raises ZeroDivisionError, which the GUI never lets
   * happen), and the total burst as a percentage of the blocks' total
   * duration, 0 when that is not positive.
   */
  function Format(s: seq<Process>, execution: seq<Block>, name: string): (r: GuiResult)
    requires s != []
    ensures r.algorithm == name && r.processes == Jobs(s) && r.execution == execution
  {
    GuiResult(name, Jobs(s), execution,
              Aggregates.Average(Total(s, Aggregates.WaitingOf), |s|),
              Aggregates.Average(Total(s, Aggregates.TurnaroundOf), |s|),
              Aggregates.Percentage(Total(s, Aggregates.BurstOf), Durations(execution)))
  }

  /**
   * The dicts s and the blocks are what the GUI's routine leaves for the
   * sorted list: the engine's schedule of that routine, drawn as blocks
   * that end when the run does.
   */
  ghost predicate Drawn(routine: PythonEngine.Routine, sorted: seq<Process>, s: seq<Process>, execution: seq<Block>) {
    match routine
    case FcfsRoutine =>
      PythonEngine.InTurn(sorted, s, Chart(execution)) && Durations(execution) == Fcfs.FreeAt(s, |s|)
    case SjfNp =>
      exists order :: NonPreemptiveSchedule(sorted, s, Chart(execution), order, ByBurst)
                      && Durations(execution) == ClockBefore(s, order, |order|)
    case SjfP =>
      exists run :: PreemptiveSchedule(sorted, s, Blocks(Ids(sorted), run), run, ByRemaining)
                    && execution == UnitBlocks(PidTrace(Ids(sorted), run))
    case PriorityNp =>
      exists order :: NonPreemptiveSchedule(sorted, s, Chart(execution), order, ByPriority)
                      && Durations(execution) == ClockBefore(s, order, |order|)
    case PriorityP =>
      exists run :: PreemptiveSchedule(sorted, s, Blocks(Ids(sorted), run), run, ByPriority)
                    && execution == UnitBlocks(PidTrace(Ids(sorted), run))
    case RoundRobinRoutine(quantum) =>
      && quantum > 0
      && (forall i :: 0 <= i < |sorted| ==> Pristine(sorted[i]))
      && s == RoundRobin.Schedule(sorted, quantum).procs
      && Chart(execution) == RoundRobin.Schedule(sorted, quantum).timeline
      && Durations(execution) == RoundRobin.Schedule(sorted, quantum).clock
  }

  /** r is the dict the GUI's routine returns under the name for the processes. */
  ghost predicate Shown(name: string, routine: PythonEngine.Routine, processes: seq<GuiProcess>, r: GuiResult) {
    exists sorted, s :: IsStableSortByArrival(Dicts(processes), sorted) && Drawn(routine, sorted, s, r.execution)
                        && s != [] && r == Format(s, r.execution, name)
  }

  /** Scheduler.fcfs (lines 52-76). */
  method FcfsGui(processes: seq<GuiProcess>) returns (r: GuiResult)
    requires processes != [] && ValidPids(processes)
    ensures Shown("FCFS", PythonEngine.FcfsRoutine, processes, r)
  {
    var a := Prepare(processes);
    ghost var sorted := a[..];
    var execution := DispatchFcfs(a);
    r := Format(a[..], execution, "FCFS");
    assert Drawn(PythonEngine.FcfsRoutine, sorted, a[..], execution);
  }

  /** Scheduler.sjf (lines 78-118). */
  method Sjf(processes: seq<GuiProcess>) returns (r: GuiResult)
    requires processes != [] && ValidPids(processes)
    ensures Shown("SJF", PythonEngine.SjfNp, processes, r)
  {
    var a := Prepare(processes);
    ghost var sorted := a[..];
    var execution, order := DispatchSelected(a, ByBurst);
    r := Format(a[..], execution, "SJF");
    assert Drawn(PythonEngine.SjfNp, sorted, a[..], execution);
  }

  /** Scheduler.srtf (lines 120-169); every burst is positive, as the GUI's input form demands. */
  method Srtf(processes: seq<GuiProcess>) returns (r: GuiResult)
    requires processes != [] && forall j :: 0 <= j < |processes| ==> processes[j].burst > 0
    ensures Shown("SRTF", PythonEngine.SjfP, processes, r)
  {
    var a := Prepare(processes);
    ghost var sorted := a[..];
    var execution, run := TickSelected(a, ByRemaining);
    r := Format(a[..], execution, "SRTF");
    assert Drawn(PythonEngine.SjfP, sorted, a[..], execution);
  }

  /** Scheduler.priority_np (lines 171-211). */
  method PriorityNp(processes: seq<GuiProcess>) returns (r: GuiResult)
    requires processes != [] && ValidPids(processes)
    ensures Shown("Priority (NP)", PythonEngine.PriorityNp, processes, r)
  {
    var a := Prepare(processes);
    ghost var sorted := a[..];
    var execution, order := DispatchSelected(a, ByPriority);
    r := Format(a[..], execution, "Priority (NP)");
    assert Drawn(PythonEngine.PriorityNp, sorted, a[..], execution);
  }

  /** Scheduler.priority_p (lines 213-262); every burst is positive, as the GUI's input form demands. */
  method PriorityP(processes: seq<GuiProcess>) returns (r: GuiResult)
    requires processes != [] && forall j :: 0 <= j < |processes| ==> processes[j].burst > 0
    ensures Shown("Priority (P)", PythonEngine.PriorityP, processes, r)
  {
    var a := Prepare(processes);
    ghost var sorted := a[..];
    var execution, run := TickSelected(a, ByPriority);
    r := Format(a[..], execution, "Priority (P)");
    assert Drawn(PythonEngine.PriorityP, sorted, a[..], execution);
  }

  /** Scheduler.round_robin (lines 264-315). */
  method RoundRobinGui(processes: seq<GuiProcess>, quantum: int) returns (r: GuiResult)
    requires processes != [] && ValidPids(processes) && quantum > 0
    ensures Shown(GuiName(6, quantum), PythonEngine.RoundRobinRoutine(quantum), processes, r)
  {
    var a := Prepare(processes);
    ghost var sorted := a[..];
    var execution := SliceRoundRobin(a, quantum);
    r := Format(a[..], execution, "Round Robin (Q=" + IntToString(quantum) + ")");
    assert Drawn(PythonEngine.RoundRobinRoutine(quantum), sorted, a[..], execution);
  }

  /** The name each GUI routine passes to _format. */
  function GuiName(algorithm: int, quantum: int): string {
    match algorithm
    case 1 => "FCFS"
    case 2 => "SJF"
    case 3 => "SRTF"
    case 4 => "Priority (NP)"
    case 5 => "Priority (P)"
    case _ => "Round Robin (Q=" + IntToString(quantum) + ")"
  }

  /**
   * What the GUI demands before it runs anything: at least one process
   * ("Add processes first!"), pids from 1 on and positive bursts (its input
   * form), and a positive quantum for round robin.
   */
  predicate Admissible(processes: seq<GuiProcess>, algorithm: int, quantum: int) {
    && processes != []
    && ValidPids(processes)
    && (algorithm == 3 || algorithm == 5 ==> forall j :: 0 <= j < |processes| ==> processes[j].burst > 0)
    && (algorithm == 6 ==> quantum > 0)
  }

  /** Scheduler.run (lines 331-339): the routine of algo 1 to 6, and {} (None here) for any other value. */
  method Run(processes: seq<GuiProcess>, algorithm: int, quantum: int := 2) returns (r: Option<GuiResult>)
    requires Admissible(processes, algorithm, quantum)
    ensures r.Some? <==> PythonEngine.IsAlgorithm(algorithm)
    ensures r.Some? ==> Shown(GuiName(algorithm, quantum), PythonEngine.RoutineOf(algorithm, quantum), processes, r.value)
  {
    var result;
    if algorithm == 1 {
      result := FcfsGui(processes);
    } else if algorithm == 2 {
      result := Sjf(processes);
    } else if algorithm == 3 {
      result := Srtf(processes);
    } else if algorithm == 4 {
      result := PriorityNp(processes);
    } else if algorithm == 5 {
      result := PriorityP(processes);
    } else if algorithm == 6 {
      result := RoundRobinGui(processes, quantum);
    } else {
      return None;
    }
    r := Some(result);
  }

  /** r is what Scheduler.run returns for the algorithm. */
  ghost predicate ShownAs(processes: seq<GuiProcess>, quantum: int, algorithm: int, r: GuiResult) {
    Shown(GuiName(algorithm, quantum), PythonEngine.RoutineOf(algorithm, quantum), processes, r)
  }

  /** Scheduler.run_all (lines 341-343): the six routines in order. */
  method RunAll(processes: seq<GuiProcess>, quantum: int := 2) returns (rs: seq<GuiResult>)
    requires forall algorithm :: 1 <= algorithm <= 6 ==> Admissible(processes, algorithm, quantum)
    ensures |rs| == 6
    ensures forall k :: 0 <= k < 6 ==> ShownAs(processes, quantum, k + 1, rs[k])
  {
    rs := [];
    for algorithm := 1 to 7
      invariant |rs| == algorithm - 1
      invariant forall k :: 0 <= k < |rs| ==> ShownAs(processes, quantum, k + 1, rs[k])
    {
      var r := Run(processes, algorithm, quantum);
      assert ShownAs(processes, quantum, algorithm, r.value);
      rs := rs + [r.value];
    }
  }

  // ---------------------------------------------------------------------------
  // The GUI against the fallback engine of scheduler_api.py
  // ---------------------------------------------------------------------------

  /** A GUI process dict and the engine's ProcessResult describe the same finished process. */
  predicate SameJob(j: Job, p: PythonEngine.ProcessResult) {
    && j.id == p.id && j.name == NameOf(p.id)
    && j.arrival == p.arrivalTime && j.burst == p.burstTime && j.priority == p.priority
    && j.completion == p.completionTime && j.waiting == p.waitingTime && j.turnaround == p.turnaroundTime
    && j.response == (if p.startTime == -1 then -1 else p.startTime - p.arrivalTime)
  }

  /** In first-come order the CPU is free again only after every earlier process has completed. */
  lemma {:induction false} FreeAtRises(s: seq<Process>, i: int, k: int)
    requires forall m :: 0 <= m < |s| ==> Fcfs.ServedInTurn(s, m) && s[m].burst >= 0
    requires 0 <= i < k <= |s|
    ensures s[i].completion <= Fcfs.FreeAt(s, k)
    decreases k - i
  {
    if i < k - 1 {
      FreeAtRises(s, i, k - 1);
      assert Fcfs.ServedInTurn(s, k - 1);
    }
  }

  /** The FCFS run ends when the latest process completes. */
  lemma FcfsRunEnds(s: seq<Process>)
    requires s != []
    requires forall m :: 0 <= m < |s| ==> Fcfs.ServedInTurn(s, m) && s[m].burst >= 0
    ensures Fcfs.FreeAt(s, |s|) == PythonEngine.LatestCompletion(s)
  {
    PythonEngine.LatestCompletionIsMax(s);
    var i :| 0 <= i < |s| && s[i].completion == PythonEngine.LatestCompletion(s);
    FreeAtRises(s, i, |s|);
  }

  /** In dispatch order the clock only moves on: it has passed every earlier completion. */
  lemma {:induction false} ClockRises(s0: seq<Process>, s: seq<Process>, timeline: seq<ExecutionRecord>,
                                      order: seq<int>, key: Key, i: int, k: int)
    requires NonPreemptiveSchedule(s0, s, timeline, order, key)
    requires forall j :: 0 <= j < |s| ==> s[j].burst >= 0
    requires 0 <= i < k <= |order|
    ensures s[order[i]].completion <= ClockBefore(s, order, k)
    decreases k - i
  {
    if i < k - 1 {
      ClockRises(s0, s, timeline, order, key, i, k - 1);
      assert Dispatched(s0, s, timeline, order, key, k - 1);
    }
  }

  /** A non-preemptive run ends when the latest process completes. */
  lemma NonPreemptiveRunEnds(s0: seq<Process>, s: seq<Process>, timeline: seq<ExecutionRecord>,
                             order: seq<int>, key: Key)
    requires NonPreemptiveSchedule(s0, s, timeline, order, key) && s != []
    requires forall j :: 0 <= j < |s| ==> s[j].burst >= 0
    ensures ClockBefore(s, order, |order|) == PythonEngine.LatestCompletion(s)
  {
    PythonEngine.LatestCompletionIsMax(s);
    var j :| 0 <= j < |s| && s[j].completion == PythonEngine.LatestCompletion(s);
    assert j in order;
    var i :| 0 <= i < |order| && order[i] == j;
    ClockRises(s0, s, timeline, order, key, i, |order|);
  }

  /** A preemptive trace ends on the last tick of the latest process to complete. */
  lemma PreemptiveRunEnds(s0: seq<Process>, s: seq<Process>, timeline: seq<ExecutionRecord>,
                          run: seq<int>, key: Key)
    requires PreemptiveSchedule(s0, s, timeline, run, key) && s != []
    ensures |run| == PythonEngine.LatestCompletion(s)
  {
    assert LastTick(run, 0, s[0].completion - 1);
    var x := run[|run| - 1];
    assert TickRule(s0, run, key, |run| - 1);
    assert LastTick(run, x, s[x].completion - 1);
    assert s[x].completion == |run|;
    PythonEngine.LatestCompletionIsMax(s);
    forall j | 0 <= j < |s| ensures s[j].completion <= |run| {
      assert LastTick(run, j, s[j].completion - 1);
    }
  }

  /** The dicts of the GUI processes are the engine's fresh dicts of the same inputs, in the same order. */
  lemma SameSorted(processes: seq<GuiProcess>, sorted: seq<Process>, sorted': seq<Process>)
    requires IsStableSortByArrival(Dicts(processes), sorted)
    requires IsStableSortByArrival(PythonEngine.FreshAll(Inputs(processes)), sorted')
    ensures sorted == sorted'
  {
    StableSortIsUnique(Dicts(processes), sorted, sorted');
  }

  /** Distinct GUI pids stay distinct in any arrival order of their dicts. */
  lemma SortedIds(processes: seq<GuiProcess>, sorted: seq<Process>)
    requires IsStableSortByArrival(Dicts(processes), sorted)
    requires forall j, k :: 0 <= j < k < |processes| ==> processes[j].id != processes[k].id
    ensures |sorted| == |processes|
    ensures forall j, k :: 0 <= j < k < |sorted| ==> sorted[j].id != sorted[k].id
    ensures (forall j :: 0 <= j < |processes| ==> processes[j].id > 0) ==>
              forall j :: 0 <= j < |sorted| ==> sorted[j].id > 0
  {
    var perm :| Arranged(Dicts(processes), sorted, perm);
    ArrangedUniqueIds(Dicts(processes), sorted, perm);
    forall j | 0 <= j < |sorted| ensures sorted[j].id == processes[perm[j]].id {
    }
  }

  /** The GUI's input form: every burst positive. */
  predicate PositiveBursts(processes: seq<GuiProcess>) {
    forall j :: 0 <= j < |processes| ==> processes[j].burst > 0
  }

  /** No two GUI processes share a pid. */
  predicate DistinctPids(processes: seq<GuiProcess>) {
    forall j, k :: 0 <= j < k < |processes| ==> processes[j].id != processes[k].id
  }

  predicate Ticked(routine: PythonEngine.Routine) {
    routine == PythonEngine.SjfP || routine == PythonEngine.PriorityP
  }

  /**
   * What a GUI routine draws for a sorted list is what the engine's routine
   * schedules for it: the same dicts; the same timeline, read off the blocks
   * (merged back from units for the preemptive routines); and blocks that
   * last until the latest completion (in round robin, for distinct ids).
   */
  lemma DrawnIsScheduled(routine: PythonEngine.Routine, sorted: seq<Process>, s: seq<Process>, execution: seq<Block>,
                         s': seq<Process>, timeline: seq<ExecutionRecord>)
    requires Drawn(routine, sorted, s, execution) && PythonEngine.Scheduled(routine, sorted, s', timeline)
    requires s != [] && forall j :: 0 <= j < |sorted| ==> sorted[j].burst > 0
    ensures s' == s
    ensures !Ticked(routine) ==> timeline == Chart(execution)
    ensures Ticked(routine) && (forall j :: 0 <= j < |sorted| ==> sorted[j].id > 0) && UniqueIds(sorted) ==>
              timeline == Merge(Chart(execution))
    ensures !routine.RoundRobinRoutine? || UniqueIds(sorted) ==> Durations(execution) == PythonEngine.LatestCompletion(s)
  {
    match routine
    case FcfsRoutine =>
      PythonEngine.ScheduledIsUnique(routine, sorted, s, Chart(execution), s', timeline);
      FcfsRunEnds(s);
    case SjfNp =>
      var order :| NonPreemptiveSchedule(sorted, s, Chart(execution), order, ByBurst)
                   && Durations(execution) == ClockBefore(s, order, |order|);
      SelectedScheduled(routine, sorted, s, execution, order, ByBurst, s', timeline);
    case PriorityNp =>
      var order :| NonPreemptiveSchedule(sorted, s, Chart(execution), order, ByPriority)
                   && Durations(execution) == ClockBefore(s, order, |order|);
      SelectedScheduled(routine, sorted, s, execution, order, ByPriority, s', timeline);
    case SjfP =>
      var run :| PreemptiveSchedule(sorted, s, Blocks(Ids(sorted), run), run, ByRemaining)
                 && execution == UnitBlocks(PidTrace(Ids(sorted), run));
      TicksScheduled(routine, sorted, s, run, ByRemaining, s', timeline);
      UnitsMerge(sorted, run, execution);
    case PriorityP =>
      var run :| PreemptiveSchedule(sorted, s, Blocks(Ids(sorted), run), run, ByPriority)
                 && execution == UnitBlocks(PidTrace(Ids(sorted), run));
      TicksScheduled(routine, sorted, s, run, ByPriority, s', timeline);
      UnitsMerge(sorted, run, execution);
    case RoundRobinRoutine(quantum) =>
      if UniqueIds(sorted) {
        SlicesEnd(sorted, s, quantum);
      }
  }

  /** The engine's schedule of a non-preemptive routine is the one the dispatch order gives. */
  lemma SelectedScheduled(routine: PythonEngine.Routine, sorted: seq<Process>, s: seq<Process>, execution: seq<Block>,
                          order: seq<int>, key: Key, s': seq<Process>, timeline: seq<ExecutionRecord>)
    requires (routine == PythonEngine.SjfNp && key == ByBurst) || (routine == PythonEngine.PriorityNp && key == ByPriority)
    requires NonPreemptiveSchedule(sorted, s, Chart(execution), order, key)
    requires Durations(execution) == ClockBefore(s, order, |order|)
    requires PythonEngine.Scheduled(routine, sorted, s', timeline) && s != []
    requires forall j :: 0 <= j < |sorted| ==> sorted[j].burst > 0
    ensures s' == s && timeline == Chart(execution) && Durations(execution) == PythonEngine.LatestCompletion(s)
  {
    assert PythonEngine.Scheduled(routine, sorted, s, Chart(execution));
    PythonEngine.ScheduledIsUnique(routine, sorted, s, Chart(execution), s', timeline);
    NonPreemptiveRunEnds(sorted, s, Chart(execution), order, key);
  }

  /** The round-robin run over distinct ids ends at its latest completion. */
  lemma SlicesEnd(sorted: seq<Process>, s: seq<Process>, quantum: int)
    requires quantum > 0 && (forall i :: 0 <= i < |sorted| ==> Pristine(sorted[i]) && sorted[i].burst > 0)
    requires s == RoundRobin.Schedule(sorted, quantum).procs && s != [] && UniqueIds(sorted)
    ensures RoundRobin.Schedule(sorted, quantum).clock == PythonEngine.LatestCompletion(s)
  {
    RoundRobin.ScheduleEndsAtCompletion(sorted, quantum);
    PythonEngine.LatestCompletionIsMax(s);
  }

  /** The engine's schedule of a preemptive routine is the one the trace gives. */
  lemma TicksScheduled(routine: PythonEngine.Routine, sorted: seq<Process>, s: seq<Process>,
                       run: seq<int>, key: Key, s': seq<Process>, timeline: seq<ExecutionRecord>)
    requires (routine == PythonEngine.SjfP && key == ByRemaining) || (routine == PythonEngine.PriorityP && key == ByPriority)
    requires PreemptiveSchedule(sorted, s, Blocks(Ids(sorted), run), run, key)
    requires PythonEngine.Scheduled(routine, sorted, s', timeline) && s != []
    ensures s' == s && timeline == Blocks(Ids(sorted), run) && |run| == PythonEngine.LatestCompletion(s)
  {
    assert PythonEngine.Scheduled(routine, sorted, s, Blocks(Ids(sorted), run));
    PythonEngine.ScheduledIsUnique(routine, sorted, s, Blocks(Ids(sorted), run), s', timeline);
    PreemptiveRunEnds(sorted, s, Blocks(Ids(sorted), run), run, key);
  }

  /** The per-unit blocks of a trace last as long as it, and merge back into its records. */
  lemma UnitsMerge(sorted: seq<Process>, run: seq<int>, execution: seq<Block>)
    requires execution == UnitBlocks(PidTrace(Ids(sorted), run))
    ensures Durations(execution) == |run|
    ensures (forall j :: 0 <= j < |sorted| ==> sorted[j].id > 0) && UniqueIds(sorted) ==>
              Merge(Chart(execution)) == Blocks(Ids(sorted), run)
  {
    UnitBlocksLast(PidTrace(Ids(sorted), run));
    if (forall j :: 0 <= j < |sorted| ==> sorted[j].id > 0) && UniqueIds(sorted) {
      MergedTicks(Ids(sorted), run);
    }
  }

  /** The preemptive routines are algorithms 3 and 5, round robin is 6. */
  lemma TickedRoutines(algorithm: int, quantum: int)
    requires PythonEngine.IsAlgorithm(algorithm)
    ensures Ticked(PythonEngine.RoutineOf(algorithm, quantum)) <==> algorithm == 3 || algorithm == 5
    ensures PythonEngine.RoutineOf(algorithm, quantum).RoundRobinRoutine? <==> algorithm == 6
  {
  }

  /**
   * The GUI's Scheduler and the fallback engine of scheduler_api.py agree on
   * the same processes: the same finished processes in the same order, the
   * same averages, and the same timeline, which the GUI draws as blocks from
   * time 0 (one unit per block in the preemptive routines, so merging
   * consecutive units of a pid gives the engine's records back when pids are
   * distinct). The blocks end at the latest completion (in round robin when
   * pids are distinct), so the CPU utilisations agree as well.
   */
  lemma GuiMatchesEngine(algorithm: int, quantum: int, processes: seq<GuiProcess>,
                         gui: GuiResult, py: PythonEngine.ApiResult)
    requires PythonEngine.IsAlgorithm(algorithm) && Admissible(processes, algorithm, quantum)
    requires PositiveBursts(processes)
    requires Shown(GuiName(algorithm, quantum), PythonEngine.RoutineOf(algorithm, quantum), processes, gui)
    requires PythonEngine.Produced(PythonEngine.NameOf(algorithm, quantum), PythonEngine.RoutineOf(algorithm, quantum),
                                   Inputs(processes), py)
    ensures |gui.processes| == |py.processes|
    ensures forall k :: 0 <= k < |gui.processes| ==> SameJob(gui.processes[k], py.processes[k])
    ensures gui.avgWaiting == py.avgWaitingTime && gui.avgTurnaround == py.avgTurnaroundTime
    ensures algorithm != 3 && algorithm != 5 ==> py.timeline == PythonEngine.Entries(Chart(gui.execution))
    ensures (algorithm == 3 || algorithm == 5) && DistinctPids(processes) ==>
              py.timeline == PythonEngine.Entries(Merge(Chart(gui.execution)))
    ensures algorithm != 6 || DistinctPids(processes) ==> gui.cpuUtil == py.cpuUtilization
  {
    var routine := PythonEngine.RoutineOf(algorithm, quantum);
    TickedRoutines(algorithm, quantum);
    var sorted, s :| IsStableSortByArrival(Dicts(processes), sorted) && Drawn(routine, sorted, s, gui.execution)
                     && s != [] && gui == Format(s, gui.execution, GuiName(algorithm, quantum));
    var sorted', s', timeline :| PythonEngine.Ran(routine, Inputs(processes), sorted', s', timeline)
                                 && py == PythonEngine.Summary(PythonEngine.NameOf(algorithm, quantum), s', timeline);
    SameSorted(processes, sorted, sorted');
    SortedBursts(processes, sorted);
    DrawnIsScheduled(routine, sorted, s, gui.execution, s', timeline);
    if DistinctPids(processes) {
      SortedIds(processes, sorted);
    }
    FormatMatchesSummary(s, gui.execution, timeline, GuiName(algorithm, quantum),
                         PythonEngine.NameOf(algorithm, quantum), gui, py);
  }

  /** _format and the engine's summary of the same dicts. */
  lemma FormatMatchesSummary(s: seq<Process>, execution: seq<Block>, timeline: seq<ExecutionRecord>,
                             name: string, name': string, gui: GuiResult, py: PythonEngine.ApiResult)
    requires s != [] && gui == Format(s, execution, name) && py == PythonEngine.Summary(name', s, timeline)
    ensures |gui.processes| == |py.processes| == |s|
    ensures forall k :: 0 <= k < |s| ==> SameJob(gui.processes[k], py.processes[k])
    ensures gui.avgWaiting == py.avgWaitingTime && gui.avgTurnaround == py.avgTurnaroundTime
    ensures py.timeline == PythonEngine.Entries(timeline)
    ensures Durations(execution) == PythonEngine.LatestCompletion(s) ==> gui.cpuUtil == py.cpuUtilization
  {
  }

  /** Sorting keeps the bursts of the GUI processes. */
  lemma SortedBursts(processes: seq<GuiProcess>, sorted: seq<Process>)
    requires IsStableSortByArrival(Dicts(processes), sorted) && PositiveBursts(processes)
    ensures |sorted| == |processes| && forall j :: 0 <= j < |sorted| ==> sorted[j].burst > 0
  {
    var perm :| Arranged(Dicts(processes), sorted, perm);
    forall j | 0 <= j < |sorted| ensures sorted[j].burst == processes[perm[j]].burst {
    }
  }
}
