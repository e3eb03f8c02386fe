/*
 * The Python fallback engine of gui/scheduler_api.py (CPUSchedulerAPI). Every
 * run_* method goes through _run_algorithm_python: the inputs become
 * bookkeeping dicts, stably sorted by arrival, one of the six routines runs
 * over that list in place, and the result and its aggregates are read off
 * the dicts.
 *
 * A dict is modelled by the Process datatype and the list of dicts by an
 * array of them. The routines' queues and `done` lists of dict references
 * become slot indices into that array; the `completed` flag of a Process
 * marks what the Python keeps in its `done` list or counts with
 * `completed += 1`, and it is not part of any ProcessResult.
 */
module PythonEngine {
  import opened Types
  import opened WorkingSet
  import opened Selection
  import opened NonPreemptive
  import opened Preemptive
  import opened Decimal
  import Fcfs
  import RoundRobin
  import Aggregates
  import Api

  /** ProcessInput; the priority defaults to 1 as in the dataclass. */
  datatype ProcessInput = ProcessInput(id: int, arrivalTime: int, burstTime: int, priority: int := 1)

  datatype ProcessResult = ProcessResult(
    id: int,
    arrivalTime: int,
    burstTime: int,
    priority: int,
    waitingTime: int,
    turnaroundTime: int,
    completionTime: int,
    startTime: int)

  datatype TimelineEntry = TimelineEntry(processId: int, startTime: int, endTime: int)

  /** The Python SchedulingResult dataclass. */
  datatype ApiResult = ApiResult(
    algorithmName: string,
    processes: seq<ProcessResult>,
    timeline: seq<TimelineEntry>,
    avgWaitingTime: real,
    avgTurnaroundTime: real,
    cpuUtilization: real)

  /** run_algorithm either returns a result or raises ValueError. */
  datatype Outcome = Done(result: ApiResult) | ValueError(message: string)

  /** The algo_func argument of _run_algorithm_python; round robin carries its quantum. */
  datatype Routine = FcfsRoutine | SjfNp | SjfP | PriorityNp | PriorityP | RoundRobinRoutine(quantum: int)

  /** The dict built for one input: remaining = burst, start = -1, the rest 0. */
  function Fresh(p: ProcessInput): (r: Process)
    ensures Pristine(r)
  {
    CreateProcess(p.id, p.arrivalTime, p.burstTime, p.priority)
  }

  function FreshAll(ps: seq<ProcessInput>): (r: seq<Process>)
    ensures |r| == |ps| && forall i :: 0 <= i < |ps| ==> r[i] == Fresh(ps[i])
  {
    seq(|ps|, i requires 0 <= i < |ps| => Fresh(ps[i]))
  }

  /** The ProcessResult read off a finished dict. */
  function ResultOf(p: Process): ProcessResult {
    ProcessResult(p.id, p.arrival, p.burst, p.priority, p.waiting, p.turnaround, p.completion, p.start)
  }

  function Results(s: seq<Process>): (r: seq<ProcessResult>)
    ensures |r| == |s| && forall i :: 0 <= i < |s| ==> r[i] == ResultOf(s[i])
  {
    seq(|s|, i requires 0 <= i < |s| => ResultOf(s[i]))
  }

  function EntryOf(e: ExecutionRecord): TimelineEntry {
    TimelineEntry(e.pid, e.start, e.end)
  }

  function Entries(timeline: seq<ExecutionRecord>): (r: seq<TimelineEntry>)
    ensures |r| == |timeline| && forall i :: 0 <= i < |timeline| ==> r[i] == EntryOf(timeline[i])
  {
    seq(|timeline|, i requires 0 <= i < |timeline| => EntryOf(timeline[i]))
  }

  /** A result and its timeline entry carry everything but the remaining time and the done mark. */
  lemma ResultOfCharacterised(p: Process, q: Process)
    ensures ResultOf(p) == ResultOf(q) <==> p == q.(remaining := p.remaining, completed := p.completed)
  {
  }

  lemma EntryOfInjective(e: ExecutionRecord, e': ExecutionRecord)
    ensures EntryOf(e) == EntryOf(e') <==> e == e'
  {
  }

  /** max(p["completion"] for p in ...) over a non-empty list. */
  function LatestCompletion(s: seq<Process>): int
    requires s != []
  {
    if |s| == 1 then s[0].completion
    else Max(LatestCompletion(s[..|s| - 1]), s[|s| - 1].completion)
  }

  lemma {:induction false} LatestCompletionIsMax(s: seq<Process>)
    requires s != []
    ensures forall i :: 0 <= i < |s| ==> s[i].completion <= LatestCompletion(s)
    ensures exists i :: 0 <= i < |s| && s[i].completion == LatestCompletion(s)
  {
    if |s| > 1 {
      var s' := s[..|s| - 1];
      LatestCompletionIsMax(s');
      assert forall i :: 0 <= i < |s'| ==> s'[i] == s[i];
      if s[|s| - 1].completion <= LatestCompletion(s') {
        var k :| 0 <= k < |s'| && s'[k].completion == LatestCompletion(s');
        assert s[k].completion == LatestCompletion(s);
      } else {
        assert s[|s| - 1].completion == LatestCompletion(s);
      }
    } else {
      assert s[0].completion == LatestCompletion(s);
    }
  }

  /** total_time: the latest completion, or 0 for no processes. */
  function TotalTime(s: seq<Process>): int {
    if s == [] then 0 else LatestCompletion(s)
  }

  /**
   * The SchedulingResult _run_algorithm_python builds from the routine's
   * timeline and dicts: the averages over the processes and the total burst
   * as a percentage of total_time.
   */
  function Summary(name: string, s: seq<Process>, timeline: seq<ExecutionRecord>): ApiResult {
    ApiResult(
      name,
      Results(s),
      Entries(timeline),
      Aggregates.Average(Total(s, Aggregates.WaitingOf), |s|),
      Aggregates.Average(Total(s, Aggregates.TurnaroundOf), |s|),
      Aggregates.Percentage(Total(s, Aggregates.BurstOf), TotalTime(s)))
  }

  /** The C++ running maximum, seeded with 0, is the Python maximum unless that is negative. */
  lemma {:induction false} MaxCompletionIsSeededLatest(s: seq<Process>)
    requires s != []
    ensures Aggregates.MaxCompletion(s) == Max(0, LatestCompletion(s))
  {
    if |s| > 1 {
      MaxCompletionIsSeededLatest(s[..|s| - 1]);
    }
  }

  /**
   * The two engines agree on both averages for every working set. They
   * agree on the utilisation when the earliest arrival is 0: with a later
   * earliest arrival the Python utilisation is measured from time 0 and the
   * C++ one from that arrival.
   */
  lemma EnginesShareAggregates(name: string, s: seq<Process>, timeline: seq<ExecutionRecord>)
    ensures Summary(name, s, timeline).avgWaitingTime == Aggregates.StatisticsOf(s).avgWaiting
    ensures Summary(name, s, timeline).avgTurnaroundTime == Aggregates.StatisticsOf(s).avgTurnaround
    ensures s != [] && Aggregates.MinArrival(s) == 0 ==>
      Summary(name, s, timeline).cpuUtilization == Aggregates.StatisticsOf(s).cpuUtilization
  {
    if s != [] {
      MaxCompletionIsSeededLatest(s);
      assert Aggregates.MinArrival(s) == 0 ==> Aggregates.Span(s) == Max(0, TotalTime(s));
    }
  }

  /** What a routine needs of the working set to finish; the Python loops run forever otherwise. */
  predicate Terminates(routine: Routine, s: seq<ProcessInput>) {
    match routine
    case SjfP => forall j :: 0 <= j < |s| ==> s[j].burstTime > 0
    case PriorityP => forall j :: 0 <= j < |s| ==> s[j].burstTime > 0
    case RoundRobinRoutine(quantum) => quantum > 0
    case _ => true
  }

  /** FCFS over an already sorted list: each dict in turn, one record each. */
  ghost predicate InTurn(work: seq<Process>, s: seq<Process>, timeline: seq<ExecutionRecord>) {
    && |s| == |work|
    && (forall k :: 0 <= k < |s| ==> SameDescriptor(s[k], work[k]))
    && (forall k :: 0 <= k < |s| ==> Fcfs.ServedInTurn(s, k))
    && Fcfs.OneRecordEach(s, timeline)
  }

  /** The dicts s and the timeline are what the routine leaves for the sorted list work. */
  ghost predicate Scheduled(routine: Routine, work: seq<Process>, s: seq<Process>, timeline: seq<ExecutionRecord>) {
    match routine
    case FcfsRoutine => InTurn(work, s, timeline)
    case SjfNp => exists order :: NonPreemptiveSchedule(work, s, timeline, order, ByBurst)
    case SjfP => exists run :: PreemptiveSchedule(work, s, timeline, run, ByRemaining)
    case PriorityNp => exists order :: NonPreemptiveSchedule(work, s, timeline, order, ByPriority)
    case PriorityP => exists run :: PreemptiveSchedule(work, s, timeline, run, ByPriority)
    case RoundRobinRoutine(quantum) =>
      && quantum > 0
      && (forall i :: 0 <= i < |work| ==> Pristine(work[i]))
      && s == RoundRobin.Schedule(work, quantum).procs
      && timeline == RoundRobin.Schedule(work, quantum).timeline
  }

  /** sorted is the sorted dict list and (s, timeline) what the routine makes of it. */
  ghost predicate Ran(routine: Routine, processes: seq<ProcessInput>, sorted: seq<Process>,
                      s: seq<Process>, timeline: seq<ExecutionRecord>) {
    IsStableSortByArrival(FreshAll(processes), sorted) && Scheduled(routine, sorted, s, timeline)
  }

  /** r is the result _run_algorithm_python returns for the name, the inputs and the routine. */
  ghost predicate Produced(name: string, routine: Routine, processes: seq<ProcessInput>, r: ApiResult) {
    exists sorted, s, timeline :: Ran(routine, processes, sorted, s, timeline) && r == Summary(name, s, timeline)
  }

  /** The `for p in procs: p["remaining"] = p["burst"]` loop of _sjf_p, _priority_p and _round_robin. */
  method RestoreRemaining(a: array<Process>)
    modifies a
    ensures forall i :: 0 <= i < a.Length ==> a[i] == old(a[i]).(remaining := old(a[i]).burst)
  {
    var i := 0;
    while i < a.Length
      invariant 0 <= i <= a.Length
      invariant forall k :: 0 <= k < i ==> a[k] == old(a[k]).(remaining := old(a[k]).burst)
      invariant forall k :: i <= k < a.Length ==> a[k] == old(a[k])
    {
      a[i] := a[i].(remaining := a[i].burst);
      i := i + 1;
    }
  }

  /** _sjf_p and _priority_p: the remaining times are restored, then the shared preemptive loop. */
  method RunPreemptivePython(a: array<Process>, key: Key) returns (timeline: seq<ExecutionRecord>, ghost run: seq<int>)
    requires forall j :: 0 <= j < a.Length ==> Pristine(a[j]) && a[j].burst > 0
    modifies a
    ensures PreemptiveSchedule(old(a[..]), a[..], timeline, run, key)
  {
    RestoreRemaining(a);
    assert a[..] == old(a[..]);
    timeline, run := RunPreemptive(a, key, Python);
  }

  /** An admission loop of _round_robin (lines 534-536, 542-544 and 559-561): arrived slots join the rear. */
  method AdmitArrivals(a: array<Process>, t: int, queue: seq<int>, idx: int) returns (queue': seq<int>, idx': int)
    requires 0 <= idx <= a.Length
    ensures (queue', idx') == RoundRobin.Admit(a[..], t, queue, idx)
  {
    queue', idx' := queue, idx;
    while idx' < a.Length && a[idx'].arrival <= t
      invariant idx <= idx' <= a.Length
      invariant RoundRobin.Admit(a[..], t, queue', idx') == RoundRobin.Admit(a[..], t, queue, idx)
      decreases a.Length - idx'
    {
      queue' := queue' + [idx'];
      idx' := idx' + 1;
    }
  }

  /**
   * Lines 547-569: pop the front, start it if it has not started, run it
   * for min(quantum, remaining), admit the arrivals, then requeue or
   * complete it. This is one Slice of the reference round-robin run.
   */
  method ServeFront(a: array<Process>, quantum: int, t: int, queue: seq<int>, idx: int, completed: int,
                    timeline: seq<ExecutionRecord>)
    returns (t': int, queue': seq<int>, idx': int, completed': int, timeline': seq<ExecutionRecord>)
    requires quantum > 0 && RoundRobin.Servable(queue, idx, a.Length)
    modifies a
    ensures RoundRobin.Round(t', queue', idx', a[..], timeline', completed')
         == RoundRobin.Slice(RoundRobin.Round(t, queue, idx, old(a[..]), timeline, completed), quantum)
  {
    ghost var st := RoundRobin.Round(t, queue, idx, a[..], timeline, completed);
    var i := queue[0];
    queue' := queue[1..];
    if a[i].start == -1 {
      a[i] := a[i].(start := t);
    }
    var exec := if quantum <= a[i].remaining then quantum else a[i].remaining;
    timeline' := timeline + [ExecutionRecord(a[i].id, t, t + exec)];
    a[i] := a[i].(remaining := a[i].remaining - exec);
    t' := t + exec;
    ghost var ran := a[i];
    assert ran == RoundRobin.Ran(st.procs[i], t, quantum);
    assert a[..] == st.procs[i := ran];
    queue', idx' := AdmitArrivals(a, t', queue', idx);
    ghost var admitted := queue';
    if a[i].remaining > 0 {
      queue' := queue' + [i];
      completed' := completed;
      RoundRobin.SliceRequeues(st, quantum, ran, t', admitted, idx');
    } else {
      RoundRobin.CompleteAt(a, i, t');
      completed' := completed + 1;
      RoundRobin.SliceRetires(st, quantum, ran, t', admitted, idx');
    }
  }

  /** An empty queue with work left: the refill leaves a queue to serve and the same run ahead. */
  lemma RefillKeepsRun(st: RoundRobin.Round, quantum: int)
    requires RoundRobin.Wellformed(st, quantum) && st.completed < |st.procs| && st.queue == []
    ensures st.next < |st.procs|
    ensures RoundRobin.Refill(st).queue != [] && RoundRobin.Wellformed(RoundRobin.Refill(st), quantum)
    ensures RoundRobin.Run(RoundRobin.Refill(st), quantum) == RoundRobin.Run(st, quantum)
  {
    RoundRobin.RefillReady(st, quantum);
    var r := RoundRobin.Refill(st);
    assert RoundRobin.Refill(r) == r;
  }

  /** A queue to serve: one slice is the next step of the same run, and the measure shrinks. */
  lemma SliceKeepsRun(st: RoundRobin.Round, quantum: int)
    requires RoundRobin.Wellformed(st, quantum) && st.completed < |st.procs| && st.queue != []
    ensures RoundRobin.Servable(st.queue, st.next, |st.procs|)
    ensures RoundRobin.Wellformed(RoundRobin.Slice(st, quantum), quantum)
    ensures RoundRobin.Run(RoundRobin.Slice(st, quantum), quantum) == RoundRobin.Run(st, quantum)
    ensures 0 <= Total(RoundRobin.Slice(st, quantum).procs, RoundRobin.PendingOf) < Total(st.procs, RoundRobin.PendingOf)
  {
    assert RoundRobin.Refill(st) == st;
    var st' := RoundRobin.Turn(st, quantum);
    RoundRobin.RunUnfold(st, st', quantum);
  }

  /**
   * _round_robin over the sorted list a (lines 521-571). It leaves in a the
   * processes of the reference schedule and returns its timeline; unlike the
   * C++ loop it needs no distinct ids, since the queue holds references.
   */
  method RunRoundRobinPython(a: array<Process>, quantum: int) returns (timeline: seq<ExecutionRecord>)
    requires quantum > 0
    requires forall i :: 0 <= i < a.Length ==> Pristine(a[i])
    modifies a
    ensures a[..] == RoundRobin.Schedule(old(a[..]), quantum).procs
    ensures timeline == RoundRobin.Schedule(old(a[..]), quantum).timeline
  {
    ghost var s := a[..];
    RestoreRemaining(a);
    assert a[..] == s;
    RoundRobin.InitialWellformed(s, quantum);
    var t, completed, n := 0, 0, a.Length;
    var queue, idx := AdmitArrivals(a, t, [], 0);
    timeline := [];
    ghost var cur := RoundRobin.Round(t, queue, idx, a[..], timeline, completed);
    while completed < n
      invariant cur == RoundRobin.Round(t, queue, idx, a[..], timeline, completed)
      invariant RoundRobin.Wellformed(cur, quantum) && |cur.procs| == n
      invariant RoundRobin.Run(cur, quantum) == RoundRobin.Run(RoundRobin.Initial(s), quantum)
      decreases Total(cur.procs, RoundRobin.PendingOf), if queue == [] then 1 else 0
    {
      RoundRobin.PendingNonNegative(cur.procs);
      if queue == [] {
        RefillKeepsRun(cur, quantum);
        if idx < n {
          t := a[idx].arrival;
          queue, idx := AdmitArrivals(a, t, [], idx);
        }
        cur := RoundRobin.Round(t, queue, idx, a[..], timeline, completed);
        continue;
      }
      SliceKeepsRun(cur, quantum);
      t, queue, idx, completed, timeline := ServeFront(a, quantum, t, queue, idx, completed, timeline);
      cur := RoundRobin.Round(t, queue, idx, a[..], timeline, completed);
    }
  }

  /** algo_func(procs) over the sorted list a, for each of the six routines. */
  method RunRoutine(a: array<Process>, routine: Routine) returns (timeline: seq<ExecutionRecord>)
    requires forall j :: 0 <= j < a.Length ==> Pristine(a[j])
    requires routine.SjfP? || routine.PriorityP? ==> forall j :: 0 <= j < a.Length ==> a[j].burst > 0
    requires routine.RoundRobinRoutine? ==> routine.quantum > 0
    modifies a
    ensures Scheduled(routine, old(a[..]), a[..], timeline)
  {
    match routine {
      case FcfsRoutine =>
        timeline := Fcfs.DispatchInOrder(a);
      case SjfNp =>
        ghost var order;
        timeline, order := RunNonPreemptive(a, ByBurst, Python);
      case SjfP =>
        ghost var run;
        timeline, run := RunPreemptivePython(a, ByRemaining);
      case PriorityNp =>
        ghost var order;
        timeline, order := RunNonPreemptive(a, ByPriority, Python);
      case PriorityP =>
        ghost var run;
        timeline, run := RunPreemptivePython(a, ByPriority);
      case RoundRobinRoutine(quantum) =>
        timeline := RunRoundRobinPython(a, quantum);
    }
  }

  /**
   * _run_algorithm_python: the dicts, sorted by arrival with Python's stable
   * sorted() (modelled by the stable sort of the working-set module), the
   * routine over them, and the result read off.
   */
  method RunAlgorithmPython(name: string, processes: seq<ProcessInput>, routine: Routine) returns (r: ApiResult)
    requires Terminates(routine, processes)
    ensures Produced(name, routine, processes, r)
  {
    var procs := new Process[|processes|](i requires 0 <= i < |processes| => Fresh(processes[i]));
    assert procs[..] == FreshAll(processes);
    ghost var perm := SortByArrival(procs);
    ghost var sorted := procs[..];
    SortedFresh(routine, processes, sorted, perm);
    var timeline := RunRoutine(procs, routine);
    r := Summary(name, procs[..], timeline);
    ProducedBy(name, routine, processes, sorted, procs[..], timeline);
  }

  /** The fresh dicts, rearranged, are still pristine and keep the bursts the routine needs. */
  lemma SortedFresh(routine: Routine, processes: seq<ProcessInput>, sorted: seq<Process>, perm: seq<int>)
    requires Terminates(routine, processes) && Arranged(FreshAll(processes), sorted, perm)
    ensures forall j :: 0 <= j < |sorted| ==> Pristine(sorted[j])
    ensures routine.SjfP? || routine.PriorityP? ==> forall j :: 0 <= j < |sorted| ==> sorted[j].burst > 0
  {
    forall j | 0 <= j < |sorted|
      ensures Pristine(sorted[j])
      ensures routine.SjfP? || routine.PriorityP? ==> sorted[j].burst > 0
    {
      assert sorted[j] == FreshAll(processes)[perm[j]];
    }
  }

  lemma ProducedBy(name: string, routine: Routine, processes: seq<ProcessInput>, sorted: seq<Process>,
                   s: seq<Process>, timeline: seq<ExecutionRecord>)
    requires Ran(routine, processes, sorted, s, timeline)
    ensures Produced(name, routine, processes, Summary(name, s, timeline))
  {
  }

  /** The name each run_* method passes. */
  function NameOf(algorithm: int, quantum: int): string {
    match algorithm
    case 1 => "FCFS"
    case 2 => "SJF Non-Preemptive"
    case 3 => "SJF Preemptive (SRTF)"
    case 4 => "Priority Non-Preemptive"
    case 5 => "Priority Preemptive"
    case _ => "Round Robin (Q=" + IntToString(quantum) + ")"
  }

  /** The routine each run_* method passes. */
  function RoutineOf(algorithm: int, quantum: int): Routine {
    match algorithm
    case 1 => FcfsRoutine
    case 2 => SjfNp
    case 3 => SjfP
    case 4 => PriorityNp
    case 5 => PriorityP
    case _ => RoundRobinRoutine(quantum)
  }

  /** The Algorithm enum: its members are the values 1 to 6. */
  predicate IsAlgorithm(algorithm: int) {
    1 <= algorithm <= 6
  }

  /**
   * run_algorithm: each Algorithm member runs through its run_* method; any
   * other value raises ValueError naming it.
   */
  method RunAlgorithm(algorithm: int, processes: seq<ProcessInput>, timeQuantum: int := 2) returns (r: Outcome)
    requires IsAlgorithm(algorithm) ==> Terminates(RoutineOf(algorithm, timeQuantum), processes)
    ensures !IsAlgorithm(algorithm) ==> r == ValueError("Unknown algorithm: " + IntToString(algorithm))
    ensures IsAlgorithm(algorithm) ==> r.Done?
    ensures IsAlgorithm(algorithm) ==>
      Produced(NameOf(algorithm, timeQuantum), RoutineOf(algorithm, timeQuantum), processes, r.result)
  {
    if !IsAlgorithm(algorithm) {
      return ValueError("Unknown algorithm: " + IntToString(algorithm));
    }
    var result := RunAlgorithmPython(NameOf(algorithm, timeQuantum), processes, RoutineOf(algorithm, timeQuantum));
    return Done(result);
  }

  /** Two round-robin names are equal only for equal quanta. */
  lemma RoundRobinNamesDiffer(q: int, q': int)
    requires NameOf(6, q) == NameOf(6, q')
    ensures q == q'
  {
    var p, s, s' := "Round Robin (Q=", IntToString(q), IntToString(q');
    assert NameOf(6, q) == p + s + ")";
    assert NameOf(6, q') == p + s' + ")";
    assert s == (p + s + ")")[|p|..|p| + |s|];
    assert s' == (p + s' + ")")[|p|..|p| + |s'|];
    IntToStringInjective(q, q');
  }

  /** The dicts a routine leaves are determined by the sorted list. */
  lemma ScheduledIsUnique(routine: Routine, work: seq<Process>, s: seq<Process>, timeline: seq<ExecutionRecord>,
                          s': seq<Process>, timeline': seq<ExecutionRecord>)
    requires Scheduled(routine, work, s, timeline) && Scheduled(routine, work, s', timeline')
    ensures s == s' && timeline == timeline'
  {
    match routine
    case FcfsRoutine =>
      Fcfs.ServedInTurnUnique(s, s', |s|);
      assert s == s[..|s|] && s' == s'[..|s'|];
    case SjfNp =>
      var o :| NonPreemptiveSchedule(work, s, timeline, o, ByBurst);
      var o' :| NonPreemptiveSchedule(work, s', timeline', o', ByBurst);
      NonPreemptiveDeterministic(work, s, timeline, o, s', timeline', o', ByBurst);
    case SjfP =>
      var u :| PreemptiveSchedule(work, s, timeline, u, ByRemaining);
      var u' :| PreemptiveSchedule(work, s', timeline', u', ByRemaining);
      PreemptiveDeterministic(work, s, timeline, u, s', timeline', u', ByRemaining);
    case PriorityNp =>
      var o :| NonPreemptiveSchedule(work, s, timeline, o, ByPriority);
      var o' :| NonPreemptiveSchedule(work, s', timeline', o', ByPriority);
      NonPreemptiveDeterministic(work, s, timeline, o, s', timeline', o', ByPriority);
    case PriorityP =>
      var u :| PreemptiveSchedule(work, s, timeline, u, ByPriority);
      var u' :| PreemptiveSchedule(work, s', timeline', u', ByPriority);
      PreemptiveDeterministic(work, s, timeline, u, s', timeline', u', ByPriority);
    case RoundRobinRoutine(_) =>
  }

  /** _run_algorithm_python is a function of its arguments. */
  lemma ProducedIsUnique(name: string, routine: Routine, processes: seq<ProcessInput>, r: ApiResult, r': ApiResult)
    requires Produced(name, routine, processes, r) && Produced(name, routine, processes, r')
    ensures r == r'
  {
    var sorted, s, timeline :| Ran(routine, processes, sorted, s, timeline) && r == Summary(name, s, timeline);
    var sorted', s', timeline' :| Ran(routine, processes, sorted', s', timeline') && r' == Summary(name, s', timeline');
    StableSortIsUnique(FreshAll(processes), sorted, sorted');
    ScheduledIsUnique(routine, sorted, s, timeline, s', timeline');
  }

  /** The processes api_add_process loads for the same inputs: reset, they are the Python dicts. */
  lemma LoadedResetIsFresh(processes: seq<ProcessInput>)
    ensures ResetAll(FreshAll(processes)) == FreshAll(processes)
  {
    forall i | 0 <= i < |processes| ensures ResetAll(FreshAll(processes))[i] == FreshAll(processes)[i] {
      ResetCharacterised(FreshAll(processes)[i], FreshAll(processes)[i]);
    }
  }

  /**
   * FCFS and round robin schedule the same way in both engines: loaded into
   * the C++ pool and run there, or run by the Python fallback, the same
   * inputs give the same processes, in the same order, and the same
   * timeline.
   */
  lemma EnginesAgree(algorithm: int, quantum: int, processes: seq<ProcessInput>,
                     cpp: SchedulingResult, py: ApiResult)
    requires algorithm == 1 || algorithm == 6
    requires Api.Produced(algorithm, quantum, FreshAll(processes), cpp)
    requires Produced(NameOf(algorithm, quantum), RoutineOf(algorithm, quantum), processes, py)
    ensures py.processes == Results(cpp.processes) && py.timeline == Entries(cpp.timeline)
  {
    var routine := RoutineOf(algorithm, quantum);
    var sorted, s, timeline :| Ran(routine, processes, sorted, s, timeline)
                               && py == Summary(NameOf(algorithm, quantum), s, timeline);
    LoadedResetIsFresh(processes);
    if algorithm == 1 {
      FcfsEnginesAgree(processes, sorted, s, timeline, cpp);
    } else {
      var sortedC :| Api.RoundRobinOf(FreshAll(processes), quantum, sortedC, cpp);
      StableSortIsUnique(FreshAll(processes), sorted, sortedC);
    }
    assert s == cpp.processes && timeline == cpp.timeline;
  }

  lemma FcfsEnginesAgree(processes: seq<ProcessInput>, sorted: seq<Process>, s: seq<Process>,
                         timeline: seq<ExecutionRecord>, cpp: SchedulingResult)
    requires ResetAll(FreshAll(processes)) == FreshAll(processes)
    requires IsStableSortByArrival(FreshAll(processes), sorted) && InTurn(sorted, s, timeline)
    requires Fcfs.FcfsSchedule(FreshAll(processes), cpp.processes, cpp.timeline)
    ensures s == cpp.processes && timeline == cpp.timeline
  {
    var perm :| Arranged(FreshAll(processes), sorted, perm);
    forall k | 0 <= k < |sorted| ensures Pristine(sorted[k]) {
      assert sorted[k] == FreshAll(processes)[perm[k]];
    }
    Fcfs.ResetAfterDispatch(sorted, s);
    assert Fcfs.FcfsSchedule(FreshAll(processes), s, timeline);
    Fcfs.FcfsDeterministic(FreshAll(processes), s, timeline, cpp.processes, cpp.timeline);
  }
}
