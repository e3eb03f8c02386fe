/*
 * The C interface of api.cpp: a global pool of MAX_PROCESSES processes with a
 * count of the loaded ones, and the result of the last algorithm run. The
 * three globals are the fields of one Api object.
 */
module Api {
  import opened Types
  import opened WorkingSet
  import opened Selection
  import opened NonPreemptive
  import opened Preemptive
  import Fcfs
  import Sjf
  import Priority
  import RoundRobin

  /** The zero-initialised api_last_result before any run. */
  const BLANK_RESULT: SchedulingResult := SchedulingResult("", [], [], Some(Statistics(0.0, 0.0, 0.0)))

  /** The selectors api_run_algorithm dispatches on. */
  predicate KnownAlgorithm(algorithm: int) {
    1 <= algorithm <= 6
  }

  /**
   * What each algorithm needs of the loaded processes to finish: keys under
   * the scan sentinel, positive bursts for the preemptive loops, a positive
   * quantum and distinct ids for round robin.
   */
  predicate Runnable(algorithm: int, quantum: int, input: seq<Process>) {
    match algorithm
    case 2 => forall j :: 0 <= j < |input| ==> input[j].burst < SCAN_SENTINEL
    case 3 => forall j :: 0 <= j < |input| ==> 0 < input[j].burst < SCAN_SENTINEL
    case 4 => forall j :: 0 <= j < |input| ==> input[j].priority < SCAN_SENTINEL
    case 5 => forall j :: 0 <= j < |input| ==> input[j].burst > 0 && input[j].priority < SCAN_SENTINEL
    case 6 => quantum > 0 && UniqueIds(input)
    case _ => true
  }

  /** r is the result the selected algorithm produces for the input. */
  ghost predicate Produced(algorithm: int, quantum: int, input: seq<Process>, r: SchedulingResult) {
    && r.stats == None
    && match algorithm
       case 1 =>
         r.algorithm == Fcfs.NAME && Fcfs.FcfsSchedule(input, r.processes, r.timeline)
       case 2 =>
         r.algorithm == Sjf.NON_PREEMPTIVE_NAME
         && exists order :: NonPreemptiveSchedule(ResetAll(input), r.processes, r.timeline, order, ByBurst)
       case 3 =>
         r.algorithm == Sjf.PREEMPTIVE_NAME
         && exists run :: PreemptiveSchedule(ResetAll(input), r.processes, r.timeline, run, ByRemaining)
       case 4 =>
         r.algorithm == Priority.NON_PREEMPTIVE_NAME
         && exists order :: NonPreemptiveSchedule(ResetAll(input), r.processes, r.timeline, order, ByPriority)
       case 5 =>
         r.algorithm == Priority.PREEMPTIVE_NAME
         && exists run :: PreemptiveSchedule(ResetAll(input), r.processes, r.timeline, run, ByPriority)
       case 6 =>
         r.algorithm == RoundRobin.NAME
         && exists sorted :: RoundRobinOf(input, quantum, sorted, r)
       case _ => false
  }

  /** r is the round-robin schedule of sorted, the stably sorted reset copy of the input. */
  ghost predicate RoundRobinOf(input: seq<Process>, quantum: int, sorted: seq<Process>, r: SchedulingResult) {
    && quantum > 0
    && IsStableSortByArrival(ResetAll(input), sorted)
    && (forall i :: 0 <= i < |sorted| ==> Pristine(sorted[i]))
    && r.processes == RoundRobin.Schedule(sorted, quantum).procs
    && r.timeline == RoundRobin.Schedule(sorted, quantum).timeline
  }

  class Api {
    /** api_processes. */
    const pool: array<Process>
    /** api_process_count. */
    var count: int
    /** api_last_result. */
    var lastResult: SchedulingResult

    ghost predicate Valid()
      reads this
    {
      pool.Length == MAX_PROCESSES && 0 <= count <= MAX_PROCESSES
    }

    /** The processes loaded so far. */
    ghost function Loaded(): seq<Process>
      requires Valid()
      reads this, pool
    {
      pool[..count]
    }

    /** The globals at program start: a zeroed pool, no processes, a zeroed result. */
    constructor ()
      ensures Valid() && fresh(pool) && Loaded() == []
      ensures forall i :: 0 <= i < pool.Length ==> pool[i] == ZeroProcess
      ensures lastResult == BLANK_RESULT
    {
      pool := new Process[MAX_PROCESSES](_ => ZeroProcess);
      count := 0;
      lastResult := BLANK_RESULT;
    }

    /** api_reset: no process loaded, and every slot of the pool zeroed again. */
    method Reset()
      requires Valid()
      modifies this, pool
      ensures Valid() && Loaded() == [] && lastResult == old(lastResult)
      ensures forall i :: 0 <= i < pool.Length ==> pool[i] == ZeroProcess
    {
      count := 0;
      var i := 0;
      while i < MAX_PROCESSES
        invariant 0 <= i <= MAX_PROCESSES && Valid() && count == 0
        invariant lastResult == old(lastResult)
        invariant forall k :: 0 <= k < i ==> pool[k] == ZeroProcess
      {
        pool[i] := ZeroProcess;
        i := i + 1;
      }
    }

    /**
     * api_add_process: a full pool refuses the process and changes nothing;
     * otherwise the created process is stored after the loaded ones.
     */
    method AddProcess(id: int, arrival: int, burst: int, priority: int) returns (ok: bool)
      requires Valid()
      modifies this, pool
      ensures Valid() && lastResult == old(lastResult)
      ensures ok <==> old(count) < MAX_PROCESSES
      ensures !ok ==> count == old(count) && pool[..] == old(pool[..])
      ensures ok ==> count == old(count) + 1
      ensures ok ==> pool[..] == old(pool[..])[old(count) := CreateProcess(id, arrival, burst, priority)]
      ensures ok ==> Loaded() == old(Loaded()) + [CreateProcess(id, arrival, burst, priority)]
    {
      if count >= MAX_PROCESSES {
        return false;
      }
      pool[count] := CreateProcess(id, arrival, burst, priority);
      count := count + 1;
      return true;
    }

    /**
     * api_run_algorithm: null when nothing is loaded or the selector is not
     * 1..6; otherwise the selected algorithm runs over the loaded processes,
     * its result is stored in lastResult and returned. The pool is not
     * touched.
     */
    method RunAlgorithm(algorithm: int, quantum: int := DEFAULT_TIME_QUANTUM) returns (r: Option<SchedulingResult>)
      requires Valid()
      requires count > 0 ==> Runnable(algorithm, quantum, Loaded())
      modifies this
      ensures Valid() && count == old(count) && Loaded() == old(Loaded())
      ensures old(count) == 0 || !KnownAlgorithm(algorithm) ==> r == None && lastResult == old(lastResult)
      ensures old(count) > 0 && KnownAlgorithm(algorithm) ==> r == Some(lastResult)
      ensures old(count) > 0 && KnownAlgorithm(algorithm) ==> Produced(algorithm, quantum, Loaded(), lastResult)
    {
      if count == 0 {
        return None;
      }
      var input := pool[..count];
      match algorithm {
      case 1 =>
        lastResult := Fcfs.Fcfs(input);
      case 2 =>
        ghost var order;
        lastResult, order := Sjf.SjfNonPreemptive(input);
      case 3 =>
        ghost var run;
        lastResult, run := Sjf.SjfPreemptive(input);
      case 4 =>
        ghost var order;
        lastResult, order := Priority.PriorityNonPreemptive(input);
      case 5 =>
        ghost var run;
        lastResult, run := Priority.PriorityPreemptive(input);
      case 6 =>
        ghost var sorted;
        lastResult, sorted := RoundRobin.RoundRobin(input, quantum);
        assert RoundRobinOf(input, quantum, sorted, lastResult);
      case _ =>
        return None;
      }
      return Some(lastResult);
    }
  }

  /**
   * The stored result is a function of the loaded processes, the selector
   * and the quantum: two results the same run may produce are equal.
   */
  lemma ProducedIsUnique(algorithm: int, quantum: int, input: seq<Process>, r: SchedulingResult, r': SchedulingResult)
    requires Produced(algorithm, quantum, input, r) && Produced(algorithm, quantum, input, r')
    ensures r == r'
  {
    match algorithm
    case 1 =>
      Fcfs.FcfsDeterministic(input, r.processes, r.timeline, r'.processes, r'.timeline);
    case 2 =>
      var o :| NonPreemptiveSchedule(ResetAll(input), r.processes, r.timeline, o, ByBurst);
      var o' :| NonPreemptiveSchedule(ResetAll(input), r'.processes, r'.timeline, o', ByBurst);
      NonPreemptiveDeterministic(ResetAll(input), r.processes, r.timeline, o, r'.processes, r'.timeline, o', ByBurst);
    case 3 =>
      var u :| PreemptiveSchedule(ResetAll(input), r.processes, r.timeline, u, ByRemaining);
      var u' :| PreemptiveSchedule(ResetAll(input), r'.processes, r'.timeline, u', ByRemaining);
      PreemptiveDeterministic(ResetAll(input), r.processes, r.timeline, u, r'.processes, r'.timeline, u', ByRemaining);
    case 4 =>
      var o :| NonPreemptiveSchedule(ResetAll(input), r.processes, r.timeline, o, ByPriority);
      var o' :| NonPreemptiveSchedule(ResetAll(input), r'.processes, r'.timeline, o', ByPriority);
      NonPreemptiveDeterministic(ResetAll(input), r.processes, r.timeline, o, r'.processes, r'.timeline, o', ByPriority);
    case 5 =>
      var u :| PreemptiveSchedule(ResetAll(input), r.processes, r.timeline, u, ByPriority);
      var u' :| PreemptiveSchedule(ResetAll(input), r'.processes, r'.timeline, u', ByPriority);
      PreemptiveDeterministic(ResetAll(input), r.processes, r.timeline, u, r'.processes, r'.timeline, u', ByPriority);
    case 6 =>
      var s :| RoundRobinOf(input, quantum, s, r);
      var s' :| RoundRobinOf(input, quantum, s', r');
      StableSortIsUnique(ResetAll(input), s, s');
  }
}
