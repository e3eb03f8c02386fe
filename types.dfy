/*
 * The records shared by the scheduling engine and the containers: a process,
 * an execution record of the timeline, and the scheduling result.
 */
module Types {

  /** Capacity of SchedulingResult.processes and of the process pool. */
  const MAX_PROCESSES: int := 100
  /** Capacity of SchedulingResult.timeline. */
  const MAX_TIMELINE: int := 1000
  const DEFAULT_TIME_QUANTUM: int := 2

  datatype Option<T> = None | Some(value: T)

  /**
   * A process: the four descriptor fields given by the caller, then the
   * bookkeeping fields the algorithms fill in.
   */
  datatype Process = Process(
    id: int,
    arrival: int,
    burst: int,
    priority: int,
    remaining: int,
    waiting: int,
    turnaround: int,
    completion: int,
    start: int,
    completed: bool)

  /** One busy span [start, end) of the timeline. */
  datatype ExecutionRecord = ExecutionRecord(pid: int, start: int, end: int)

  datatype Statistics = Statistics(avgWaiting: real, avgTurnaround: real, cpuUtilization: real)

  /**
   * The result of one algorithm run. `stats` is None until the aggregates are
   * computed: the algorithms themselves never write them.
   */
  datatype SchedulingResult = SchedulingResult(
    algorithm: string,
    processes: seq<Process>,
    timeline: seq<ExecutionRecord>,
    stats: Option<Statistics>)

  /** A value-initialised Process, every field zero. */
  const ZeroProcess: Process := Process(0, 0, 0, 0, 0, 0, 0, 0, 0, false)

  /** Two processes describe the same job (caller-supplied fields agree). */
  predicate SameDescriptor(p: Process, q: Process) {
    p.id == q.id && p.arrival == q.arrival && p.burst == q.burst && p.priority == q.priority
  }

  /** Every bookkeeping field holds its creation value. */
  predicate Pristine(p: Process) {
    && p.remaining == p.burst
    && p.waiting == 0
    && p.turnaround == 0
    && p.completion == 0
    && p.start == -1
    && !p.completed
  }

  /** Turnaround and waiting are derived from the completion time. */
  predicate Accounted(p: Process) {
    p.turnaround == p.completion - p.arrival && p.waiting == p.turnaround - p.burst
  }

  /** A process the engine has finished with. */
  predicate Finished(p: Process) {
    p.completed && Accounted(p)
  }

  predicate UniqueIds(s: seq<Process>) {
    forall i, j :: 0 <= i < j < |s| ==> s[i].id != s[j].id
  }

  /** create_process; the priority defaults to 1 when omitted. */
  function CreateProcess(id: int, arrival: int, burst: int, priority: int := 1): (p: Process)
    ensures Pristine(p)
    ensures p.id == id && p.arrival == arrival && p.burst == burst && p.priority == priority
  {
    Process(id, arrival, burst, priority, burst, 0, 0, 0, -1, false)
  }

  /** The value reset_process leaves in its argument. */
  function Reset(p: Process): (r: Process)
    ensures Pristine(r) && SameDescriptor(r, p)
  {
    p.(remaining := p.burst, waiting := 0, turnaround := 0, completion := 0, start := -1, completed := false)
  }

  /** reset_process on the slot a[i], overwriting the bookkeeping fields in place. */
  method ResetProcess(a: array<Process>, i: nat)
    requires i < a.Length
    modifies a
    ensures a[..] == old(a[..])[i := Reset(old(a[i]))]
  {
    a[i] := a[i].(remaining := a[i].burst);
    a[i] := a[i].(waiting := 0, turnaround := 0, completion := 0);
    a[i] := a[i].(start := -1, completed := false);
  }

  /** Reset is the only pristine process with the descriptor it was given. */
  lemma ResetCharacterised(p: Process, q: Process)
    ensures (Pristine(q) && SameDescriptor(q, p)) <==> q == Reset(p)
  {
  }

  lemma ResetIdempotent(p: Process)
    ensures Reset(Reset(p)) == Reset(p)
  {
  }

  lemma ResetOfCreated(id: int, arrival: int, burst: int, priority: int)
    ensures Reset(CreateProcess(id, arrival, burst, priority)) == CreateProcess(id, arrival, burst, priority)
  {
  }

  lemma DefaultPriorityIsOne(id: int, arrival: int, burst: int)
    ensures CreateProcess(id, arrival, burst).priority == 1
  {
  }

  /** What a run-to-completion dispatch at time t writes into a process. */
  function RunToCompletion(p: Process, t: int): (r: Process)
    ensures SameDescriptor(r, p) && r.remaining == p.remaining
    ensures r.start == t && r.completion == t + p.burst && Finished(r)
  {
    p.(start := t, completion := t + p.burst, turnaround := t + p.burst - p.arrival,
       waiting := t + p.burst - p.arrival - p.burst, completed := true)
  }

  /** The dispatch of the slot a[i] at time t, writing the fields one after another. */
  method RunToCompletionAt(a: array<Process>, i: nat, t: int)
    requires i < a.Length
    modifies a
    ensures a[..] == old(a[..])[i := RunToCompletion(old(a[i]), t)]
  {
    a[i] := a[i].(start := t, completion := t + a[i].burst);
    a[i] := a[i].(turnaround := a[i].completion - a[i].arrival);
    a[i] := a[i].(waiting := a[i].turnaround - a[i].burst, completed := true);
  }

  /** The working copy every algorithm starts from. */
  function ResetAll(s: seq<Process>): (r: seq<Process>)
    ensures |r| == |s|
    ensures forall i :: 0 <= i < |s| ==> r[i] == Reset(s[i])
  {
    seq(|s|, i requires 0 <= i < |s| => Reset(s[i]))
  }

  /** The record a run-to-completion dispatch of p writes. */
  function RecordOf(p: Process): ExecutionRecord {
    ExecutionRecord(p.id, p.start, p.completion)
  }

  function Max(a: int, b: int): int {
    if a < b then b else a
  }

  /** Number of processes flagged completed. */
  function CountCompleted(s: seq<Process>): (c: nat)
    ensures c <= |s|
    ensures c == |s| <==> forall i :: 0 <= i < |s| ==> s[i].completed
  {
    if s == [] then 0
    else CountCompleted(s[..|s| - 1]) + (if s[|s| - 1].completed then 1 else 0)
  }

  lemma {:induction false} CountCompletedUpdate(s: seq<Process>, i: nat, p: Process)
    requires i < |s|
    ensures CountCompleted(s[i := p]) ==
      CountCompleted(s) - (if s[i].completed then 1 else 0) + (if p.completed then 1 else 0)
    decreases |s|
  {
    var t := s[i := p];
    if i < |s| - 1 {
      assert t[..|t| - 1] == s[..|s| - 1][i := p];
      CountCompletedUpdate(s[..|s| - 1], i, p);
    } else {
      assert t[..|t| - 1] == s[..|s| - 1];
    }
  }

  lemma {:induction false} CountCompletedNone(s: seq<Process>)
    requires forall i :: 0 <= i < |s| ==> !s[i].completed
    ensures CountCompleted(s) == 0
  {
    if s != [] {
      CountCompletedNone(s[..|s| - 1]);
    }
  }

  /** Sum of the weight w over the processes of s. */
  function Total(s: seq<Process>, w: Process -> int): int {
    if s == [] then 0 else Total(s[..|s| - 1], w) + w(s[|s| - 1])
  }

  /** Work still owed to a process. */
  function RemainingOf(p: Process): int {
    p.remaining
  }

  lemma {:induction false} TotalUpdate(s: seq<Process>, i: nat, p: Process, w: Process -> int)
    requires i < |s|
    ensures Total(s[i := p], w) == Total(s, w) - w(s[i]) + w(p)
    decreases |s|
  {
    var t := s[i := p];
    if i < |s| - 1 {
      assert t[..|t| - 1] == s[..|s| - 1][i := p];
      TotalUpdate(s[..|s| - 1], i, p, w);
    } else {
      assert t[..|t| - 1] == s[..|s| - 1];
    }
  }

  lemma {:induction false} TotalNonNegative(s: seq<Process>, w: Process -> int)
    requires forall i :: 0 <= i < |s| ==> w(s[i]) >= 0
    ensures Total(s, w) >= 0
  {
    if s != [] {
      TotalNonNegative(s[..|s| - 1], w);
    }
  }

  /** Largest arrival time; an upper bound for every arrival. */
  function MaxArrival(s: seq<Process>): (m: int)
    requires s != []
    ensures forall i :: 0 <= i < |s| ==> s[i].arrival <= m
    ensures exists i :: 0 <= i < |s| && s[i].arrival == m
  {
    if |s| == 1 then s[0].arrival
    else
      var m' := MaxArrival(s[..|s| - 1]);
      assert forall i :: 0 <= i < |s| - 1 ==> s[..|s| - 1][i] == s[i];
      if s[|s| - 1].arrival > m' then s[|s| - 1].arrival else m'
  }
}
