/*
 * Shortest Job First: sjf_non_preemptive runs the arrived process with the
 * smallest burst to completion; sjf_preemptive (Shortest Remaining Time
 * First) gives every tick to the arrived process with the least remaining
 * time. Both scan the working set in its input order, so ties go to the
 * earlier slot.
 */
module Sjf {
  import opened Types
  import opened WorkingSet
  import opened Selection
  import opened NonPreemptive
  import opened Preemptive

  const NON_PREEMPTIVE_NAME: string := "SJF (Non-Preemptive)"
  const PREEMPTIVE_NAME: string := "SJF Preemptive (SRTF)"

  /**
   * sjf_non_preemptive. A burst of 999999 or more never beats the scan's
   * starting bound, so the source would spin forever: such bursts are excluded.
   */
  method SjfNonPreemptive(input: seq<Process>) returns (result: SchedulingResult, ghost order: seq<int>)
    requires |input| <= MAX_PROCESSES
    requires forall j :: 0 <= j < |input| ==> input[j].burst < SCAN_SENTINEL
    ensures result.algorithm == NON_PREEMPTIVE_NAME && result.stats == None
    ensures NonPreemptiveSchedule(ResetAll(input), result.processes, result.timeline, order, ByBurst)
  {
    var work := CloneReset(input);
    var timeline;
    timeline, order := RunNonPreemptive(work, ByBurst, Cpp);
    result := SchedulingResult(NON_PREEMPTIVE_NAME, work[..], timeline, None);
  }

  /**
   * sjf_preemptive. A burst of 0 or less is never counted as completed, and
   * one of 999999 or more is never chosen: either would keep the loop running
   * forever, so bursts lie strictly between the two.
   */
  method SjfPreemptive(input: seq<Process>) returns (result: SchedulingResult, ghost run: seq<int>)
    requires |input| <= MAX_PROCESSES
    requires forall j :: 0 <= j < |input| ==> 0 < input[j].burst < SCAN_SENTINEL
    ensures result.algorithm == PREEMPTIVE_NAME && result.stats == None
    ensures PreemptiveSchedule(ResetAll(input), result.processes, result.timeline, run, ByRemaining)
  {
    var work := CloneReset(input);
    var timeline;
    timeline, run := RunPreemptive(work, ByRemaining, Cpp);
    result := SchedulingResult(PREEMPTIVE_NAME, work[..], timeline, None);
  }
}
