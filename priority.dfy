/*
 * Priority scheduling, where a smaller number means a higher priority:
 * priority_non_preemptive runs the arrived process with the smallest
 * priority number to completion; priority_preemptive gives every tick to it.
 * Both scan the working set in its input order, so ties go to the earlier
 * slot.
 */
module Priority {
  import opened Types
  import opened WorkingSet
  import opened Selection
  import opened NonPreemptive
  import opened Preemptive

  const NON_PREEMPTIVE_NAME: string := "Priority (Non-Preemptive)"
  const PREEMPTIVE_NAME: string := "Priority (Preemptive)"

  /**
   * priority_non_preemptive. A priority number of 999999 or more never beats
   * the scan's starting bound, so the source would spin forever: such
   * priorities are excluded.
   */
  method PriorityNonPreemptive(input: seq<Process>) returns (result: SchedulingResult, ghost order: seq<int>)
    requires |input| <= MAX_PROCESSES
    requires forall j :: 0 <= j < |input| ==> input[j].priority < SCAN_SENTINEL
    ensures result.algorithm == NON_PREEMPTIVE_NAME && result.stats == None
    ensures NonPreemptiveSchedule(ResetAll(input), result.processes, result.timeline, order, ByPriority)
  {
    var work := CloneReset(input);
    var timeline;
    timeline, order := RunNonPreemptive(work, ByPriority, Cpp);
    result := SchedulingResult(NON_PREEMPTIVE_NAME, work[..], timeline, None);
  }

  /**
   * priority_preemptive. A burst of 0 or less is never counted as completed
   * and a priority number of 999999 or more is never chosen; either would
   * keep the loop running forever.
   */
  method PriorityPreemptive(input: seq<Process>) returns (result: SchedulingResult, ghost run: seq<int>)
    requires |input| <= MAX_PROCESSES
    requires forall j :: 0 <= j < |input| ==> input[j].burst > 0 && input[j].priority < SCAN_SENTINEL
    ensures result.algorithm == PREEMPTIVE_NAME && result.stats == None
    ensures PreemptiveSchedule(ResetAll(input), result.processes, result.timeline, run, ByPriority)
  {
    var work := CloneReset(input);
    var timeline;
    timeline, run := RunPreemptive(work, ByPriority, Cpp);
    result := SchedulingResult(PREEMPTIVE_NAME, work[..], timeline, None);
  }
}
