/*
 * calculate_statistics: the aggregates of a scheduling result, from one pass
 * over its processes. The double arithmetic is modelled with reals over the
 * integer sums.
 */
module Aggregates {
  import opened Types

  function WaitingOf(p: Process): int {
    p.waiting
  }

  function TurnaroundOf(p: Process): int {
    p.turnaround
  }

  function BurstOf(p: Process): int {
    p.burst
  }

  /** The running maximum of the completion times, starting from 0. */
  function MaxCompletion(s: seq<Process>): int {
    if s == [] then 0
    else Max(MaxCompletion(s[..|s| - 1]), s[|s| - 1].completion)
  }

  /** The running minimum of the arrival times, starting from the first. */
  function MinArrival(s: seq<Process>): int
    requires s != []
  {
    if |s| == 1 then s[0].arrival
    else
      var m := MinArrival(s[..|s| - 1]);
      if s[|s| - 1].arrival < m then s[|s| - 1].arrival else m
  }

  /** The running maximum is the latest completion time, or 0 when that is negative or there is none. */
  lemma {:induction false} MaxCompletionIsLatest(s: seq<Process>)
    ensures MaxCompletion(s) >= 0
    ensures forall i :: 0 <= i < |s| ==> s[i].completion <= MaxCompletion(s)
    ensures MaxCompletion(s) == 0 || exists i :: 0 <= i < |s| && s[i].completion == MaxCompletion(s)
  {
    if s != [] {
      var s' := s[..|s| - 1];
      MaxCompletionIsLatest(s');
      assert forall i :: 0 <= i < |s'| ==> s'[i] == s[i];
    }
  }

  /** The running minimum is the earliest arrival time. */
  lemma {:induction false} MinArrivalIsEarliest(s: seq<Process>)
    requires s != []
    ensures forall i :: 0 <= i < |s| ==> MinArrival(s) <= s[i].arrival
    ensures exists i :: 0 <= i < |s| && s[i].arrival == MinArrival(s)
  {
    if |s| > 1 {
      var s' := s[..|s| - 1];
      MinArrivalIsEarliest(s');
      assert forall i :: 0 <= i < |s'| ==> s'[i] == s[i];
      if s[|s| - 1].arrival >= MinArrival(s') {
        var k :| 0 <= k < |s'| && s'[k].arrival == MinArrival(s');
        assert s[k].arrival == MinArrival(s);
      } else {
        assert s[|s| - 1].arrival == MinArrival(s);
      }
    } else {
      assert s[0].arrival == MinArrival(s);
    }
  }

  /**
   * The span the utilisation is measured over: from the earliest arrival to
   * the latest completion (the running maximum starts at 0, the minimum at
   * the first arrival, and both are 0 for no processes).
   */
  function Span(s: seq<Process>): int {
    MaxCompletion(s) - (if s == [] then 0 else MinArrival(s))
  }

  /** total / n as a double, or 0 when there is nothing to average. */
  function Average(total: int, n: int): real {
    if n > 0 then total as real / n as real else 0.0
  }

  /** part as a percentage of a positive whole, or 0 when the whole is not positive. */
  function Percentage(part: int, whole: int): real {
    if whole > 0 then part as real / whole as real * 100.0 else 0.0
  }

  /** The aggregates calculate_statistics writes for the processes s. */
  function StatisticsOf(s: seq<Process>): Statistics {
    Statistics(
      Average(Total(s, WaitingOf), |s|),
      Average(Total(s, TurnaroundOf), |s|),
      Percentage(Total(s, BurstOf), Span(s)))
  }

  /** An average times the count gives back the total. */
  lemma AverageTimesCount(total: int, n: int)
    requires n > 0
    ensures Average(total, n) * (n as real) == total as real
  {
  }

  /** A percentage of a positive whole, times the whole, is 100 times the part. */
  lemma PercentageTimesWhole(part: int, whole: int)
    requires whole > 0
    ensures Percentage(part, whole) * (whole as real) == 100.0 * (part as real)
  {
    var q := part as real / whole as real;
    assert q * (whole as real) == part as real;
    assert q * 100.0 * (whole as real) == q * (whole as real) * 100.0;
  }

  lemma DivideSum(a: real, b: real, d: real)
    requires d > 0.0
    ensures (a + b) / d == a / d + b / d
  {
  }

  lemma DivideNonNegative(a: real, d: real)
    requires a >= 0.0 && d > 0.0
    ensures a / d >= 0.0
  {
  }

  /**
   * What the aggregates mean: each average times the number of processes is
   * the total, every aggregate is 0 for no processes, and the utilisation
   * is the total burst as a percentage of the span, or 0 for an empty span.
   */
  lemma StatisticsMeaning(s: seq<Process>)
    ensures |s| > 0 ==> StatisticsOf(s).avgWaiting * (|s| as real) == Total(s, WaitingOf) as real
    ensures |s| > 0 ==> StatisticsOf(s).avgTurnaround * (|s| as real) == Total(s, TurnaroundOf) as real
    ensures |s| == 0 ==> StatisticsOf(s) == Statistics(0.0, 0.0, 0.0)
    ensures Span(s) > 0 ==> StatisticsOf(s).cpuUtilization * (Span(s) as real) == 100.0 * (Total(s, BurstOf) as real)
    ensures Span(s) <= 0 ==> StatisticsOf(s).cpuUtilization == 0.0
  {
    if |s| > 0 {
      AverageTimesCount(Total(s, WaitingOf), |s|);
      AverageTimesCount(Total(s, TurnaroundOf), |s|);
    }
    if Span(s) > 0 {
      PercentageTimesWhole(Total(s, BurstOf), Span(s));
    }
  }

  /**
   * calculate_statistics: one pass accumulating the waiting, turnaround and
   * burst totals, the latest completion and the earliest arrival; only the
   * aggregates of the result are written.
   */
  method CalculateStatistics(result: SchedulingResult) returns (r: SchedulingResult)
    ensures r == result.(stats := Some(StatisticsOf(result.processes)))
  {
    var ps := result.processes;
    var n := |ps|;
    var totalWaiting, totalTurnaround, totalBurst := 0, 0, 0;
    var maxCompletion := 0;
    var minArrival := if n > 0 then ps[0].arrival else 0;
    var i := 0;
    while i < n
      invariant 0 <= i <= n
      invariant totalWaiting == Total(ps[..i], WaitingOf)
      invariant totalTurnaround == Total(ps[..i], TurnaroundOf)
      invariant totalBurst == Total(ps[..i], BurstOf)
      invariant maxCompletion == MaxCompletion(ps[..i])
      invariant n > 0 ==> minArrival == MinArrival(ps[..Max(i, 1)])
    {
      assert ps[..i + 1][..i] == ps[..i];
      totalWaiting := totalWaiting + ps[i].waiting;
      totalTurnaround := totalTurnaround + ps[i].turnaround;
      totalBurst := totalBurst + ps[i].burst;
      if ps[i].completion > maxCompletion {
        maxCompletion := ps[i].completion;
      }
      if ps[i].arrival < minArrival {
        minArrival := ps[i].arrival;
      }
      i := i + 1;
    }
    assert ps[..n] == ps;
    var avgWaiting := if n > 0 then totalWaiting as real / n as real else 0.0;
    var avgTurnaround := if n > 0 then totalTurnaround as real / n as real else 0.0;
    var totalTime := maxCompletion - minArrival;
    var utilisation := if totalTime > 0 then totalBurst as real / totalTime as real * 100.0 else 0.0;
    r := result.(stats := Some(Statistics(avgWaiting, avgTurnaround, utilisation)));
  }

  /** Sum of the turnaround times, when each is waiting plus burst. */
  lemma {:induction false} TurnaroundTotal(s: seq<Process>)
    requires forall i :: 0 <= i < |s| ==> Accounted(s[i])
    ensures Total(s, TurnaroundOf) == Total(s, WaitingOf) + Total(s, BurstOf)
  {
    if s != [] {
      TurnaroundTotal(s[..|s| - 1]);
    }
  }

  /**
   * For processes whose turnaround and waiting are derived from their
   * completion, the average turnaround exceeds the average waiting by the
   * average burst.
   */
  lemma AverageTurnaroundIsWaitingPlusBurst(s: seq<Process>)
    requires s != []
    requires forall i :: 0 <= i < |s| ==> Accounted(s[i])
    ensures StatisticsOf(s).avgTurnaround
         == StatisticsOf(s).avgWaiting + (Total(s, BurstOf) as real) / (|s| as real)
  {
    TurnaroundTotal(s);
    DivideSum(Total(s, WaitingOf) as real, Total(s, BurstOf) as real, |s| as real);
  }

  /** With no negative waiting time and no negative burst, no aggregate is negative. */
  lemma AggregatesNonNegative(s: seq<Process>)
    requires forall i :: 0 <= i < |s| ==> s[i].waiting >= 0 && s[i].burst >= 0 && Accounted(s[i])
    ensures StatisticsOf(s).avgWaiting >= 0.0
    ensures StatisticsOf(s).avgTurnaround >= StatisticsOf(s).avgWaiting
    ensures StatisticsOf(s).cpuUtilization >= 0.0
  {
    TotalNonNegative(s, WaitingOf);
    TotalNonNegative(s, BurstOf);
    if s != [] {
      AverageTurnaroundIsWaitingPlusBurst(s);
      DivideNonNegative(Total(s, WaitingOf) as real, |s| as real);
      DivideNonNegative(Total(s, BurstOf) as real, |s| as real);
    }
    if Span(s) > 0 {
      DivideNonNegative(Total(s, BurstOf) as real, Span(s) as real);
    }
  }
}
