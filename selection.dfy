/*
 * The selection scan shared by the SJF and Priority algorithms: a linear pass
 * over the working set that keeps the first strictly smaller key among the
 * processes that have arrived and still need the CPU.
 */
module Selection {
  import opened Types

  /** The starting bound of the C++ scans; a key at or above it is never chosen. */
  const SCAN_SENTINEL: int := 999999

  /** Which field the scan minimises. */
  datatype Key = ByBurst | ByRemaining | ByPriority

  /**
   * What "still needs the CPU" means: the C++ loops and the Python
   * non-preemptive loops test the completed flag, the Python preemptive loops
   * test remaining > 0.
   */
  datatype Gate = NotCompleted | RemainingLeft

  /**
   * The two engines that run these loops: the C++ functions (completed flag,
   * scan bound 999999) and the Python fallback (remaining > 0 in the
   * preemptive loops, scan bound float('inf')).
   */
  datatype Engine = Cpp | Python

  function LimitOf(engine: Engine): Option<int> {
    if engine == Cpp then Some(SCAN_SENTINEL) else None
  }

  function KeyOf(p: Process, key: Key): int {
    match key
    case ByBurst => p.burst
    case ByRemaining => p.remaining
    case ByPriority => p.priority
  }

  predicate Eligible(p: Process, t: int, gate: Gate) {
    p.arrival <= t && (if gate == NotCompleted then !p.completed else p.remaining > 0)
  }

  /** v is below the scan's starting bound; None stands for Python's float('inf'). */
  predicate UnderLimit(v: int, limit: Option<int>) {
    limit.None? || v < limit.value
  }

  /** i wins against j: a strictly smaller key, or an equal key at a lower index. */
  predicate Beats(s: seq<Process>, key: Key, i: int, j: int)
    requires 0 <= i < |s| && 0 <= j < |s|
  {
    KeyOf(s[i], key) < KeyOf(s[j], key) || (KeyOf(s[i], key) == KeyOf(s[j], key) && i <= j)
  }

  /** i is eligible at t and beats every other eligible process. */
  predicate Chosen(s: seq<Process>, t: int, key: Key, gate: Gate, i: int)
    requires 0 <= i < |s|
  {
    && Eligible(s[i], t, gate)
    && forall j :: 0 <= j < |s| && Eligible(s[j], t, gate) ==> Beats(s, key, i, j)
  }

  /**
   * The linear scan of the selection loops: idx == -1 when no eligible
   * process has a key under the limit, otherwise the first one with the
   * smallest key.
   */
  method Scan(a: array<Process>, t: int, key: Key, gate: Gate, limit: Option<int>) returns (idx: int)
    ensures -1 <= idx < a.Length
    ensures idx == -1 <==> forall j :: 0 <= j < a.Length && Eligible(a[j], t, gate) ==> !UnderLimit(KeyOf(a[j], key), limit)
    ensures idx != -1 ==> UnderLimit(KeyOf(a[idx], key), limit) && Chosen(a[..], t, key, gate, idx)
  {
    idx := -1;
    var best := limit;
    var i := 0;
    while i < a.Length
      invariant 0 <= i <= a.Length
      invariant -1 <= idx < i
      invariant idx == -1 ==> best == limit
      invariant idx == -1 <==> forall j :: 0 <= j < i && Eligible(a[j], t, gate) ==> !UnderLimit(KeyOf(a[j], key), limit)
      invariant idx != -1 ==> best == Some(KeyOf(a[idx], key)) && UnderLimit(KeyOf(a[idx], key), limit)
      invariant idx != -1 ==> Eligible(a[idx], t, gate)
      invariant idx != -1 ==> forall j :: 0 <= j < i && Eligible(a[j], t, gate) ==> Beats(a[..], key, idx, j)
    {
      if Eligible(a[i], t, gate) && UnderLimit(KeyOf(a[i], key), best) {
        best := Some(KeyOf(a[i], key));
        idx := i;
      }
      i := i + 1;
    }
  }

  /** Only one process can beat every other eligible one. */
  lemma ChosenIsUnique(s: seq<Process>, t: int, key: Key, gate: Gate, i: int, j: int)
    requires 0 <= i < |s| && 0 <= j < |s|
    requires Chosen(s, t, key, gate, i) && Chosen(s, t, key, gate, j)
    ensures i == j
  {
    assert Beats(s, key, i, j) && Beats(s, key, j, i);
  }

  /** Under a limit every key respects, the scan's -1 means that nothing is eligible. */
  lemma NothingUnderLimit(s: seq<Process>, t: int, key: Key, gate: Gate, limit: Option<int>)
    requires forall j :: 0 <= j < |s| ==> UnderLimit(KeyOf(s[j], key), limit)
    requires forall j :: 0 <= j < |s| && Eligible(s[j], t, gate) ==> !UnderLimit(KeyOf(s[j], key), limit)
    ensures forall j :: 0 <= j < |s| ==> !Eligible(s[j], t, gate)
  {
  }
}
