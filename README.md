# CPU scheduling simulator: a verified model

This project models the simulation core of a CPU-scheduling simulator in Dafny. The simulator exists in three versions.

- **The C++ engine.** It implements six algorithms, each on a copy of the caller's process array:
  - FCFS;
  - SJF, non-preemptive and preemptive (SRTF);
  - Priority, non-preemptive and preemptive;
  - Round Robin.

  Each algorithm produces the per-process timestamps and a timeline of `[start, end)` execution records. Alongside the engine sit:
  - `calculate_statistics`;
  - the hand-built containers: a FIFO queue, a LIFO stack and an execution-record stack, a doubly linked list, and a binary min-heap with pluggable comparators;
  - the `api.cpp` process pool with its algorithm dispatch.
- **The Python fallback engine** of `gui/scheduler_api.py`. It builds dicts from the inputs, stably sorts them by arrival, runs one of six routines over them, and reads off the results and the aggregates.
- **The GUI's `Scheduler` class** of `gui/scheduler_gui.py`. It runs the same six algorithms, but emits a list of `{id, duration}` blocks for a Gantt chart, with idle spans as blocks of id -1. Its preemptive algorithms emit one block per tick.

## How each kind of code is modelled

- **Imperative code stays imperative.**
  - Every algorithm is a `method` over an `array<Process>`, with the source's loops.
  - The containers are classes with `Repr` footprints.
  - The API's globals are the fields of one `Api` object.
- **Every method is proved against a specification.** Each specification is a predicate or function on values:
  - `FcfsSchedule`;
  - `NonPreemptiveSchedule`;
  - `PreemptiveSchedule`, built on a ghost trace of which process held each tick;
  - `RoundRobin.Schedule`, a pure reference run;
  - `StatisticsOf`;
  - for the Python engine, `PythonEngine.Summary`;
  - for the GUI, `GuiScheduler.Drawn` and `GuiScheduler.Format`.
- **The specifications carry their own lemmas.** These cover soundness (nobody starts before arriving, waiting is never negative, records never overlap, slices never exceed the quantum) and determinism (each specification admits exactly one outcome).
- **The engines are related to each other.**
  - The C++ and Python engines produce the same FCFS and Round Robin schedules (Round Robin: for distinct ids, which the C++ lookup by id needs).
  - The GUI and the Python engine produce the same finished processes, the same averages and the same timeline. The GUI's unit blocks merge back into the engine's records.
  - The utilisations agree once the GUI's blocks are shown to end at the latest completion.

## Preconditions

The model states as preconditions what the source leaves to its callers.

- **Sentinel bound.** Keys (burst or priority) must stay below the C++ scan sentinel of 999999. A larger key is never selected, so the loop never ends.
- **Positive bursts in the preemptive loops.** These loops stop only when the remaining time reaches 0. The GUI's input form enforces this (`gui/scheduler_gui.py:429-431`).
- **Positive quantum.** Without it, Round Robin makes no progress.
- **Distinct ids for the C++ Round Robin.** It finds a process's slot by id (`src/algorithms/round_robin.cpp:69-75`).
- **At most `MAX_PROCESSES` processes.**
- **A node of the list for `list_remove_node`.** The node passed must be null or belong to the list (`src/data_structures/linked_list.cpp:144-161` follows its links without checking).
- **A non-empty list for the GUI.** `_format` divides by the number of processes, and the GUI refuses to run on an empty list (`gui/scheduler_gui.py:619-621`).

## Model

| member | source | states |
|---|---|---|
| Types.CreateProcess | src/types.cpp:67-80 | the created process carries the given descriptor and is pristine: remaining = burst, start = -1, not completed, other fields 0 |
| Types.DefaultPriorityIsOne | src/types.cpp:67 | an omitted priority is 1 |
| Types.Reset | src/types.cpp:83-90 | the reset process keeps id, arrival, burst and priority and is pristine |
| Types.ResetProcess | src/types.cpp:83-90 | resetting a slot in place replaces exactly that slot by its reset value |
| Types.ResetCharacterised | src/types.cpp:83-90 | a process is the reset of p if and only if it is pristine and has p's descriptor |
| Types.ResetIdempotent | src/types.cpp:83-90 | resetting twice is resetting once |
| Types.ResetOfCreated | src/types.cpp:67-90 | resetting a created process gives it back unchanged |
| Types.RunToCompletion | src/algorithms/fcfs.cpp:53-57 | a run-to-completion dispatch at t starts at t, completes at t + burst, keeps the descriptor and leaves the process finished, with turnaround = completion - arrival and waiting = turnaround - burst |
| Types.RunToCompletionAt | src/algorithms/fcfs.cpp:53-57 | the field-by-field writes on a slot amount to RunToCompletion of that slot, and change nothing else |
| Types.CountCompleted | src/algorithms/sjf.cpp:35-66 | the count of completed processes is at most the count of processes, and reaches it exactly when every process is completed |
| Types.MaxArrival | src/algorithms/sjf.cpp:48-51 | the largest arrival is an upper bound attained by some process: it bounds the idle ticks of a run |
| WorkingSet.CloneReset | src/algorithms/fcfs.cpp:28-31 | the working copy is a fresh array holding the reset input, so the caller's processes are never touched |
| WorkingSet.SortByArrival | src/algorithms/fcfs.cpp:34-42 | the bubble sort leaves the array sorted by arrival and a permutation of its old contents in which equal arrivals keep their input order |
| WorkingSet.BubblePass | src/algorithms/fcfs.cpp:35-41 | one inner pass keeps the arrangement and moves the largest arrival of the unsettled prefix to its end |
| WorkingSet.SwapArranged | src/algorithms/fcfs.cpp:36-40 | swapping an adjacent pair on a strict '>' keeps the result a stable arrangement of the source |
| WorkingSet.StableSortIsUnique | src/algorithms/fcfs.cpp:34-42 | two stable sorts by arrival of the same source are equal, so the bubble sort and Python's sorted() agree |
| WorkingSet.ArrangedUniqueIds | src/algorithms/round_robin.cpp:31-39 | rearranging processes with distinct ids keeps them distinct |
| Fcfs.DispatchInOrder | src/algorithms/fcfs.cpp:44-66 | each process starts at max(clock, arrival), completes after its burst, is finished, and gets exactly one record in dispatch order |
| Fcfs.Fcfs | src/algorithms/fcfs.cpp:21-69 | the result is the in-turn schedule of the stable arrival sort of the reset input; waiting is never negative and records never overlap |
| Fcfs.ServedInTurnSound | src/algorithms/fcfs.cpp:49-65 | in an in-turn schedule no process starts before it arrives, waiting = start - arrival >= 0, and consecutive records do not overlap |
| Fcfs.ResetAfterDispatch | src/algorithms/fcfs.cpp:53-57 | dispatch changes only bookkeeping fields: resetting the dispatched copies gives back the pristine sorted set |
| Fcfs.ServedInTurnUnique | src/algorithms/fcfs.cpp:44-66 | two in-turn dispatches of the same jobs agree on every prefix |
| Fcfs.FcfsDeterministic | src/algorithms/fcfs.cpp:21-69 | fcfs has exactly one outcome for each input |
| Selection.Scan | src/algorithms/sjf.cpp:35-45 | the scan returns -1 exactly when no eligible process has a key under the bound, and otherwise the eligible process with the smallest key, ties going to the lowest index |
| Selection.ChosenIsUnique | src/algorithms/sjf.cpp:38-45 | the strict '<' scan admits only one winner |
| Selection.NothingUnderLimit | src/algorithms/sjf.cpp:47-51 | when every key is under the bound, a -1 from the scan means nothing is eligible |
| NonPreemptive.RunNonPreemptive | src/algorithms/sjf.cpp:33-67 | the selection loop is a complete non-preemptive schedule: every process is dispatched once, after its arrival, only when it beats every waiting arrived process, runs its whole burst in one record, and the clock idles only while nothing waiting has arrived |
| NonPreemptive.ProgressIdle | src/algorithms/sjf.cpp:48-51 | an idle tick, taken when nothing is eligible, keeps the loop invariant and happens only before the last arrival |
| NonPreemptive.ProgressDispatch | src/algorithms/sjf.cpp:53-66 | dispatching the scan's winner to completion keeps the loop invariant with the clock at its completion |
| NonPreemptive.NonPreemptiveSound | src/algorithms/sjf.cpp:53-66 | in a non-preemptive schedule start >= arrival, waiting = start - arrival >= 0, and records do not overlap |
| NonPreemptive.NonPreemptiveDeterministic | src/algorithms/sjf.cpp:19-70 | a non-preemptive schedule of a set is unique: the dispatch order, processes and timeline are determined |
| Sjf.SjfNonPreemptive | src/algorithms/sjf.cpp:19-70 | the result is the non-preemptive schedule by smallest burst of the reset input |
| Sjf.SjfPreemptive | src/algorithms/sjf.cpp:75-154 | the result is the preemptive schedule by least remaining time of the reset input |
| Priority.PriorityNonPreemptive | src/algorithms/priority.cpp:19-69 | the result is the non-preemptive schedule by smallest priority number of the reset input |
| Priority.PriorityPreemptive | src/algorithms/priority.cpp:74-151 | the result is the preemptive schedule by smallest priority number of the reset input |
| Preemptive.TickOf | src/algorithms/sjf.cpp:131-150 | a granted tick sets start only on first selection, lowers remaining by exactly 1, and on reaching 0 completes the process at t + 1 with derived turnaround and waiting |
| Preemptive.TickAt | src/algorithms/sjf.cpp:131-150 | the in-place tick of a slot is TickOf of that slot and changes nothing else |
| Preemptive.Blocks | src/algorithms/sjf.cpp:118-128 | the records of a trace end with the running process's record closing at the current tick, and are no more numerous than the ticks |
| Preemptive.GrantTick | src/algorithms/sjf.cpp:118-150 | a tick closes the open record when a different process wins, opens a new one, and closes it at the completion when the winner finishes |
| Preemptive.Step | src/algorithms/sjf.cpp:90-151 | one iteration keeps the loop invariant and strictly lowers the total remaining time |
| Preemptive.RunPreemptive | src/algorithms/sjf.cpp:87-152 | the tick loop yields a trace where every tick goes to the scan's winner (idle only when nothing is eligible), each process receives exactly its burst, starts at its first tick, completes after its last, and the timeline is the trace's maximal stretches |
| Preemptive.PreemptiveSound | src/algorithms/sjf.cpp:131-150 | in a preemptive schedule start >= arrival, completion >= start + burst, and waiting >= start - arrival >= 0 |
| Preemptive.BlocksOrdered | src/algorithms/sjf.cpp:118-128 | the records of a trace are non-empty, lie inside the run and never overlap |
| Preemptive.AdjacentRecordsDiffer | src/algorithms/sjf.cpp:118-149 | in a preemptive schedule of processes with distinct ids, consecutive timeline records never share a process id: a record is closed only when a different process wins or the running one completes, and a completed process never runs again |
| Preemptive.TracesAgree | src/algorithms/sjf.cpp:93-103 | two traces following the selection rule agree on their common ticks |
| Preemptive.OnlyIdleAfter | src/algorithms/sjf.cpp:105-115 | once every burst has been granted, the rule allows only idle ticks |
| Preemptive.PreemptiveDeterministic | src/algorithms/sjf.cpp:75-154 | a preemptive schedule of a set is unique: trace, processes and timeline are determined |
| RoundRobin.Admit | src/algorithms/round_robin.cpp:48-51 | admission queues, in sorted order, exactly the slots from `next` on that have arrived by the clock |
| RoundRobin.Refill | src/algorithms/round_robin.cpp:54-63 | on an empty queue the clock jumps to the next arrival and admits every process arrived by then |
| RoundRobin.Complete | src/algorithms/round_robin.cpp:103-106 | a retired process completes at the clock with derived turnaround and waiting |
| RoundRobin.Schedule | src/algorithms/round_robin.cpp:42-109 | the reference run completes every process |
| RoundRobin.SliceWellformed | src/algorithms/round_robin.cpp:66-108 | a slice keeps the queue holding each admitted unfinished slot exactly once, with newly arrived slots queued before the requeued one |
| RoundRobin.RoundRobinSound | src/algorithms/round_robin.cpp:42-109 | every process completes after arriving, never starts before it arrives, waits at least until its first slice, and gets exactly its burst of CPU from the timeline; slices last at most one quantum and never overlap |
| RoundRobin.ScheduleEndsAtCompletion | src/algorithms/round_robin.cpp:53-109 | the run's final clock is the latest completion: no completion lies after it and one lies on it |
| RoundRobin.FindById | src/algorithms/round_robin.cpp:69-75 | the lookup returns the first slot holding the id, or -1 when there is none |
| RoundRobin.AdmitArrivals | src/algorithms/round_robin.cpp:93-96 | copies of the arrived slots join the rear of the ready queue in sorted order, as Admit prescribes |
| RoundRobin.RunFront | src/algorithms/round_robin.cpp:66-90 | the front copy leaves the queue, its slot starts if it had not, runs min(remaining, quantum) and gets one record of that length |
| RoundRobin.Settle | src/algorithms/round_robin.cpp:93-108 | after a slice, arrivals are queued before the unfinished process is requeued, or the finished one is completed |
| RoundRobin.ServeFront | src/algorithms/round_robin.cpp:66-108 | one serve of the front process is one Slice of the reference run, and the queued copies stay current |
| RoundRobin.RunRoundRobin | src/algorithms/round_robin.cpp:42-109 | the queue loop leaves in the array the processes of the reference schedule and returns its timeline |
| RoundRobin.RoundRobin | src/algorithms/round_robin.cpp:19-113 | the result is the reference schedule of the stable arrival sort of the reset input |
| Aggregates.MaxCompletionIsLatest | src/algorithms/algorithms.cpp:30-40 | the running maximum seeded with 0 bounds every completion and is 0 or some completion |
| Aggregates.MinArrivalIsEarliest | src/algorithms/algorithms.cpp:31-43 | the running minimum seeded with the first arrival is the earliest arrival |
| Aggregates.StatisticsMeaning | src/algorithms/algorithms.cpp:46-50 | each average times the count is the total, all aggregates are 0 with no processes, and utilisation times the span is 100 times the total burst, or 0 for a non-positive span |
| Aggregates.CalculateStatistics | src/algorithms/algorithms.cpp:26-51 | the accumulator loop writes exactly the aggregates StatisticsOf gives and leaves processes and timeline unchanged |
| Aggregates.AverageTurnaroundIsWaitingPlusBurst | src/algorithms/algorithms.cpp:46-47 | for accounted processes, average turnaround = average waiting + average burst |
| Aggregates.AggregatesNonNegative | src/algorithms/algorithms.cpp:46-50 | with non-negative waiting and bursts no aggregate is negative, and average turnaround is at least average waiting |
| ReadyQueue.Queue.constructor | src/data_structures/queue.cpp:38-44 | a new queue is empty |
| ReadyQueue.Queue.IsEmpty | src/data_structures/queue.cpp:60-62 | true exactly when nothing is queued |
| ReadyQueue.Queue.GetSize | src/data_structures/queue.cpp:108-110 | the size is the number of queued copies |
| ReadyQueue.Queue.Enqueue | src/data_structures/queue.cpp:65-78 | the copy is appended at the rear |
| ReadyQueue.Queue.Dequeue | src/data_structures/queue.cpp:81-97 | returns and removes the front copy, leaving the rest in order, and clears front and rear when the queue empties; an empty queue returns the id -1 marker unchanged |
| ReadyQueue.Queue.Peek | src/data_structures/queue.cpp:100-105 | returns the front copy, or the id -1 marker, without changing the queue |
| ReadyQueue.QueueDemo | main.cpp:96-103 | enqueue P1, P2, P3 then dequeue gives P1, peek gives P2, size 2 |
| ProcessStack.Stack.constructor | src/data_structures/stack.cpp:37-42 | a new stack is empty |
| ProcessStack.Stack.IsEmpty | src/data_structures/stack.cpp:58-60 | true exactly when nothing is stacked |
| ProcessStack.Stack.GetSize | src/data_structures/stack.cpp:94-96 | the size is the number of stacked copies |
| ProcessStack.Stack.Push | src/data_structures/stack.cpp:63-69 | the copy goes on top |
| ProcessStack.Stack.Pop | src/data_structures/stack.cpp:72-83 | returns and removes the most recently pushed copy; an empty stack returns the id -1 marker unchanged |
| ProcessStack.Stack.Peek | src/data_structures/stack.cpp:86-91 | returns the top copy, or the id -1 marker, without changing the stack |
| ProcessStack.ExecutionStack.constructor | src/data_structures/stack.cpp:115-120 | a new execution stack is empty |
| ProcessStack.ExecutionStack.Push | src/data_structures/stack.cpp:136-142 | the record goes on top |
| ProcessStack.ExecutionStack.Pop | src/data_structures/stack.cpp:145-157 | returns and removes the last pushed record, or {-1, 0, 0} unchanged when empty |
| ProcessStack.PushPopRecord | src/data_structures/stack.cpp:136-157 | a pop right after a push returns the pushed record and restores the stack |
| ProcessStack.StackDemo | main.cpp:131-138 | push P1, P2, P3 then pop gives P3, peek gives P2, size 2 |
| ProcessList.LinkedList.constructor | src/data_structures/linked_list.cpp:39-45 | a new list is empty |
| ProcessList.LinkedList.IsEmpty | src/data_structures/linked_list.cpp:61-63 | true exactly when nothing is listed |
| ProcessList.LinkedList.GetSize | src/data_structures/linked_list.cpp:176-178 | the size counter is the number of listed copies |
| ProcessList.LinkedList.InsertFront | src/data_structures/linked_list.cpp:66-81 | the copy becomes the first element, both link directions stay consistent |
| ProcessList.LinkedList.InsertBack | src/data_structures/linked_list.cpp:84-99 | the copy becomes the last element, both link directions stay consistent |
| ProcessList.LinkedList.RemoveFront | src/data_structures/linked_list.cpp:102-120 | returns and unlinks the first copy; an empty list returns the id -1 marker unchanged |
| ProcessList.LinkedList.RemoveBack | src/data_structures/linked_list.cpp:123-141 | returns and unlinks the last copy; an empty list returns the id -1 marker unchanged |
| ProcessList.LinkedList.RemoveNode | src/data_structures/linked_list.cpp:144-161 | unlinks exactly the given node, removing its element and nothing else; a null node changes nothing |
| ProcessList.LinkedList.SkipForward | src/data_structures/linked_list.cpp:147-151 | the predecessor (or head) is pointed past the node, backward links untouched |
| ProcessList.LinkedList.SkipBackward | src/data_structures/linked_list.cpp:152-160 | the successor (or tail) is pointed back past the node, leaving a valid list without it |
| ProcessList.LinkedList.FindById | src/data_structures/linked_list.cpp:164-173 | returns the first node from the head whose process has the id, or null when none does |
| ProcessList.FirstWithId | src/data_structures/linked_list.cpp:164-173 | the first index holding the id, None exactly when no element holds it |
| ProcessList.ListDemo | main.cpp:119-126 | insert_back P1, P2, insert_front P3 then remove_front gives P3, remove_back gives P2, size 1 |
| PriorityHeap.LessIsStrictWeakOrder | src/data_structures/priority_queue.cpp:26-49 | every comparator is irreflexive, transitive, and has transitive incomparability |
| PriorityHeap.LessIsLexicographic | src/data_structures/priority_queue.cpp:26-49 | the comparators order lexicographically by (key, arrival), arrival alone for compare_by_arrival_time |
| PriorityHeap.SwapAt | src/data_structures/priority_queue.cpp:66-70 | pq_swap exchanges the two slots and nothing else |
| PriorityHeap.SwapKeepsMultiset | src/data_structures/priority_queue.cpp:66-70 | a swap inside the heap keeps its multiset |
| PriorityHeap.RootIsLeastOfAll | src/data_structures/priority_queue.cpp:150-155 | no element of a heap is less than its root |
| PriorityHeap.Smallest | src/data_structures/priority_queue.cpp:87-95 | heapify_down's pick is the node or a child in range that is less, and no child is less than the pick |
| PriorityHeap.SiftUpStep | src/data_structures/priority_queue.cpp:74-81 | one swap of heapify_up moves the only broken edge one level up |
| PriorityHeap.SiftDownStep | src/data_structures/priority_queue.cpp:96-99 | swapping with the least child and repairing its subtree repairs the subtree at the node |
| PriorityHeap.PriorityQueue.constructor | src/data_structures/priority_queue.cpp:108-115 | a new queue is an empty heap with the given comparator and capacity |
| PriorityHeap.PriorityQueue.IsEmpty | src/data_structures/priority_queue.cpp:125-127 | true exactly when the size is 0 |
| PriorityHeap.PriorityQueue.GetSize | src/data_structures/priority_queue.cpp:158-160 | the size is the number of queued copies |
| PriorityHeap.PriorityQueue.Swap | src/data_structures/priority_queue.cpp:66-70 | the heap array becomes SwapAt of itself |
| PriorityHeap.PriorityQueue.HeapifyUp | src/data_structures/priority_queue.cpp:73-83 | turns a heap of `index` slots plus one new slot into a heap of the same elements, the rest untouched |
| PriorityHeap.PriorityQueue.HeapifyDown | src/data_structures/priority_queue.cpp:86-101 | makes the subtree at `index` a heap of the same elements, changing only that subtree |
| PriorityHeap.PriorityQueue.Insert | src/data_structures/priority_queue.cpp:130-135 | below capacity adds one copy and keeps the heap; at capacity changes nothing |
| PriorityHeap.PriorityQueue.ExtractMin | src/data_structures/priority_queue.cpp:138-147 | removes and returns one element no other element is less than, keeping the heap; empty returns the id -1 marker unchanged |
| PriorityHeap.PriorityQueue.Peek | src/data_structures/priority_queue.cpp:150-155 | returns an element no other is less than, or the id -1 marker, without changes |
| PriorityHeap.PriorityQueue.Rebuild | src/data_structures/priority_queue.cpp:163-167 | makes the occupied slots a heap of the same multiset |
| PriorityHeap.PriorityQueueDemo | main.cpp:108-114 | inserting bursts 5, 2, 8 by burst then extracting twice gives P2, then P1 |
| Api.Api.constructor | src/api.cpp:18-20 | at start the pool is zeroed, nothing is loaded and the last result is blank |
| Api.Api.Reset | src/api.cpp:25-30 | nothing is loaded afterwards and every pool slot is zeroed |
| Api.Api.AddProcess | src/api.cpp:35-42 | fails and changes nothing when the pool is full; otherwise stores the created process after the loaded ones |
| Api.Api.RunAlgorithm | src/api.cpp:60-89 | null when nothing is loaded or the selector is outside 1..6; otherwise stores and returns the selected algorithm's result over the loaded processes, leaving the pool as it was |
| Api.ProducedIsUnique | src/api.cpp:65-88 | the stored result is a function of the loaded processes, the selector and the quantum |
| Decimal.IntRoundTrip | gui/scheduler_api.py:244-247 | reading back the decimal string of an int gives the int |
| Decimal.IntToStringInjective | gui/scheduler_api.py:244-247 | different quanta print differently |
| PythonEngine.Fresh | gui/scheduler_api.py:286-296 | the dict built for an input is pristine with the input's descriptor |
| PythonEngine.LatestCompletionIsMax | gui/scheduler_api.py:303 | max over the completions bounds every completion and is attained |
| PythonEngine.MaxCompletionIsSeededLatest | gui/scheduler_api.py:303 | the C++ maximum seeded with 0 is the Python maximum, raised to 0 |
| PythonEngine.EnginesShareAggregates | gui/scheduler_api.py:300-327 | the Python and C++ average waiting and average turnaround coincide for every working set; the utilisations coincide when the earliest arrival is 0 |
| PythonEngine.RestoreRemaining | gui/scheduler_api.py:392-393 | every dict's remaining is set back to its burst, nothing else changes |
| PythonEngine.RunPreemptivePython | gui/scheduler_api.py:383-519 | _sjf_p and _priority_p produce the preemptive schedule of the sorted dicts |
| PythonEngine.AdmitArrivals | gui/scheduler_api.py:559-561 | arrived dicts join the rear of the queue in sorted order, as Admit prescribes |
| PythonEngine.ServeFront | gui/scheduler_api.py:547-569 | one serve of the front dict is one Slice of the reference round-robin run |
| PythonEngine.RunRoundRobinPython | gui/scheduler_api.py:521-571 | _round_robin leaves the dicts of the reference schedule and returns its timeline, without needing distinct ids |
| PythonEngine.RunRoutine | gui/scheduler_api.py:330-571 | each of the six routines leaves the dicts and timeline its schedule prescribes for the sorted list |
| PythonEngine.RunAlgorithmPython | gui/scheduler_api.py:283-328 | the result is the summary of the routine's schedule of the stably sorted fresh dicts |
| PythonEngine.RunAlgorithm | gui/scheduler_api.py:196-222 | each Algorithm member runs its routine under its name; any other value raises ValueError naming it |
| PythonEngine.RoundRobinNamesDiffer | gui/scheduler_api.py:244-247 | two round-robin names are equal only for equal quanta |
| PythonEngine.ScheduledIsUnique | gui/scheduler_api.py:330-571 | the dicts and timeline a routine leaves are determined by the sorted list |
| PythonEngine.ProducedIsUnique | gui/scheduler_api.py:283-328 | _run_algorithm_python has one result for each input |
| PythonEngine.EnginesAgree | gui/scheduler_api.py:330-571 | for FCFS and Round Robin, the Python results are the C++ processes and timeline of the same inputs |
| GuiScheduler.Dicts | gui/scheduler_gui.py:54-59 | the GUI's dicts are the created processes of its inputs, in the same order |
| GuiScheduler.ChartBusy | gui/scheduler_gui.py:70-71 | a process block adds the record [offset, offset + duration) |
| GuiScheduler.ChartIdle | gui/scheduler_gui.py:65-67 | an idle block moves the offset and adds no record |
| GuiScheduler.Prepare | gui/scheduler_gui.py:54-59 | the dicts, stably sorted by arrival, pristine, with the pids and bursts of the inputs |
| GuiScheduler.DispatchFcfs | gui/scheduler_gui.py:61-74 | the blocks chart the in-turn schedule, idle spans included, and last until the clock at the end |
| GuiScheduler.EarliestPending | gui/scheduler_gui.py:103 | the smallest arrival among pending dicts, None exactly when none is pending |
| GuiScheduler.DispatchSelected | gui/scheduler_gui.py:87-116 | the blocks chart the engine's non-preemptive schedule, with idle jumps to the earliest pending arrival, and last until the last completion |
| GuiScheduler.PidTrace | gui/scheduler_gui.py:134-164 | the per-unit timeline holds the winning pid of each tick, -1 for idle |
| GuiScheduler.UnitBlocksLast | gui/scheduler_gui.py:167 | per-unit blocks last as many time units as the trace has ticks |
| GuiScheduler.MergedTicks | gui/scheduler_gui.py:167 | merging the chart of per-unit blocks gives exactly the engine's timeline of the trace, for distinct non-idle pids |
| GuiScheduler.TickSelected | gui/scheduler_gui.py:129-167 | srtf/priority_p follow the engine's preemptive schedule, one block per tick, lasting as long as the run |
| GuiScheduler.ServeSlice | gui/scheduler_gui.py:294-313 | one slice is a Slice of the reference round-robin run, drawn as one block of the front process |
| GuiScheduler.IdleRefill | gui/scheduler_gui.py:285-292 | an idle block to the next arrival, then admission of everything arrived by then |
| GuiScheduler.SliceRoundRobin | gui/scheduler_gui.py:273-313 | the dicts end as the reference schedule, the blocks chart its timeline and last until its final clock |
| GuiScheduler.Format | gui/scheduler_gui.py:318-329 | the returned dict carries the name, the jobs of the dicts and the blocks |
| GuiScheduler.FcfsGui | gui/scheduler_gui.py:52-76 | Scheduler.fcfs returns the drawn in-turn schedule of the sorted dicts |
| GuiScheduler.Sjf | gui/scheduler_gui.py:78-118 | Scheduler.sjf returns the drawn non-preemptive schedule by burst |
| GuiScheduler.Srtf | gui/scheduler_gui.py:120-169 | Scheduler.srtf returns the drawn preemptive schedule by remaining time |
| GuiScheduler.PriorityNp | gui/scheduler_gui.py:171-211 | Scheduler.priority_np returns the drawn non-preemptive schedule by priority |
| GuiScheduler.PriorityP | gui/scheduler_gui.py:213-262 | Scheduler.priority_p returns the drawn preemptive schedule by priority |
| GuiScheduler.RoundRobinGui | gui/scheduler_gui.py:264-315 | Scheduler.round_robin returns the drawn reference round-robin schedule |
| GuiScheduler.Run | gui/scheduler_gui.py:331-339 | a result exactly for selectors 1..6, the named routine's; {} otherwise |
| GuiScheduler.RunAll | gui/scheduler_gui.py:341-343 | six results, the k-th being Scheduler.run's for algorithm k |
| GuiScheduler.FcfsRunEnds | gui/scheduler_gui.py:61-74 | an FCFS run ends at the latest completion |
| GuiScheduler.NonPreemptiveRunEnds | gui/scheduler_gui.py:93-116 | a non-preemptive run ends at the latest completion |
| GuiScheduler.PreemptiveRunEnds | gui/scheduler_gui.py:134-164 | a preemptive trace lasts until the latest completion |
| GuiScheduler.DrawnIsScheduled | gui/scheduler_gui.py:52-315 | what a GUI routine draws is what the engine's routine schedules: the same dicts, the same timeline (merged from units when preemptive), blocks lasting until the latest completion |
| GuiScheduler.GuiMatchesEngine | gui/scheduler_gui.py:318-329 | the GUI and the fallback engine give the same finished processes in order, the same averages and the same timeline, and the same utilisation (for round robin, with distinct pids) |

## Left out

- **I/O and wrappers.** The following are not modelled:
  - main.cpp's menu and its argv and stdin handling;
  - src/io_handler.cpp, which holds the file loading and all printing;
  - `api_load_from_file`, `api_get_result_json`, `api_print_result` and `api_run_all_algorithms`;
  - the ctypes binding, `compare_algorithms` and `demo` of gui/scheduler_api.py;
  - the Flet UI of gui/scheduler_gui.py.

  These are console, file or foreign-library plumbing. The demonstrations in main.cpp are modelled only as the container demos.
- **Memory management.** `malloc`/`free`, the `*_destroy` functions, `list_print` and `stack_print` are not modelled. Containers are classes with a ghost `Repr` footprint, and freed nodes are simply dropped.
- **Floating point.** Averages and utilisation are Dafny `real` values computed over integer totals. `double` rounding is not modelled.
- **Integer width.** `int` is unbounded. Overflow of 32-bit C++ clocks and sums is not modelled.
- **Array capacities.**
  - Timelines are unbounded sequences, so writes past `MAX_TIMELINE` (1000 records) are not modelled.
  - Inputs are limited to `MAX_PROCESSES` by a precondition.
- **Non-terminating inputs.** The source loops forever on these inputs, so they are excluded by preconditions:
  - keys of 999999 or more (C++ scan sentinel);
  - bursts of 0 or less in the preemptive loops;
  - a quantum of 0 or less.
- Api.Api.RunAlgorithm: its result carries no aggregates (`stats == None`). The source returns whatever the uninitialised aggregate fields hold, because nothing calls `calculate_statistics` on that path.
- **Duplicate ids in the C++ Round Robin.** The slot lookup by id (`src/algorithms/round_robin.cpp:69-75`) then updates the wrong slot. RoundRobin.RoundRobin requires distinct ids. The Python and GUI round-robin loops queue references and need no such precondition.
- GuiScheduler.GuiMatchesEngine: it claims the merged timeline (SRTF and Priority P) and the Round Robin utilisation only for distinct pids. The GUI always numbers its processes 1..n (`gui/scheduler_gui.py:400-406, 433`), so this holds for every list the GUI builds.
- **The empty process list in the GUI.** `_format` would raise `ZeroDivisionError`. The GUI refuses to run on an empty list (`gui/scheduler_gui.py:619-621`), and its routines require a non-empty list.
- **Different utilisation spans.** The Python engine measures utilisation from time 0 (`total_time` = latest completion), while `calculate_statistics` measures it from the earliest arrival. PythonEngine.EnginesShareAggregates equates the two utilisations only when the earliest arrival is 0; the averages it equates for every input.
- PythonEngine.RunAlgorithm: the selectors 1..6 stand for the members of the `Algorithm` enum (`gui/scheduler_api.py:20-27`). Because `Algorithm` is a plain `Enum`, a raw integer passed to `run_algorithm` is not equal to any member and raises `ValueError`; the model does not distinguish a raw integer from the member it stands for.
- **The GUI's process names and colours** are derived from the pid and not stored. `name` is rebuilt as "P" plus the pid, and the colour is left out.
