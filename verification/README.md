# Adaptive resource allocation, modelled in Dafny

This project models the allocation engines of the adaptive-resource-allocation
repository and the bookkeeping around them. It proves properties of the model.

- **The greedy capacity fill** (`allocate_respecting_capacities`).
  - Tasks are served in input order.
  - Each task scans the resources R1..Rn in order. It takes `min(remaining, unmet)` from each and decrements both.
  - It emits `(task, "R<k>", amount)` records, plus one `unallocated` record for any leftover.
  - It then reports `used` and `remaining` per resource.
  - The object wrapper `adaptive_allocate_fixed` replays that plan onto `Resource` objects through `Resource.allocate`.
- **The test server's fallback allocator.**
  - Task i takes resource `(i-1) mod n`, capped at that resource's capacity.
  - Its per-resource tally can report a negative remaining (overload).
  - It also includes the all-or-nothing numeric normalisation of the request lists.
- **The adaptive weight controller** (`HeuristicAllocator`). It takes the CPU delta of each pid between its last two samples and smooths it 0.6/0.4 with the remembered delta. It then moves the weight by a threshold law clamped to `[min_w, max_w]`.
- **The simulation pieces, with wall-clock time abstracted away.**
  - The per-kind CPU credit of `SimulatedProcess.run_for`.
  - The round-robin scheduler's index rotation.
  - The monitor's append-only history.
  - `create_processes` and one pass of the experiment loop: step, sample, update, log one row per process.
- **The summary statistics.** Jain's fairness index and each pid's `cpu_share`.
- **The browser page's own logic.**
  - The input validator.
  - The local used/remaining tally that reads resource names with `/R(\d+)/i`.
  - The quoting of CSV cells in the download. Each field is enclosed in double quotes and embedded quotes are doubled, as in rules 5-7 of section 2 of RFC 4180.

All Python and JavaScript numbers are modelled as `real`. The equalities proved
(conservation, `used + remaining == capacity`, shares summing to 1) are exact
over the reals. They are not claims about IEEE-754 arithmetic.

## How the model is organised

- **Shared vocabulary.**
  - `basics.dfy` holds an option type, min/max and a left-to-right sum.
  - `records.dfy` holds the records both allocators answer with, and per-task and per-resource totals over them.
  - `labels.dfy` renders resource k as `"R" + decimal(k)`. It models the two readers of such a name: Python's `int(name.lstrip("R"))` and JavaScript's `/R(\d+)/i`. Both are proved to invert the rendering.
- **The greedy fill.**
  - `greedy_fill.dfy` holds the method `AllocateRespectingCapacities`. It keeps the remaining capacities in an `array<real>`, updated in place by the nested loops, and is proved equal to the recursive specification `GreedyPlan`.
  - `greedy_properties.dfy` proves what the fill promises, as lemmas about `GreedyPlan`. `greedy_examples.dfy` holds the worked examples.
  - `resources.dfy` holds the `Resource` class and `adaptive_allocate_fixed`.
- **The simulation.** `process.dfy`, `scheduler.dfy`, `monitor.dfy`, `heuristic.dfy` and `experiment.dfy` are classes whose methods update their fields. Each method is proved against a function of the old state: `Appended` for the monitor, `Updated` for the controller, `NextIndex` for the scheduler.
- **The rest.**
  - `fairness.dfy` holds Jain's index, with Cauchy–Schwarz proved by induction, and `cpu_share`.
  - `fallback_server.dfy` holds the test server's fallback.
  - `frontend.dfy` holds the page's validator, tally and CSV writing. A CSV reader for the files the page writes is included, so that the quoting can be proved lossless.

A Python dictionary iterates in insertion order. The monitor's history is
therefore a `History(order, lists)`: the pids in first-insertion order, and the
per-pid lists. `HeuristicAllocator.Update` walks `order` as `history.items()`
does. The lemma `NewIsLocal` shows that each pid's update reads and writes only
that pid's entries, so the result does not depend on the order.

Where the design notes and the code disagree, the model follows the code.
For a negative duration, `run_for` does different things depending on the kind:

- `cpu`, and any unknown kind, credit the negative duration itself and add it to the total.
- `io` and `mem` first call `time.sleep` with a negative length, which raises `ValueError`. Nothing is returned and the total is unchanged.

The model returns `None` for that error. The scheduler's step then leaves the
index where it was, and one pass of the experiment loop stops before sampling.

## Model

| member | source | states |
|---|---|---|
| Resources.Resource.constructor | resource_allocation.py:5-8 | a new resource has its name and capacity and has used nothing |
| Resources.Resource.Remaining | resource_allocation.py:18-19 | what remains is never negative: it is `capacity - used` when that is positive and 0 otherwise |
| Resources.Resource.Allocate | resource_allocation.py:10-16 | the amount handed out is `min(remaining, amount)`; `used` grows by it only when it is positive, so a non-positive amount or a full resource leaves `used` as it was; `used <= capacity` is preserved |
| Resources.Capacities | resource_allocation.py:99 | one capacity per resource, in order |
| Resources.Demands | resource_allocation.py:102 | one demand per task, in order |
| Resources.UsedAfterStep | resource_allocation.py:12-15 | handing a resource successive positive amounts adding up to `total` leaves `used` at `start + total` capped at the capacity, or at `start` when it was already over capacity |
| Resources.PlannedRecords | resource_allocation.py:108-111 | every record the plan replays has a positive amount and names one of the existing resources, so the index read back from its name is in range |
| Resources.FreshResourceMatchesStatus | resource_allocation.py:105-111 | a resource that started unused and has non-negative capacity ends with exactly the `used` the plan's status reports |
| Resources.AdaptiveAllocateFixed | resource_allocation.py:91-113 | returns the greedy plan for the resources' capacities and the demands of `tasks`, and leaves each resource's `used` where replaying its records through `allocate` puts it, which is the reported `used` for a fresh resource |
| Resources.ResourceIndex | resource_allocation.py:109 | reading back the label of resource k gives its list position k - 1 |
| Resources.ApplyAllocations | resource_allocation.py:108-111 | the replay loop: resource k receives exactly the records naming `R<k+1>`, through `allocate` |
| GreedyFill.FillTask | resource_allocation.py:56-69 | serving one task keeps one remaining capacity per resource |
| GreedyFill.ServeTask | resource_allocation.py:55-69 | the inner loop updates the remaining array in place and yields exactly the records and leftover of the specification `FillTask` |
| GreedyFill.ServeOne | resource_allocation.py:54-71 | serving task i moves its records onto the end of `flattened` and its leftover, if positive, onto the end of `unallocated` |
| GreedyFill.ReportStatus | resource_allocation.py:73-81 | the status loop yields one entry per capacity, with `used = capacity - remaining` |
| GreedyFill.ServeFrom | resource_allocation.py:54-71 | serving the tasks keeps one remaining capacity per resource |
| GreedyFill.ServeShortfalls | resource_allocation.py:54-71 | serving the tasks reports at most one shortfall per task |
| GreedyFill.GreedyPlan | resource_allocation.py:54-88 | the answer has one status entry per resource, named R1..Rn in order with its capacity, and at most one shortfall entry per task; the lemmas in `GreedyProperties` state the rest |
| GreedyFill.StatusReport | resource_allocation.py:73-81 | one status entry per capacity |
| GreedyFill.AllocateRespectingCapacities | resource_allocation.py:31-88 | the imperative fill returns exactly `GreedyPlan(capacities, demands)`, about which the lemmas below are proved |
| GreedyProperties.FillTaskConserves | resource_allocation.py:55-71 | one task's records plus its leftover equal its demand, and a non-negative demand leaves a non-negative leftover |
| GreedyProperties.FillTaskRecords | resource_allocation.py:56-69 | one task's records are positive, for that task, from resources after the scan start, in strictly increasing resource order |
| GreedyProperties.FillTaskCapacity | resource_allocation.py:59-64 | what one task takes from resource k is what k lost; k is untouched before the scan start and when already exhausted, and otherwise stays between 0 and its old remaining |
| GreedyProperties.FillTaskRemainingAt | resource_allocation.py:59-64 | resource k's remaining is untouched before the scan start or when not positive, and otherwise stays in `[0, old]` |
| GreedyProperties.FillTaskTotalAt | resource_allocation.py:61-69 | the records of one task naming resource k add up to what k lost |
| GreedyProperties.FillTaskExhausts | resource_allocation.py:56-71 | a task left with a positive leftover has drained every resource it scanned |
| GreedyProperties.FillTaskIdle | resource_allocation.py:59-60 | with every resource exhausted a task gets no record and keeps its whole demand as leftover |
| GreedyProperties.TakeThenRest | resource_allocation.py:65-69 | a record counts towards its own resource's total only |
| GreedyProperties.ServeRecords | resource_allocation.py:54-71 | all records are positive, for tasks 1..m, from resources 1..n, in emission order (by task, then by resource); leftovers are positive and in increasing task order |
| GreedyProperties.RecordsThenLater | resource_allocation.py:54-69 | one task's records followed by later tasks' records stay in emission order |
| GreedyProperties.ServeConserves | resource_allocation.py:54-71 | for a non-negative demand, that task's records plus its reported leftover equal its demand |
| GreedyProperties.ServeCapacity | resource_allocation.py:56-64 | the records naming resource k add up to what k lost, and k's remaining never goes negative when it starts non-negative |
| GreedyProperties.ServeIdle | resource_allocation.py:59-60 | once every resource is exhausted no later task gets any record |
| GreedyProperties.ServeExhausts | resource_allocation.py:56-71 | every record comes from a task no later than any shorted task, and any shortfall leaves every resource exhausted |
| GreedyProperties.GreedyConservation | resource_allocation.py:54-71 | conservation: each task with a non-negative demand gets back its demand as records plus leftover (0 if none) |
| GreedyProperties.GreedyCapacity | resource_allocation.py:73-81 | one status entry per capacity, named R1..Rn, with `used + remaining == capacity` and `used` equal to the records' total for that resource; for a non-negative capacity `0 <= used, remaining <= capacity` |
| GreedyProperties.GreedyRecordsOrdered | resource_allocation.py:54-69 | every record is positive and in range, emitted by task and, within a task, by resource; leftovers are positive and in task order |
| GreedyProperties.GreedyShortfall | resource_allocation.py:56-71 | a shorted task has drained every resource: no later task receives anything |
| GreedyExamples.SampleRun | resource_allocation.py:119-132 | capacities 10, 8, 12 and demands 4, 6, 3, 8 give (1,R1,4), (2,R1,6), (3,R2,3), (4,R2,5), (4,R3,3), nothing unallocated, remaining 0, 0, 9 |
| GreedyExamples.SampleRunFills | resource_allocation.py:56-69 | the four tasks of the sample run one at a time |
| GreedyExamples.ShortfallRun | resource_allocation.py:44-47 | capacity 5 and demands 3, 4 give (1,R1,3), (2,R1,2) and leftover (2, 2) |
| GreedyExamples.ReversedShortfallRun | resource_allocation.py:44-47 | demands 4, 3 short the second task instead: the fill is order-dependent |
| Records.TaskTotalAppend | resource_allocation.py:65-69 | a task's total over two record lists is the sum of its totals |
| Records.ResourceTotalAppend | resource_allocation.py:65-69 | a resource's total over two record lists is the sum of its totals |
| Records.ResourceTotalNonNegative | resource_allocation.py:62-69 | positive records give a non-negative total |
| Labels.DecimalRoundTrip | resource_allocation.py:67 | reading back the decimal numeral of k gives k |
| Labels.LabelInjective | resource_allocation.py:67 | different resources get different names |
| Labels.PythonIndexOfLabel | resource_allocation.py:109 | `int(name.lstrip("R"))` on the name `"R<k>"` gives k |
| Labels.RegexIndexOfLabel | frontend/app.js:126-128 | the first match of `/R(\d+)/i` on `"R<k>"` captures k |
| Labels.Label | resource_allocation.py:67 | the name of resource k is "R" followed by digits only |
| Labels.StripLeadingR | resource_allocation.py:109 | `lstrip("R")` leaves a suffix that does not start with R, and everything it removed was an R |
| Labels.PythonIndex | resource_allocation.py:109 | a name that converts consists only of R's and digits |
| Labels.RegexIndex | frontend/app.js:126-128 | `/R(\d+)/i` matches exactly when some R or r is followed by a digit |
| Labels.DigitRun | frontend/app.js:126 | `\d+` consumes the longest run of digits |
| FallbackServer.ToFloat | test_server.py:41-48 | numbers convert to themselves, booleans to 1 or 0, and `None` and nested values fail |
| FallbackServer.Converted | test_server.py:41-48 | the conversion succeeds exactly when every element converts, and then it holds each element's value in order |
| FallbackServer.Normalize | test_server.py:41-48 | all or nothing: every element converted, or the empty list if any element fails |
| FallbackServer.Flatten | test_server.py:71-78 | the loop yields exactly one record per demand, as `FallbackRecords` describes |
| FallbackServer.FallbackRecord | test_server.py:72-78 | task i's record is for task i, never exceeds the demand, and names an existing resource whose capacity it does not exceed when there are resources |
| FallbackServer.FallbackRecords | test_server.py:71-78 | one record per demand, for tasks 1..m in order |
| FallbackServer.FallbackRecordFacts | test_server.py:72-78 | task i's record is (i, R1, d) with no capacities, and otherwise names resource `(i-1) mod n + 1` with `min(d, capacity)` |
| FallbackServer.FallbackRoundRobin | test_server.py:72-78 | one record per demand with tasks 1..m in order and `amount <= demand`; R1 with the whole demand when there are no capacities; otherwise resources in range, the first n tasks on R1..Rn, then repeating with period n |
| FallbackServer.FallbackTaskTotal | test_server.py:72-78 | a task gets exactly its one record's amount, and that equals its demand exactly when there are no capacities or the demand fits its resource's capacity (no leftover is ever reported) |
| FallbackServer.Tally | test_server.py:80-91 | `used[r]` is the sum of the amounts of the records naming `R<r+1>`; other records are ignored |
| FallbackServer.StatusOf | test_server.py:93-100 | one entry per capacity named R1..Rn with `used + remaining == capacity`, remaining not clamped |
| FallbackServer.FallbackPlan | test_server.py:71-102 | the fallback answer: round-robin records, nothing unallocated, a status whose `used` is each resource's record total, and a negative remaining exactly when that total exceeds the capacity |
| FallbackServer.OverloadExample | test_server.py:71-102 | capacity 5 and demands 3, 4 both land on R1 and report `used` 7, remaining -2 |
| Simulation.KindName | src/simulator/process.py:7 | the stored string is one of "cpu", "io", "mem" exactly for the three recognised kinds |
| Simulation.KindOf | src/simulator/process.py:19-38 | the branch chain selects the kind whose stored string is the given one, so every string has exactly one kind |
| Simulation.CpuCredit | src/simulator/process.py:19-39 | the run fails exactly for an io or mem kind with a negative duration (the sleep raises); otherwise the credit is the whole duration for `cpu` and unknown kinds, and lies between 0 and the duration for a non-negative duration |
| Simulation.SimulatedProcess.constructor | src/simulator/process.py:5-13 | a new process has its pid, kind and demands, no CPU time, no wait and is not completed |
| Simulation.SimulatedProcess.RunFor | src/simulator/process.py:15-42 | returns the kind's credit (d, 0.3·d, 0.9·d, d) and adds exactly it to the total; returns the error and leaves the total unchanged when an io or mem sleep of negative length raises; for a non-negative slice the total grows by at most the slice |
| Scheduling.NextIndex | src/simulator/scheduler_rr.py:18 | the next index is always a valid index into the list |
| Scheduling.IndexAfter | src/simulator/scheduler_rr.py:18 | the index after any number of steps is a valid index into the list |
| Scheduling.NextIndexWraps | src/simulator/scheduler_rr.py:18 | the index moves to the next process and wraps to 0 only from the last one |
| Scheduling.IndexAfterIsOffset | src/simulator/scheduler_rr.py:18 | k <= n steps move the index k places on, wrapping once |
| Scheduling.FullRound | src/simulator/scheduler_rr.py:18 | n steps bring the index back to its start, visiting each process exactly once |
| Scheduling.RoundRobinScheduler.constructor | src/simulator/scheduler_rr.py:6-9 | the scheduler keeps the list and the slice and starts at index 0 |
| Scheduling.RoundRobinScheduler.Step | src/simulator/scheduler_rr.py:11-20 | runs exactly the process at the index for exactly the slice; on success returns its pid and credit and advances the index modulo n; when the run raises, returns the error with the index and the total unchanged; keeps `index < n`; the list and the slice are constants, and the process's wait time and completion flag are unchanged |
| Monitoring.Append | src/monitor/monitor.py:13 | appending creates the pid's list when missing and keeps the insertion order |
| Monitoring.Readings | src/monitor/monitor.py:10-18 | one reading per process, in list order, all stamped with the same time |
| Monitoring.Appended | src/monitor/monitor.py:12-13 | appending never loses a pid: the key order only grows at its end and every old key stays |
| Monitoring.AppendedWellFormed | src/monitor/monitor.py:12-13 | the insertion order and the lists stay in step |
| Monitoring.AppendedEntries | src/monitor/monitor.py:12-13 | every pid's list grows by exactly the readings for that pid, in order |
| Monitoring.NotReadUnchanged | src/monitor/monitor.py:12-13 | a pid not sampled keeps its list, or stays absent |
| Monitoring.OneRecordEach | src/monitor/monitor.py:12-18 | with distinct pids, one sample appends exactly one record to each process's list |
| Monitoring.AppendOnly | src/monitor/monitor.py:13 | existing records are never rewritten: each old list is a prefix of its new list |
| Monitoring.Monitor.constructor | src/monitor/monitor.py:5-7 | the history starts empty |
| Monitoring.Monitor.Sample | src/monitor/monitor.py:9-18 | the history becomes the old history with one reading per process appended, stamped with the given time |
| Heuristic.Lookup | src/allocator/heuristic_allocator.py:29 | `dict.get` as an option: present exactly when the key is, with its value |
| Heuristic.Smoothed | src/allocator/heuristic_allocator.py:26-31 | with nothing remembered the smoothed value is the delta; otherwise it lies between the remembered delta and the new one |
| Heuristic.Delta | src/allocator/heuristic_allocator.py:24-26 | the delta is non-negative exactly when the total CPU did not fall between the last two samples |
| Heuristic.Adjusted | src/allocator/heuristic_allocator.py:34-47 | below 0.02 the weight becomes `min(max_w, w+5)`; above 0.5 it drops by `int(5·s)` clamped at `min_w`; in (0.2, 0.5] it becomes `max(min_w, w-2)`; the dead zone [0.02, 0.2] writes nothing |
| Heuristic.NewPrev | src/allocator/heuristic_allocator.py:22-31 | a pid has a remembered delta after an update exactly when it had one before or has two samples now |
| Heuristic.NewWeight | src/allocator/heuristic_allocator.py:22-47 | a pid with fewer than two samples keeps its weight; a pid with a weight keeps having one; a new weight stays in `[min_w, max_w]` when the old one (or the default 10) was |
| Heuristic.Updated | src/allocator/heuristic_allocator.py:21-47 | after an update each pid holds exactly its new weight and remembered delta |
| Heuristic.FewSamplesUnchanged | src/allocator/heuristic_allocator.py:22-23 | a pid with fewer than two samples keeps its weight and its memory |
| Heuristic.SmoothingMemory | src/allocator/heuristic_allocator.py:26-31 | the remembered delta becomes `0.6·prev + 0.4·delta`, or the delta itself on a pid's first update |
| Heuristic.AdjustedWithin | src/allocator/heuristic_allocator.py:34-47 | one weight step from inside `[min_w, max_w]` stays inside |
| Heuristic.UpdateWithin | src/allocator/heuristic_allocator.py:36-43 | one update keeps every weight in `[min_w, max_w]`, including pids first seen with the default 10 |
| Heuristic.UpdatesWithin | src/allocator/heuristic_allocator.py:12-47 | boundedness after any sequence of updates |
| Heuristic.WeightAntitone | src/allocator/heuristic_allocator.py:34-47 | more CPU use never earns a larger weight |
| Heuristic.DeadZoneSteady | src/allocator/heuristic_allocator.py:41-47 | a pid settled at a constant delta in the dead zone keeps its weight and its memory |
| Heuristic.NewIsLocal | src/allocator/heuristic_allocator.py:21-47 | a pid's update depends only on that pid's entries |
| Heuristic.UpdatedFrom | src/allocator/heuristic_allocator.py:21-47 | a state that moved exactly the history's pids to their new values is the updated state |
| Heuristic.HeuristicAllocator.constructor | src/allocator/heuristic_allocator.py:4-10 | every pid of the processes starts at weight 10, with nothing remembered |
| Heuristic.HeuristicAllocator.Update | src/allocator/heuristic_allocator.py:12-47 | the loop over the history leaves exactly the state `Updated` describes, and keeps the weights bounded |
| Heuristic.HeuristicAllocator.UpdatePid | src/allocator/heuristic_allocator.py:22-47 | one pass changes only the entries of its pid, to their new values |
| Heuristic.HeuristicAllocator.GetWeights | src/allocator/heuristic_allocator.py:49-50 | returns the current weights |
| Experiment.Count | src/controller/run_experiment.py:30-34 | a missing key counts 0 and a present non-negative count is used as is |
| Experiment.WorkloadKinds | src/controller/run_experiment.py:30-35 | one kind per process to create, `cpu_bound + io_bound + mem_bound` in all |
| Experiment.KindCounts | src/controller/run_experiment.py:30-35 | the numbers of cpu, io and mem processes are the workload's counts |
| Experiment.KindsGrouped | src/controller/run_experiment.py:30-35 | cpu processes come first, then io, then mem |
| Experiment.CreateProcesses | src/controller/run_experiment.py:27-36 | `cpu_bound + io_bound + mem_bound` distinct new idle processes with pids 1..N in order, of the kinds in that grouping |
| Experiment.AddProcesses | src/controller/run_experiment.py:30-35 | one of the three loops: appends count new idle processes of one kind, numbering pids on |
| Experiment.RowsFor | src/controller/run_experiment.py:82-92 | one row per process |
| Experiment.RowsOfOneIteration | src/controller/run_experiment.py:82-92 | each row carries the iteration's index and time, its process's pid and its weight, or 1 when the pid has none |
| Experiment.BaselineRows | src/controller/run_experiment.py:90 | with no weights every row logs weight 1, as the baseline controller does |
| Experiment.RowWeightsWithin | src/controller/run_experiment.py:90 | logged weights are in `[min_w, max_w]` or the default 1 |
| Experiment.Setup | src/controller/run_experiment.py:58-62 | the processes, an empty monitor, a controller weighting exactly the processes' pids within `[1, 100]` with nothing remembered, and the scheduler at index 0 with slice 0.05 |
| Experiment.RunIteration | src/controller/run_experiment.py:69-94 | one pass: the process at the index is credited and the index advances, the history gains one reading per process, the controller state becomes `Updated` on the new history, one row per process is appended, and the sample index grows by 1; when the step raises, the pass reports failure and the index, the history, the controller state, the rows and the sample index are unchanged |
| Experiment.SampleUpdateLog | src/controller/run_experiment.py:74-92 | after a successful step: one reading per process appended, the controller updated on the new history, and one row per process logged with the new weights |
| Experiment.SampleAndUpdate | src/controller/run_experiment.py:74-77 | the sample comes before the update, and the update reads the new history |
| Experiment.LogRows | src/controller/run_experiment.py:82-92 | appends exactly the rows of `RowsFor` |
| Fairness.SumSqPositive | scripts/summarize_results.py:6-12 | a non-zero sum forces a positive sum of squares, so the index's division is defined |
| Fairness.CauchySchwarz | scripts/summarize_results.py:9-12 | `(Σx)² <= n·Σx²` |
| Fairness.JainIndex | scripts/summarize_results.py:6-12 | the index always lies in [0, 1] |
| Fairness.JainBounds | scripts/summarize_results.py:6-12 | with a non-zero sum the index lies in (0, 1] |
| Fairness.JainDegenerate | scripts/summarize_results.py:7-8 | the index is 0 exactly for an empty list or a zero sum |
| Fairness.JainEqual | scripts/summarize_results.py:6-12 | n equal non-zero values give exactly 1 |
| Fairness.JainOneOfFour | scripts/summarize_results.py:6-12 | `[40, 0, 0, 0]` gives 0.25 |
| Fairness.CpuShare | scripts/summarize_results.py:31 | the share is 0 when the total is not positive, and in [0, 1] for a pid within a positive total |
| Fairness.CpuShares | scripts/summarize_results.py:26-31 | one share per pid, each taken against the sum of all totals |
| Fairness.SumShares | scripts/summarize_results.py:26-31 | sharing every value against a positive total divides the sum by it |
| Fairness.SharesSumToOne | scripts/summarize_results.py:26-31 | with a positive total the shares add up to exactly 1, and otherwise every share is 0 |
| Frontend.ValidateInputs | frontend/app.js:40-46 | null exactly when all four checks pass; each message is returned exactly when its check is the first to fail, in the order resources, capacities count, tasks, demands count |
| Frontend.AcceptedShapes | frontend/app.js:40-46 | accepted inputs have at least one capacity and one demand, and whole-number counts equal to the list lengths |
| Frontend.NamedTotal | frontend/app.js:123-133 | non-negative amounts give a non-negative total for every resource |
| Frontend.LocalTally | frontend/app.js:123-133 | `used[k-1]` is the sum of the amounts of the records whose name matches `R<k>`; records without a match, or out of range, are ignored |
| Frontend.Displayed | frontend/app.js:123-133 | the page sees exactly one record per allocation; `DisplayedTotals` states what its tally makes of them |
| Frontend.DisplayedTotals | frontend/app.js:123-133 | on an allocator's own `R<k>` labels the page's tally and the allocator's per-resource total agree |
| Frontend.CapacityLines | frontend/app.js:134-145 | one line per capacity with `used + remaining == capacity`, flagged overloaded exactly when the remaining is negative |
| Frontend.LocalStatus | frontend/app.js:121-145 | each line's used is the tally of its resource, and it is overloaded exactly when that exceeds the capacity |
| Frontend.GreedyNeverOverloaded | frontend/app.js:121-145 | on the page's fallback path, taken only when an answer has no `resource_status`, the greedy allocator's records never show a resource of non-negative capacity as overloaded |
| Frontend.DoubleQuotes | frontend/app.js:175 | doubling quotes never shortens a cell |
| Frontend.DoubleQuotesPlain | frontend/app.js:175 | a cell without quotes is not changed by the doubling |
| Frontend.Escape | frontend/app.js:175 | an escaped cell is enclosed in double quotes |
| Frontend.EscapeRoundTrip | frontend/app.js:175 | stripping the outer quotes and un-doubling recovers the cell |
| Frontend.EscapeInjective | frontend/app.js:175 | different cells are written differently |
| Frontend.JoinCells | frontend/app.js:175 | a joined row has at least two characters per cell, the quotes around it |
| Frontend.JoinLines | frontend/app.js:168-175 | the joined text has at least two characters per row |
| Frontend.RowRoundTrip | frontend/app.js:175 | a joined row reads back as its cells |
| Frontend.LinesRoundTrip | frontend/app.js:175 | the joined text of any non-empty rows reads back as those rows |
| Frontend.CsvRows | frontend/app.js:168-174 | the header row and one three-cell row per allocation |
| Frontend.CsvText | frontend/app.js:166-175 | a download exists exactly when there is at least one allocation |
| Frontend.CsvRoundTrip | frontend/app.js:166-175 | the download exists exactly for a non-empty list, and reading it gives back the header and every record's three cells |

## Left out

- Wall-clock time, `time.sleep`, the CPU busy loop with `random`, and the duration-bounded `while` of the experiment are left out. Timestamps are parameters: `Monitor.Sample` takes `t`, and `RunIteration` takes the sample and row times. The loop is modelled as one iteration.
- The memory-bound kind's scratch array is left out. It only touches real memory.
- Flask routing, CORS, JSON request handling, the dynamic import of the allocator module and the choice between allocator functions are left out. Only the server's fallback path is modelled.
- argparse, loading the JSON workload, `save_csv`, pandas and the plotting script are left out. The summary is modelled from the per-pid totals onwards.
- The page's DOM rendering, `fetch`, Chart.js, the theme and the Blob download are left out. `parseCommaNumbers` is left out too: it depends on JavaScript's `Number()` and regex split.
- `Resource.__str__` and the pretty-printing `__main__` block are left out. Their example inputs are proved as `GreedyExamples`.
- IEEE-754 rounding, infinities and NaN are left out. All arithmetic is over the reals.
- Frontend.ValidateInputs: the counts read from the form are reals, so the NaN that `Number()` gives for unreadable text cannot be passed. With NaN the page's first check passes and the capacities-count message is returned.
- The constant `status: "success"` field is left out of `Plan`.
- The baseline controller is not modelled separately. Its loop equals the adaptive one without the controller, and its rows are `RowsFor` with an empty weight map (`BaselineRows`).
- FallbackServer.Normalize: Python's `float()` on a string is a parameter `readText`, and its grammar is not modelled. The other element kinds are modelled: numbers convert, booleans give 1 or 0, and `None` and nested values fail.
- Frontend.LocalTally: records reach the tally with their names already strings and their amounts already numbers. JavaScript's `??` defaulting, `toString()` and `Number()` conversions are not modelled.
- Frontend.CsvRoundTrip: the cells are the strings `String(cell)` gives, so the number-to-text conversion is not modelled. Rows are joined with "\n" as the page does, not with RFC 4180's CRLF.
- Resources.AdaptiveAllocateFixed: requires the resource objects to be distinct. With the same `Resource` listed twice, one object would receive the records of two names. The model does not capture that aliasing.
- Scheduling.RoundRobinScheduler.Step: the returned pid and credit are modelled, but the experiment loop discards them, as the source does. A raised `ValueError` is returned as `None` rather than propagated.
- Experiment.RunIteration: an exception from the step ends the source's whole run. The model returns a failure flag for that one pass; what the caller does next is not modelled. The experiment's own slice of 0.05 never raises.
- The round-robin scheduler's `Valid` allows an empty process list at construction, because the source accepts one. `Step` requires a non-empty list, as the source's indexing and modulus do.
