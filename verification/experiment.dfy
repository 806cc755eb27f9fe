/** The experiment controller: it builds the processes from a workload, then
    repeats one iteration (run a slice, sample, update the weights, log one row
    per process). The clock that ends the loop, the argument parsing and the CSV
    file are not part of this model; each iteration's two timestamps are
    parameters. */
module Experiment {
  import opened Simulation
  import opened Scheduling
  import opened Monitoring
  import opened Heuristic

  /** `workload.get(key, 0)` as a loop count: `range` of a negative count is empty. */
  function Count(workload: map<string, int>, key: string): (c: nat)
    ensures key !in workload ==> c == 0
    ensures key in workload && workload[key] >= 0 ==> c == workload[key]
  {
    var n := GetOr(workload, key, 0);
    if n > 0 then n else 0
  }

  /** The kinds of the processes a workload asks for, in creation order. */
  function WorkloadKinds(workload: map<string, int>): (kinds: seq<Kind>)
    ensures |kinds| == Count(workload, "cpu_bound") + Count(workload, "io_bound") + Count(workload, "mem_bound")
  {
    seq(Count(workload, "cpu_bound"), _ => Cpu) +
    seq(Count(workload, "io_bound"), _ => Io) +
    seq(Count(workload, "mem_bound"), _ => Mem)
  }

  /** How many of the kinds are `k`. */
  function Occurrences(kinds: seq<Kind>, k: Kind): nat
  {
    if |kinds| == 0 then 0
    else Occurrences(kinds[..|kinds| - 1], k) + (if kinds[|kinds| - 1] == k then 1 else 0)
  }

  lemma {:induction false} OccurrencesAppend(a: seq<Kind>, b: seq<Kind>, k: Kind)
    ensures Occurrences(a + b, k) == Occurrences(a, k) + Occurrences(b, k)
  {
    if |b| == 0 {
      assert a + b == a;
    } else {
      assert (a + b)[..|a + b| - 1] == a + b[..|b| - 1];
      OccurrencesAppend(a, b[..|b| - 1], k);
    }
  }

  lemma {:induction false} OccurrencesConstant(n: nat, j: Kind, k: Kind)
    ensures Occurrences(seq(n, _ => j), k) == if j == k then n else 0
  {
    if n > 0 {
      assert seq(n, _ => j)[..n - 1] == seq(n - 1, _ => j);
      OccurrencesConstant(n - 1, j, k);
    }
  }

  /** The workload's counts are exactly the numbers of processes of each kind. */
  lemma KindCounts(workload: map<string, int>)
    ensures Occurrences(WorkloadKinds(workload), Cpu) == Count(workload, "cpu_bound")
    ensures Occurrences(WorkloadKinds(workload), Io) == Count(workload, "io_bound")
    ensures Occurrences(WorkloadKinds(workload), Mem) == Count(workload, "mem_bound")
  {
    var c, i, m := Count(workload, "cpu_bound"), Count(workload, "io_bound"), Count(workload, "mem_bound");
    var cs, ios, ms := seq(c, _ => Cpu), seq(i, _ => Io), seq(m, _ => Mem);
    forall k | k in {Cpu, Io, Mem}
      ensures Occurrences(WorkloadKinds(workload), k) == Occurrences(cs, k) + Occurrences(ios, k) + Occurrences(ms, k)
    {
      OccurrencesAppend(cs + ios, ms, k);
      OccurrencesAppend(cs, ios, k);
    }
    OccurrencesConstant(c, Cpu, Cpu);
    OccurrencesConstant(c, Cpu, Io);
    OccurrencesConstant(c, Cpu, Mem);
    OccurrencesConstant(i, Io, Cpu);
    OccurrencesConstant(i, Io, Io);
    OccurrencesConstant(i, Io, Mem);
    OccurrencesConstant(m, Mem, Cpu);
    OccurrencesConstant(m, Mem, Io);
    OccurrencesConstant(m, Mem, Mem);
  }

  /** The kinds come grouped: all CPU-bound first, then I/O-bound, then memory-bound. */
  lemma KindsGrouped(workload: map<string, int>, i: nat, j: nat)
    requires i < j < |WorkloadKinds(workload)|
    ensures var kinds := WorkloadKinds(workload);
            (kinds[j] == Cpu ==> kinds[i] == Cpu) && (kinds[i] == Mem ==> kinds[j] == Mem)
  {
  }

  /** `create_processes`: pids 1, 2, ... in creation order, each a new process. */
  method CreateProcesses(workload: map<string, int>) returns (processes: seq<SimulatedProcess>)
    ensures |processes| == |WorkloadKinds(workload)|
    ensures forall i :: 0 <= i < |processes| ==>
              processes[i].pid == i + 1 && processes[i].kind == WorkloadKinds(workload)[i]
    ensures forall i :: 0 <= i < |processes| ==>
              fresh(processes[i]) && processes[i].totalCpuTime == 0.0 &&
              processes[i].waitTime == 0.0 && !processes[i].completed
    ensures forall i, j :: 0 <= i < j < |processes| ==> processes[i] != processes[j]
  {
    var cpu := AddProcesses([], Cpu, Count(workload, "cpu_bound"));
    var io := AddProcesses(cpu, Io, Count(workload, "io_bound"));
    processes := AddProcesses(io, Mem, Count(workload, "mem_bound"));
    assert processes[..|cpu|] == cpu by {
      assert processes[..|io|][..|cpu|] == processes[..|cpu|];
    }
  }

  /** Appends `count` fresh idle processes of one kind, numbering their pids on
      from the processes already made. */
  method AddProcesses(before: seq<SimulatedProcess>, kind: Kind, count: nat) returns (after: seq<SimulatedProcess>)
    ensures |after| == |before| + count && after[..|before|] == before
    ensures forall i :: |before| <= i < |after| ==>
              && fresh(after[i]) && after[i].pid == i + 1 && after[i].kind == kind
              && after[i].totalCpuTime == 0.0 && after[i].waitTime == 0.0 && !after[i].completed
    ensures forall i, j :: |before| <= i < j < |after| ==> after[i] != after[j]
  {
    after := before;
    var pid := |before| + 1;
    for n := 0 to count
      invariant pid == |after| + 1 && |after| == |before| + n && after[..|before|] == before
      invariant forall i :: |before| <= i < |after| ==>
                  && fresh(after[i]) && after[i].pid == i + 1 && after[i].kind == kind
                  && after[i].totalCpuTime == 0.0 && after[i].waitTime == 0.0 && !after[i].completed
      invariant forall i, j :: |before| <= i < j < |after| ==> after[i] != after[j]
    {
      var p := new SimulatedProcess(pid, kind);
      after := after + [p];
      pid := pid + 1;
    }
  }

  /** One logged row. */
  datatype Row = Row(sampleIdx: nat, time: real, pid: int, kind: Kind, totalCpu: real, waitTime: real, weight: int)

  /** The rows one iteration logs: one per process, in list order, each with the
      pid's current weight, or 1 for a pid the weight map does not hold. */
  function RowsFor(processes: seq<SimulatedProcess>, weights: map<int, int>, sampleIdx: nat, t: real): (rows: seq<Row>)
    reads set p | p in processes
    ensures |rows| == |processes|
  {
    seq(|processes|, i reads processes requires 0 <= i < |processes| =>
      Row(sampleIdx, t, processes[i].pid, processes[i].kind, processes[i].totalCpuTime,
          processes[i].waitTime, GetOr(weights, processes[i].pid, 1)))
  }

  /** Every row of one iteration carries that iteration's index and timestamp,
      and a row's weight is the allocator's weight for its pid when there is one. */
  lemma RowsOfOneIteration(processes: seq<SimulatedProcess>, weights: map<int, int>, sampleIdx: nat, t: real, i: nat)
    requires i < |processes|
    ensures var r := RowsFor(processes, weights, sampleIdx, t)[i];
            r.sampleIdx == sampleIdx && r.time == t && r.pid == processes[i].pid &&
            (r.pid in weights ==> r.weight == weights[r.pid]) &&
            (r.pid !in weights ==> r.weight == 1)
  {
  }

  /** The baseline controller logs weight 1 for every process: it is the same
      snapshot with no weights at all. */
  lemma BaselineRows(processes: seq<SimulatedProcess>, sampleIdx: nat, t: real)
    ensures forall r :: r in RowsFor(processes, map[], sampleIdx, t) ==> r.weight == 1
  {
  }

  /** Logged weights stay in [minW, maxW], or are the default 1. */
  lemma RowWeightsWithin(processes: seq<SimulatedProcess>, weights: map<int, int>, sampleIdx: nat, t: real,
                         minW: int, maxW: int)
    requires WeightsWithin(weights, minW, maxW)
    ensures forall r :: r in RowsFor(processes, weights, sampleIdx, t) ==> r.weight == 1 || minW <= r.weight <= maxW
  {
  }

  /** The objects of one experiment, as `main` builds them. */
  method Setup(workload: map<string, int>, sampleInterval: real)
    returns (processes: seq<SimulatedProcess>, monitor: Monitor, allocator: HeuristicAllocator,
             scheduler: RoundRobinScheduler)
    ensures |processes| == |WorkloadKinds(workload)|
    ensures forall i, j :: 0 <= i < j < |processes| ==> processes[i] != processes[j]
    ensures monitor.history == Empty && WellFormed(monitor.history)
    ensures allocator.weights.Keys == Pids(processes) && allocator.prevCpu == map[]
    ensures allocator.minW == 1 && allocator.maxW == 100 && WeightsWithin(allocator.weights, 1, 100)
    ensures scheduler.processes == processes && scheduler.slice == 0.05 && scheduler.index == 0
    ensures scheduler.Valid()
  {
    processes := CreateProcesses(workload);
    monitor := new Monitor(sampleInterval);
    allocator := new HeuristicAllocator(processes);
    scheduler := new RoundRobinScheduler(processes, 0.05);
  }

  /** One pass of the experiment loop: step, sample at `sampleTime`, update the
      weights from the whole history, log one row per process stamped `rowTime`,
      and advance the sample index. When the step raises (`ok` is false) the
      exception ends the loop before anything else happens: the monitor, the
      allocator, the rows and the sample index are as they were. */
  method RunIteration(processes: seq<SimulatedProcess>, scheduler: RoundRobinScheduler, monitor: Monitor,
                      allocator: HeuristicAllocator, rows: seq<Row>, sampleIdx: nat,
                      sampleTime: real, rowTime: real)
    returns (ok: bool, newRows: seq<Row>, newIdx: nat)
    requires scheduler.processes == processes && |processes| > 0 && scheduler.Valid()
    requires WellFormed(monitor.history)
    modifies scheduler, processes[scheduler.index], monitor, allocator
    ensures var p := processes[old(scheduler.index)];
            ok <==> CpuCredit(p.kind, scheduler.slice).Some?
    ensures scheduler.Valid()
    ensures scheduler.index == if ok then NextIndex(old(scheduler.index), |processes|) else old(scheduler.index)
    ensures var p := processes[old(scheduler.index)];
            p.totalCpuTime == old(p.totalCpuTime) + if ok then CpuCredit(p.kind, scheduler.slice).value else 0.0
    ensures forall i :: 0 <= i < |processes| && processes[i] != processes[old(scheduler.index)] ==>
              processes[i].totalCpuTime == old(processes[i].totalCpuTime)
    ensures WellFormed(monitor.history)
    ensures !ok ==> monitor.history == old(monitor.history) && allocator.State() == old(allocator.State())
    ensures !ok ==> newRows == rows && newIdx == sampleIdx
    ensures ok ==> monitor.history == Appended(old(monitor.history), Readings(processes, sampleTime))
    ensures ok ==> allocator.State() == Updated(old(allocator.State()), monitor.history, allocator.minW, allocator.maxW)
    ensures ok ==> newRows == rows + RowsFor(processes, allocator.weights, sampleIdx, rowTime)
    ensures ok ==> newIdx == sampleIdx + 1
  {
    var ran := scheduler.Step();
    if ran.None? {
      return false, rows, sampleIdx;
    }
    ok := true;
    newRows := SampleUpdateLog(processes, monitor, allocator, rows, sampleIdx, sampleTime, rowTime);
    newIdx := sampleIdx + 1;
  }

  /** The rest of a pass once the step has run: sample, update, log. */
  method SampleUpdateLog(processes: seq<SimulatedProcess>, monitor: Monitor, allocator: HeuristicAllocator,
                         rows: seq<Row>, sampleIdx: nat, sampleTime: real, rowTime: real)
    returns (newRows: seq<Row>)
    requires WellFormed(monitor.history)
    modifies monitor, allocator
    ensures monitor.history == Appended(old(monitor.history), Readings(processes, sampleTime))
    ensures WellFormed(monitor.history)
    ensures allocator.State() == Updated(old(allocator.State()), monitor.history, allocator.minW, allocator.maxW)
    ensures newRows == rows + RowsFor(processes, allocator.weights, sampleIdx, rowTime)
  {
    SampleAndUpdate(processes, monitor, allocator, sampleTime);
    var weights := allocator.GetWeights();
    newRows := LogRows(processes, weights, rows, sampleIdx, rowTime);
  }

  /** The middle of the loop body: `monitor.sample`, then `allocator.update` on
      the history that sample produced. */
  method SampleAndUpdate(processes: seq<SimulatedProcess>, monitor: Monitor, allocator: HeuristicAllocator,
                         sampleTime: real)
    requires WellFormed(monitor.history)
    modifies monitor, allocator
    ensures monitor.history == Appended(old(monitor.history), Readings(processes, sampleTime))
    ensures WellFormed(monitor.history)
    ensures allocator.State() == Updated(old(allocator.State()), monitor.history, allocator.minW, allocator.maxW)
  {
    ghost var readings := Readings(processes, sampleTime);
    monitor.Sample(processes, sampleTime);
    allocator.Update(monitor.history);
    assert Readings(processes, sampleTime) == readings;
  }

  /** The snapshot loop: append one row per process. */
  method LogRows(processes: seq<SimulatedProcess>, weights: map<int, int>, rows: seq<Row>, sampleIdx: nat, t: real)
    returns (newRows: seq<Row>)
    ensures newRows == rows + RowsFor(processes, weights, sampleIdx, t)
  {
    newRows := rows;
    for i := 0 to |processes|
      invariant newRows == rows + RowsFor(processes, weights, sampleIdx, t)[..i]
    {
      var p := processes[i];
      assert RowsFor(processes, weights, sampleIdx, t)[..i + 1] ==
             RowsFor(processes, weights, sampleIdx, t)[..i] + [RowsFor(processes, weights, sampleIdx, t)[i]];
      newRows := newRows + [Row(sampleIdx, t, p.pid, p.kind, p.totalCpuTime, p.waitTime, GetOr(weights, p.pid, 1))];
    }
    assert RowsFor(processes, weights, sampleIdx, t)[..|processes|] == RowsFor(processes, weights, sampleIdx, t);
  }
}
