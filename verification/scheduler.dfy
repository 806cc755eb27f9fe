/** The round-robin scheduler: a fixed list of processes, a fixed slice, and an
    index that moves to the next process after every step. */
module Scheduling {
  import opened Simulation
  import opened Basics

  /** Where the index goes after a step over `n` processes. */
  function NextIndex(i: nat, n: nat): (j: nat)
    requires n > 0
    ensures j < n
  {
    (i + 1) % n
  }

  /** The index after `k` steps from `start`. */
  function IndexAfter(start: nat, n: nat, k: nat): (j: nat)
    requires start < n
    ensures j < n
  {
    if k == 0 then start else NextIndex(IndexAfter(start, n, k - 1), n)
  }

  /** One step from an index in range wraps to 0 only from the last one. */
  lemma NextIndexWraps(i: nat, n: nat)
    requires i < n
    ensures NextIndex(i, n) == if i + 1 == n then 0 else i + 1
  {
  }

  /** Up to n steps move the index k places on, wrapping past the end at most once. */
  lemma {:induction false} IndexAfterIsOffset(start: nat, n: nat, k: nat)
    requires start < n && k <= n
    ensures IndexAfter(start, n, k) == if start + k < n then start + k else start + k - n
  {
    if k > 0 {
      IndexAfterIsOffset(start, n, k - 1);
      NextIndexWraps(IndexAfter(start, n, k - 1), n);
    }
  }

  /** A full round of n steps from a valid index comes back to it, and the n
      steps before that select every process exactly once. */
  lemma FullRound(start: nat, n: nat)
    requires start < n
    ensures IndexAfter(start, n, n) == start
    ensures forall j, k :: 0 <= j < k < n ==> IndexAfter(start, n, j) != IndexAfter(start, n, k)
    ensures forall i :: 0 <= i < n ==> InRound(start, n, i)
  {
    IndexAfterIsOffset(start, n, n);
    forall j, k | 0 <= j < k < n
      ensures IndexAfter(start, n, j) != IndexAfter(start, n, k)
    {
      IndexAfterIsOffset(start, n, j);
      IndexAfterIsOffset(start, n, k);
    }
    forall i | 0 <= i < n
      ensures InRound(start, n, i)
    {
      var k := if start <= i then i - start else i + n - start;
      IndexAfterIsOffset(start, n, k);
    }
  }

  /** Index `i` is selected at some step of the round that starts at `start`. */
  predicate InRound(start: nat, n: nat, i: nat)
    requires start < n
  {
    exists k :: 0 <= k < n && IndexAfter(start, n, k) == i
  }

  class RoundRobinScheduler {
    const processes: seq<SimulatedProcess>
    const slice: real
    var index: nat

    /** The index always points into the list once the list is non-empty. */
    predicate Valid()
      reads this
    {
      |processes| == 0 || index < |processes|
    }

    constructor (processes: seq<SimulatedProcess>, slice: real := 0.05)
      ensures this.processes == processes && this.slice == slice && index == 0
      ensures Valid()
    {
      this.processes := processes;
      this.slice := slice;
      index := 0;
    }

    /** Run the process at the index for one slice, report its pid and credit,
        and move the index on. An empty list is an error in the source. When the
        run raises (a negative slice for an io or mem process) the exception
        leaves before the index moves: the result is None and the index stays. */
    method Step() returns (ran: Option<(int, real)>)
      requires |processes| > 0 && Valid()
      modifies this, processes[index]
      ensures Valid()
      ensures ran.Some? <==> CpuCredit(processes[old(index)].kind, slice).Some?
      ensures ran.Some? ==> ran.value == (processes[old(index)].pid, CpuCredit(processes[old(index)].kind, slice).value)
      ensures index == if ran.Some? then NextIndex(old(index), |processes|) else old(index)
      ensures ran.Some? ==> processes[old(index)].totalCpuTime == old(processes[index].totalCpuTime) + ran.value.1
      ensures ran.None? ==> processes[old(index)].totalCpuTime == old(processes[index].totalCpuTime)
      ensures processes[old(index)].waitTime == old(processes[index].waitTime)
      ensures processes[old(index)].completed == old(processes[index].completed)
    {
      var p := processes[index];
      var used := p.RunFor(slice);
      if used.None? {
        return None;
      }
      index := (index + 1) % |processes|;
      ran := Some((p.pid, used.value));
    }
  }
}
