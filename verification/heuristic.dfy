/** The heuristic weight controller: for every pid with at least two samples it
    smooths the latest CPU delta with the remembered one and moves the pid's
    weight by a piecewise threshold law, clamped to [minW, maxW]. */
module Heuristic {
  import opened Basics
  import opened Simulation
  import opened Monitoring

  /** The value a map holds for a key, if any. */
  function Lookup<K, V>(m: map<K, V>, k: K): (r: Option<V>)
    ensures r.Some? <==> k in m
    ensures r.Some? ==> r.value == m[k]
  {
    if k in m then Some(m[k]) else None
  }

  /** Python's `d.get(k, default)`. */
  function GetOr<K, V>(m: map<K, V>, k: K, default: V): V
  {
    if k in m then m[k] else default
  }

  /** Two maps that hold the same value for every key are equal. */
  lemma LookupExtensional<K, V>(a: map<K, V>, b: map<K, V>)
    requires forall k :: Lookup(a, k) == Lookup(b, k)
    ensures a == b
  {
    assert a.Keys == b.Keys by {
      forall k | k in a ensures k in b {
        assert Lookup(a, k).Some?;
      }
      forall k | k in b ensures k in a {
        assert Lookup(b, k).Some?;
      }
    }
    forall k | k in a ensures a[k] == b[k] {
      assert Lookup(a, k) == Lookup(b, k);
    }
  }

  /** The CPU time used between the last two samples. */
  function Delta(samples: seq<Record>): (d: real)
    requires |samples| >= 2
    ensures samples[|samples| - 2].totalCpu <= samples[|samples| - 1].totalCpu <==> d >= 0.0
  {
    samples[|samples| - 1].totalCpu - samples[|samples| - 2].totalCpu
  }

  /** Exponential smoothing with weight 0.6 on the remembered delta; with nothing
      remembered the delta itself stands in for it. */
  function Smoothed(prev: Option<real>, delta: real): (s: real)
    ensures prev.None? ==> s == delta
    ensures prev.Some? ==> Min(prev.value, delta) <= s <= Max(prev.value, delta)
    ensures prev.Some? && prev.value != delta ==> s != prev.value && s != delta
  {
    var p := if prev.Some? then prev.value else delta;
    0.6 * p + 0.4 * delta
  }

  /** The weight law. `None` is the dead zone, where the weight is not written. */
  function Adjusted(w: int, s: real, minW: int, maxW: int): (r: Option<int>)
    ensures s < 0.02 ==> r == Some(if w + 5 <= maxW then w + 5 else maxW)
    ensures 0.2 < s <= 0.5 ==> r == Some(if w - 2 >= minW then w - 2 else minW)
    ensures s > 0.5 ==> r.Some? && (r.value == minW || r.value <= w - 2)
    ensures s > 0.5 ==> r.Some? && r.value >= minW
                        && (r.value > minW ==> (w - r.value) as real <= 5.0 * s < (w - r.value + 1) as real)
                        && (r.value == minW ==> (w - minW) as real <= 5.0 * s)
    ensures r.None? <==> 0.02 <= s <= 0.2
  {
    if s < 0.02 then Some(MinInt(maxW, w + 5))
    else if s > 0.5 then
      // `int()` truncates toward zero; s is positive here, so that is the floor
      var dec := (s * 5.0).Floor;
      Some(MaxInt(minW, w - dec))
    else if s > 0.2 then Some(MaxInt(minW, w - 2))
    else None
  }

  /** The controller's two dictionaries. */
  datatype AllocatorState = AllocatorState(weights: map<int, int>, prevCpu: map<int, real>)

  /** The pids `update` acts on: those with at least two samples. */
  function Active(history: History): set<int>
  {
    set pid | pid in history.lists && |history.lists[pid]| >= 2
  }

  function SmoothedFor(st: AllocatorState, history: History, pid: int): real
    requires pid in Active(history)
  {
    Smoothed(Lookup(st.prevCpu, pid), Delta(history.lists[pid]))
  }

  /** The remembered delta of `pid` after an update. */
  function NewPrev(st: AllocatorState, history: History, pid: int): (r: Option<real>)
    ensures r.None? <==> pid !in Active(history) && pid !in st.prevCpu
  {
    if pid in Active(history) then Some(SmoothedFor(st, history, pid))
    else Lookup(st.prevCpu, pid)
  }

  /** The weight of `pid` after an update; a pid first seen here starts from 10. */
  function NewWeight(st: AllocatorState, history: History, pid: int, minW: int, maxW: int): (r: Option<int>)
    ensures pid !in Active(history) ==> r == Lookup(st.weights, pid)
    ensures pid in st.weights ==> r.Some?
    ensures minW <= 10 <= maxW && (pid in st.weights ==> minW <= st.weights[pid] <= maxW) && r.Some? ==>
              minW <= r.value <= maxW
  {
    if pid in Active(history) then
      var w := GetOr(st.weights, pid, 10);
      AdjustedWithin(w, SmoothedFor(st, history, pid), minW, maxW);
      match Adjusted(w, SmoothedFor(st, history, pid), minW, maxW)
      case Some(w') => Some(w')
      case None => Lookup(st.weights, pid)
    else Lookup(st.weights, pid)
  }

  /** The whole state after one `update`: every pid is updated on its own, so
      the order in which the history is walked does not matter. */
  function Updated(st: AllocatorState, history: History, minW: int, maxW: int): (r: AllocatorState)
    ensures forall pid :: Lookup(r.weights, pid) == NewWeight(st, history, pid, minW, maxW)
    ensures forall pid :: Lookup(r.prevCpu, pid) == NewPrev(st, history, pid)
  {
    AllocatorState(
      map pid | pid in st.weights.Keys + Active(history) && NewWeight(st, history, pid, minW, maxW).Some?
        :: NewWeight(st, history, pid, minW, maxW).value,
      map pid | pid in st.prevCpu.Keys + Active(history) :: NewPrev(st, history, pid).value)
  }

  /** The state after a sequence of updates. */
  function UpdatedAll(st: AllocatorState, histories: seq<History>, minW: int, maxW: int): AllocatorState
  {
    if |histories| == 0 then st
    else Updated(UpdatedAll(st, histories[..|histories| - 1], minW, maxW), histories[|histories| - 1], minW, maxW)
  }

  predicate WeightsWithin(weights: map<int, int>, minW: int, maxW: int)
  {
    forall pid :: pid in weights ==> minW <= weights[pid] <= maxW
  }

  /** A pid with fewer than two samples keeps its weight and its memory. */
  lemma FewSamplesUnchanged(st: AllocatorState, history: History, pid: int, minW: int, maxW: int)
    requires pid !in history.lists || |history.lists[pid]| < 2
    ensures Lookup(Updated(st, history, minW, maxW).weights, pid) == Lookup(st.weights, pid)
    ensures Lookup(Updated(st, history, minW, maxW).prevCpu, pid) == Lookup(st.prevCpu, pid)
  {
  }

  /** The first update of a pid remembers its delta as is; later ones blend. */
  lemma SmoothingMemory(st: AllocatorState, history: History, pid: int, minW: int, maxW: int)
    requires pid in history.lists && |history.lists[pid]| >= 2
    ensures var p := Updated(st, history, minW, maxW).prevCpu;
            pid in p &&
            p[pid] == (if pid in st.prevCpu then 0.6 * st.prevCpu[pid] + 0.4 * Delta(history.lists[pid])
                       else Delta(history.lists[pid]))
  {
    assert pid in Active(history);
    assert Lookup(Updated(st, history, minW, maxW).prevCpu, pid) == NewPrev(st, history, pid);
  }

  /** One weight step stays within [minW, maxW] when it starts there. */
  lemma AdjustedWithin(w: int, s: real, minW: int, maxW: int)
    ensures minW <= w <= maxW && Adjusted(w, s, minW, maxW).Some? ==>
              minW <= Adjusted(w, s, minW, maxW).value <= maxW
  {
    if s > 0.5 {
      assert s * 5.0 > 2.5;
      assert (s * 5.0).Floor >= 2;
    }
  }

  /** One update keeps every weight within [minW, maxW], including those of pids
      first seen in this update, which start from 10. */
  lemma UpdateWithin(st: AllocatorState, history: History, minW: int, maxW: int)
    requires minW <= 10 <= maxW && WeightsWithin(st.weights, minW, maxW)
    ensures WeightsWithin(Updated(st, history, minW, maxW).weights, minW, maxW)
  {
    var r := Updated(st, history, minW, maxW);
    forall pid | pid in r.weights
      ensures minW <= r.weights[pid] <= maxW
    {
      assert Lookup(r.weights, pid) == NewWeight(st, history, pid, minW, maxW);
      if pid in Active(history) {
        AdjustedWithin(GetOr(st.weights, pid, 10), SmoothedFor(st, history, pid), minW, maxW);
      }
    }
  }

  /** Boundedness holds after any sequence of updates. */
  lemma {:induction false} UpdatesWithin(st: AllocatorState, histories: seq<History>, minW: int, maxW: int)
    requires minW <= 10 <= maxW && WeightsWithin(st.weights, minW, maxW)
    ensures WeightsWithin(UpdatedAll(st, histories, minW, maxW).weights, minW, maxW)
  {
    if |histories| > 0 {
      UpdatesWithin(st, histories[..|histories| - 1], minW, maxW);
      UpdateWithin(UpdatedAll(st, histories[..|histories| - 1], minW, maxW), histories[|histories| - 1], minW, maxW);
    }
  }

  /** The weight after one step, the dead zone leaving it as it is. */
  function WeightAfter(w: int, s: real, minW: int, maxW: int): int
  {
    match Adjusted(w, s, minW, maxW)
    case Some(v) => v
    case None => w
  }

  /** The law is antitone: more CPU use never earns a larger weight. */
  lemma WeightAntitone(w: int, s1: real, s2: real, minW: int, maxW: int)
    requires minW <= w <= maxW && s1 <= s2
    ensures WeightAfter(w, s1, minW, maxW) >= WeightAfter(w, s2, minW, maxW)
  {
    if s2 > 0.5 {
      assert (s2 * 5.0).Floor >= 2;
      if s1 > 0.5 {
        assert s1 * 5.0 <= s2 * 5.0;
        assert (s1 * 5.0).Floor <= (s2 * 5.0).Floor;
      }
    }
  }

  /** A pid whose CPU use settles at a constant delta in the dead zone, and whose
      memory already holds that value, keeps its weight and its memory. */
  lemma DeadZoneSteady(st: AllocatorState, history: History, pid: int, minW: int, maxW: int)
    requires pid in history.lists && |history.lists[pid]| >= 2
    requires 0.02 <= Delta(history.lists[pid]) <= 0.2
    requires pid in st.prevCpu && st.prevCpu[pid] == Delta(history.lists[pid])
    ensures Lookup(Updated(st, history, minW, maxW).weights, pid) == Lookup(st.weights, pid)
    ensures Lookup(Updated(st, history, minW, maxW).prevCpu, pid) == Lookup(st.prevCpu, pid)
  {
    assert pid in Active(history);
  }

  function Pids(processes: seq<SimulatedProcess>): set<int>
  {
    set p | p in processes :: p.pid
  }

  /** What an update does to `pid` depends only on the entries of `pid`. */
  lemma NewIsLocal(st1: AllocatorState, st2: AllocatorState, history: History, pid: int, minW: int, maxW: int)
    requires Lookup(st1.weights, pid) == Lookup(st2.weights, pid)
    requires Lookup(st1.prevCpu, pid) == Lookup(st2.prevCpu, pid)
    ensures NewWeight(st1, history, pid, minW, maxW) == NewWeight(st2, history, pid, minW, maxW)
    ensures NewPrev(st1, history, pid) == NewPrev(st2, history, pid)
  {
    assert GetOr(st1.weights, pid, 10) == GetOr(st2.weights, pid, 10) by {
      assert (pid in st1.weights) == Lookup(st1.weights, pid).Some?;
    }
  }

  /** A state that moved exactly the pids of the history to their new values
      is the updated state. */
  lemma UpdatedFrom(st0: AllocatorState, history: History, st: AllocatorState, minW: int, maxW: int)
    requires WellFormed(history)
    requires forall pid :: Lookup(st.weights, pid) ==
               if pid in history.order then NewWeight(st0, history, pid, minW, maxW) else Lookup(st0.weights, pid)
    requires forall pid :: Lookup(st.prevCpu, pid) ==
               if pid in history.order then NewPrev(st0, history, pid) else Lookup(st0.prevCpu, pid)
    ensures st == Updated(st0, history, minW, maxW)
  {
    var r := Updated(st0, history, minW, maxW);
    forall pid ensures Lookup(st.weights, pid) == Lookup(r.weights, pid)
                    && Lookup(st.prevCpu, pid) == Lookup(r.prevCpu, pid)
    {
      if pid !in history.order {
        assert pid !in Active(history);
      }
    }
    LookupExtensional(st.weights, r.weights);
    LookupExtensional(st.prevCpu, r.prevCpu);
  }

  class HeuristicAllocator {
    var weights: map<int, int>
    const minW: int
    const maxW: int
    var prevCpu: map<int, real>

    function State(): AllocatorState
      reads this
    {
      AllocatorState(weights, prevCpu)
    }

    /** Every pid of the processes starts at weight 10, with nothing remembered. */
    constructor (processes: seq<SimulatedProcess>, minW: int := 1, maxW: int := 100)
      ensures this.minW == minW && this.maxW == maxW && prevCpu == map[]
      ensures weights.Keys == Pids(processes)
      ensures forall pid :: pid in weights ==> weights[pid] == 10
    {
      weights := map pid | pid in Pids(processes) :: 10;
      this.minW := minW;
      this.maxW := maxW;
      prevCpu := map[];
    }

    /** `update`: the pids of the history are walked in the dictionary's order,
        each handled on its own. */
    method Update(history: History)
      requires WellFormed(history)
      modifies this`weights, this`prevCpu
      ensures State() == Updated(old(State()), history, minW, maxW)
      ensures minW <= 10 <= maxW && WeightsWithin(old(weights), minW, maxW) ==> WeightsWithin(weights, minW, maxW)
    {
      ghost var st0 := State();
      for i := 0 to |history.order|
        invariant forall pid :: Lookup(weights, pid) ==
                    if pid in history.order[..i] then NewWeight(st0, history, pid, minW, maxW) else Lookup(st0.weights, pid)
        invariant forall pid :: Lookup(prevCpu, pid) ==
                    if pid in history.order[..i] then NewPrev(st0, history, pid) else Lookup(st0.prevCpu, pid)
      {
        var pid := history.order[i];
        assert pid !in history.order[..i];
        assert history.order[..i + 1] == history.order[..i] + [pid];
        ghost var st := State();
        UpdatePid(history, pid);
        NewIsLocal(st, st0, history, pid, minW, maxW);
      }
      assert history.order[..|history.order|] == history.order;
      UpdatedFrom(st0, history, State(), minW, maxW);
      if minW <= 10 <= maxW && WeightsWithin(st0.weights, minW, maxW) {
        UpdateWithin(st0, history, minW, maxW);
      }
    }

    /** One pass of the loop in `update`: only the entries of `pid` change. */
    method UpdatePid(history: History, pid: int)
      requires pid in history.lists
      modifies this`weights, this`prevCpu
      ensures Lookup(weights, pid) == NewWeight(old(State()), history, pid, minW, maxW)
      ensures Lookup(prevCpu, pid) == NewPrev(old(State()), history, pid)
      ensures forall q :: q != pid ==> Lookup(weights, q) == Lookup(old(weights), q)
      ensures forall q :: q != pid ==> Lookup(prevCpu, q) == Lookup(old(prevCpu), q)
    {
      var samples := history.lists[pid];
      if |samples| < 2 {
        return;
      }
      var cpuDelta := samples[|samples| - 1].totalCpu - samples[|samples| - 2].totalCpu;
      var prevDelta := if pid in prevCpu then prevCpu[pid] else cpuDelta;
      var smoothed := 0.6 * prevDelta + 0.4 * cpuDelta;
      prevCpu := prevCpu[pid := smoothed];
      var w := GetOr(weights, pid, 10);
      if smoothed < 0.02 {
        weights := weights[pid := MinInt(maxW, w + 5)];
      } else if smoothed > 0.5 {
        var dec := (smoothed * 5.0).Floor;
        weights := weights[pid := MaxInt(minW, w - dec)];
      } else if smoothed > 0.2 {
        weights := weights[pid := MaxInt(minW, w - 2)];
      }
    }

    /** `get_weights`: the current weight map. */
    method GetWeights() returns (w: map<int, int>)
      ensures w == weights
    {
      w := weights;
    }
  }
}
