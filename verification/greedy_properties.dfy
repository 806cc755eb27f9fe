/** What the greedy fill promises: each task's records plus its leftover add up
    to its demand, no resource gives more than its capacity, records come out in
    task order and, within a task, in resource order, and a task is only ever
    shorted once every resource is exhausted. */
module GreedyProperties {
  import opened Basics
  import opened Records
  import opened GreedyFill

  /** Emission order: by task, then by resource within a task. */
  predicate Before(a: Allocation, b: Allocation)
  {
    a.task < b.task || (a.task == b.task && a.resource < b.resource)
  }

  predicate InEmissionOrder(allocs: seq<Allocation>)
  {
    forall i, j :: 0 <= i < j < |allocs| ==> Before(allocs[i], allocs[j])
  }

  /** Every record is a positive amount for one of tasks lo+1..hi from one of
      resources R1..Rn. */
  predicate RecordsWithin(allocs: seq<Allocation>, lo: nat, hi: nat, n: nat)
  {
    forall i :: 0 <= i < |allocs| ==>
      allocs[i].amount > 0.0 && lo < allocs[i].task <= hi && 1 <= allocs[i].resource <= n
  }

  /** Every leftover is positive, for one of tasks lo+1..hi, in increasing task order. */
  predicate LeftoversWithin(unallocated: seq<Unallocated>, lo: nat, hi: nat)
  {
    && (forall i :: 0 <= i < |unallocated| ==>
          unallocated[i].remaining > 0.0 && lo < unallocated[i].task <= hi)
    && (forall i, j :: 0 <= i < j < |unallocated| ==> unallocated[i].task < unallocated[j].task)
  }

  // ---------------------------------------------------------------- one task

  lemma {:induction false} FillTaskConserves(task: nat, rem: seq<real>, req: real, ri: nat)
    requires ri <= |rem|
    ensures var f := FillTask(task, rem, req, ri);
            && TaskTotal(f.records, task) + f.leftover == req
            && (req >= 0.0 ==> 0.0 <= f.leftover)
    decreases |rem| - ri
  {
    if ri == |rem| || req <= 0.0 {
    } else if rem[ri] <= 0.0 {
      FillTaskConserves(task, rem, req, ri + 1);
    } else {
      var take := Min(rem[ri], req);
      var f := FillTask(task, rem[ri := rem[ri] - take], req - take, ri + 1);
      FillTaskConserves(task, rem[ri := rem[ri] - take], req - take, ri + 1);
      TaskTotalAppend([Allocation(task, ri + 1, take)], f.records, task);
    }
  }

  lemma {:induction false} FillTaskRecords(task: nat, rem: seq<real>, req: real, ri: nat)
    requires ri <= |rem|
    ensures var f := FillTask(task, rem, req, ri);
            && (forall j :: 0 <= j < |f.records| ==>
                  f.records[j].task == task && f.records[j].amount > 0.0 && ri < f.records[j].resource <= |rem|)
            && InEmissionOrder(f.records)
    decreases |rem| - ri
  {
    if ri == |rem| || req <= 0.0 {
    } else if rem[ri] <= 0.0 {
      FillTaskRecords(task, rem, req, ri + 1);
    } else {
      var take := Min(rem[ri], req);
      FillTaskRecords(task, rem[ri := rem[ri] - take], req - take, ri + 1);
    }
  }

  lemma FillTaskCapacity(task: nat, rem: seq<real>, req: real, ri: nat)
    requires ri <= |rem|
    ensures var f := FillTask(task, rem, req, ri);
            forall k :: 0 <= k < |rem| ==>
              && ResourceTotal(f.records, k + 1) == rem[k] - f.remaining[k]
              && (k < ri ==> f.remaining[k] == rem[k])
              && (rem[k] <= 0.0 ==> f.remaining[k] == rem[k])
              && (rem[k] > 0.0 ==> 0.0 <= f.remaining[k] <= rem[k])
  {
    var f := FillTask(task, rem, req, ri);
    forall k | 0 <= k < |rem|
      ensures && ResourceTotal(f.records, k + 1) == rem[k] - f.remaining[k]
              && (k < ri ==> f.remaining[k] == rem[k])
              && (rem[k] <= 0.0 ==> f.remaining[k] == rem[k])
              && (rem[k] > 0.0 ==> 0.0 <= f.remaining[k] <= rem[k])
    {
      FillTaskRemainingAt(task, rem, req, ri, k);
      FillTaskTotalAt(task, rem, req, ri, k);
    }
  }

  /** What one task's scan leaves in resource k, by induction on the scan. */
  lemma {:induction false} FillTaskRemainingAt(task: nat, rem: seq<real>, req: real, ri: nat, k: nat)
    requires ri <= |rem| && k < |rem|
    ensures var f := FillTask(task, rem, req, ri);
            && (k < ri ==> f.remaining[k] == rem[k])
            && (rem[k] <= 0.0 ==> f.remaining[k] == rem[k])
            && (rem[k] > 0.0 ==> 0.0 <= f.remaining[k] <= rem[k])
    decreases |rem| - ri
  {
    if ri == |rem| || req <= 0.0 {
    } else if rem[ri] <= 0.0 {
      FillTaskRemainingAt(task, rem, req, ri + 1, k);
    } else {
      var take := Min(rem[ri], req);
      FillTaskRemainingAt(task, rem[ri := rem[ri] - take], req - take, ri + 1, k);
    }
  }

  /** What one task's records give from resource k is what the resource lost. */
  lemma {:induction false} FillTaskTotalAt(task: nat, rem: seq<real>, req: real, ri: nat, k: nat)
    requires ri <= |rem| && k < |rem|
    ensures var f := FillTask(task, rem, req, ri);
            ResourceTotal(f.records, k + 1) == rem[k] - f.remaining[k]
    decreases |rem| - ri
  {
    if ri == |rem| || req <= 0.0 {
    } else if rem[ri] <= 0.0 {
      FillTaskTotalAt(task, rem, req, ri + 1, k);
    } else {
      var take := Min(rem[ri], req);
      var rem' := rem[ri := rem[ri] - take];
      FillTaskTotalAt(task, rem', req - take, ri + 1, k);
      TakeThenRest(Allocation(task, ri + 1, take), FillTask(task, rem', req - take, ri + 1).records, k + 1);
    }
  }

  lemma {:induction false} FillTaskExhausts(task: nat, rem: seq<real>, req: real, ri: nat)
    requires ri <= |rem|
    ensures var f := FillTask(task, rem, req, ri);
            f.leftover > 0.0 ==> forall k :: ri <= k < |rem| ==> f.remaining[k] <= 0.0
    decreases |rem| - ri
  {
    if ri == |rem| || req <= 0.0 {
    } else if rem[ri] <= 0.0 {
      FillTaskExhausts(task, rem, req, ri + 1);
      FillTaskCapacity(task, rem, req, ri + 1);
    } else {
      var take := Min(rem[ri], req);
      FillTaskExhausts(task, rem[ri := rem[ri] - take], req - take, ri + 1);
      FillTaskCapacity(task, rem[ri := rem[ri] - take], req - take, ri + 1);
    }
  }

  /** With nothing left in resources ri.., a task gets no record and leaves the
      capacities as they were. */
  lemma {:induction false} FillTaskIdle(task: nat, rem: seq<real>, req: real, ri: nat)
    requires ri <= |rem|
    requires forall k :: ri <= k < |rem| ==> rem[k] <= 0.0
    ensures FillTask(task, rem, req, ri) == Fill(rem, [], req)
    decreases |rem| - ri
  {
    if ri < |rem| && req > 0.0 {
      FillTaskIdle(task, rem, req, ri + 1);
    }
  }

  // --------------------------------------------------------- tasks i+1 .. m

  /** A record at the head counts towards its own resource only. */
  lemma TakeThenRest(head: Allocation, rest: seq<Allocation>, k: nat)
    ensures ResourceTotal([head] + rest, k)
            == (if head.resource == k then head.amount else 0.0) + ResourceTotal(rest, k)
  {
    ResourceTotalAppend([head], rest, k);
    assert [head][..0] == [];
  }

  lemma {:induction false} ServeRecords(rem: seq<real>, demands: seq<real>, i: nat)
    requires i <= |demands|
    ensures var o := ServeFrom(rem, demands, i);
            && RecordsWithin(o.allocations, i, |demands|, |rem|)
            && InEmissionOrder(o.allocations)
            && LeftoversWithin(o.unallocated, i, |demands|)
    decreases |demands| - i
  {
    if i < |demands| {
      var f := FillTask(i + 1, rem, demands[i], 0);
      FillTaskRecords(i + 1, rem, demands[i], 0);
      FillTaskConserves(i + 1, rem, demands[i], 0);
      ServeRecords(f.remaining, demands, i + 1);
      var o := ServeFrom(f.remaining, demands, i + 1);
      RecordsThenLater(f.records, o.allocations, i, |demands|, |rem|);
      var head := if f.leftover > 0.0 then [Unallocated(i + 1, f.leftover)] else [];
      LeftoverThenLater(head, o.unallocated, i, |demands|);
    }
  }

  /** One task's records followed by the records of later tasks stay in
      emission order and in range. */
  lemma RecordsThenLater(first: seq<Allocation>, later: seq<Allocation>, i: nat, m: nat, n: nat)
    requires i < m
    requires forall j :: 0 <= j < |first| ==>
               first[j].task == i + 1 && first[j].amount > 0.0 && 0 < first[j].resource <= n
    requires InEmissionOrder(first)
    requires RecordsWithin(later, i + 1, m, n) && InEmissionOrder(later)
    ensures RecordsWithin(first + later, i, m, n) && InEmissionOrder(first + later)
  {
    var all := first + later;
    forall a, b | 0 <= a < b < |all| ensures Before(all[a], all[b]) {
      if b < |first| {
        assert Before(first[a], first[b]);
      } else if a >= |first| {
        assert Before(later[a - |first|], later[b - |first|]);
      } else {
        assert all[a].task == i + 1 && all[b] == later[b - |first|];
      }
    }
  }

  /** A leftover of task i+1 (or none) followed by later leftovers stays in order. */
  lemma LeftoverThenLater(head: seq<Unallocated>, later: seq<Unallocated>, i: nat, m: nat)
    requires i < m && |head| <= 1
    requires forall j :: 0 <= j < |head| ==> head[j].task == i + 1 && head[j].remaining > 0.0
    requires LeftoversWithin(later, i + 1, m)
    ensures LeftoversWithin(head + later, i, m)
  {
  }

  lemma {:induction false} ServeConserves(rem: seq<real>, demands: seq<real>, i: nat, t: nat)
    requires i < t <= |demands|
    requires demands[t - 1] >= 0.0
    ensures var o := ServeFrom(rem, demands, i);
            TaskTotal(o.allocations, t) + LeftoverOf(o.unallocated, t) == demands[t - 1]
    decreases |demands| - i
  {
    var f := FillTask(i + 1, rem, demands[i], 0);
    var o := ServeFrom(f.remaining, demands, i + 1);
    var head: seq<Unallocated> := if f.leftover > 0.0 then [Unallocated(i + 1, f.leftover)] else [];
    assert ServeFrom(rem, demands, i) == Outcome(o.remaining, f.records + o.allocations, head + o.unallocated);
    TaskTotalAppend(f.records, o.allocations, t);
    if t == i + 1 {
      FillTaskConserves(i + 1, rem, demands[i], 0);
      ServeRecords(f.remaining, demands, i + 1);
      assert RecordsWithin(o.allocations, i + 1, |demands|, |rem|);
      TaskTotalAbsent(o.allocations, t);
      if f.leftover <= 0.0 {
        assert head + o.unallocated == o.unallocated;
        assert LeftoversWithin(o.unallocated, i + 1, |demands|);
        LeftoverAbsent(o.unallocated, t);
      }
    } else {
      FillTaskRecords(i + 1, rem, demands[i], 0);
      TaskTotalAbsent(f.records, t);
      ServeConserves(f.remaining, demands, i + 1, t);
      if f.leftover > 0.0 {
        assert (head + o.unallocated)[1..] == o.unallocated;
      } else {
        assert head + o.unallocated == o.unallocated;
      }
    }
  }

  lemma {:induction false} ServeCapacity(rem: seq<real>, demands: seq<real>, i: nat)
    requires i <= |demands|
    ensures var o := ServeFrom(rem, demands, i);
            forall k :: 0 <= k < |rem| ==>
              && ResourceTotal(o.allocations, k + 1) == rem[k] - o.remaining[k]
              && (rem[k] <= 0.0 ==> o.remaining[k] == rem[k])
              && (rem[k] > 0.0 ==> 0.0 <= o.remaining[k] <= rem[k])
    decreases |demands| - i
  {
    if i < |demands| {
      var f := FillTask(i + 1, rem, demands[i], 0);
      var o := ServeFrom(f.remaining, demands, i + 1);
      FillTaskCapacity(i + 1, rem, demands[i], 0);
      ServeCapacity(f.remaining, demands, i + 1);
      forall k | 0 <= k < |rem|
        ensures ResourceTotal(f.records + o.allocations, k + 1) == rem[k] - o.remaining[k]
      {
        ResourceTotalAppend(f.records, o.allocations, k + 1);
      }
    }
  }

  lemma {:induction false} ServeIdle(rem: seq<real>, demands: seq<real>, i: nat)
    requires i <= |demands|
    requires forall k :: 0 <= k < |rem| ==> rem[k] <= 0.0
    ensures ServeFrom(rem, demands, i).allocations == []
    ensures ServeFrom(rem, demands, i).remaining == rem
    decreases |demands| - i
  {
    if i < |demands| {
      FillTaskIdle(i + 1, rem, demands[i], 0);
      ServeIdle(rem, demands, i + 1);
    }
  }

  lemma {:induction false} ServeExhausts(rem: seq<real>, demands: seq<real>, i: nat)
    requires i <= |demands|
    ensures var o := ServeFrom(rem, demands, i);
            && (forall u, a :: u in o.unallocated && a in o.allocations ==> a.task <= u.task)
            && (o.unallocated != [] ==> forall k :: 0 <= k < |rem| ==> o.remaining[k] <= 0.0)
    decreases |demands| - i
  {
    if i < |demands| {
      var f := FillTask(i + 1, rem, demands[i], 0);
      var o := ServeFrom(f.remaining, demands, i + 1);
      FillTaskRecords(i + 1, rem, demands[i], 0);
      ServeRecords(f.remaining, demands, i + 1);
      ServeExhausts(f.remaining, demands, i + 1);
      if f.leftover > 0.0 {
        FillTaskExhausts(i + 1, rem, demands[i], 0);
        ServeIdle(f.remaining, demands, i + 1);
      }
      var u0: seq<Unallocated> := if f.leftover > 0.0 then [Unallocated(i + 1, f.leftover)] else [];
      forall u, a | u in u0 + o.unallocated && a in f.records + o.allocations
        ensures a.task <= u.task
      {
        if a in f.records {
          if u in o.unallocated {
            var j :| 0 <= j < |o.unallocated| && o.unallocated[j] == u;
          }
        }
      }
    }
  }

  // ---------------------------------------------------------- whole answer

  /** Conservation: a task's records plus its reported leftover give back its demand. */
  lemma GreedyConservation(capacities: seq<real>, demands: seq<real>, t: nat)
    requires 1 <= t <= |demands|
    requires demands[t - 1] >= 0.0
    ensures var plan := GreedyPlan(capacities, demands);
            TaskTotal(plan.allocations, t) + LeftoverOf(plan.unallocated, t) == demands[t - 1]
  {
    ServeConserves(capacities, demands, 0, t);
  }

  /** The status report: one entry per capacity, named R1..Rn, whose `used` is what
      the records took from that resource; with a non-negative capacity, used and
      remaining both lie between 0 and the capacity. */
  lemma GreedyCapacity(capacities: seq<real>, demands: seq<real>, k: nat)
    requires k < |capacities|
    ensures var plan := GreedyPlan(capacities, demands);
            && |plan.resourceStatus| == |capacities|
            && var s := plan.resourceStatus[k];
            && s.resource == k + 1
            && s.capacity == capacities[k]
            && s.used + s.remaining == capacities[k]
            && s.used == ResourceTotal(plan.allocations, k + 1)
            && (capacities[k] >= 0.0 ==> 0.0 <= s.remaining <= capacities[k] && 0.0 <= s.used <= capacities[k])
  {
    ServeCapacity(capacities, demands, 0);
  }

  /** The records: positive amounts, tasks 1..m, resources 1..n, in emission order;
      leftovers positive and in task order. */
  lemma GreedyRecordsOrdered(capacities: seq<real>, demands: seq<real>)
    ensures var plan := GreedyPlan(capacities, demands);
            && RecordsWithin(plan.allocations, 0, |demands|, |capacities|)
            && InEmissionOrder(plan.allocations)
            && LeftoversWithin(plan.unallocated, 0, |demands|)
  {
    ServeRecords(capacities, demands, 0);
  }

  /** A shorted task has drained every resource: no later task receives anything,
      and every resource ends with nothing left. */
  lemma GreedyShortfall(capacities: seq<real>, demands: seq<real>)
    ensures var plan := GreedyPlan(capacities, demands);
            && (forall u, a :: u in plan.unallocated && a in plan.allocations ==> a.task <= u.task)
            && (plan.unallocated != [] ==>
                  forall k :: 0 <= k < |capacities| ==> plan.resourceStatus[k].remaining <= 0.0)
  {
    ServeExhausts(capacities, demands, 0);
  }
}
