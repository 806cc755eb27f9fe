/** The greedy capacity fill of `allocate_respecting_capacities`: tasks are served
    in input order, each scanning the resources R1..Rn in order and taking
    min(remaining, unmet) from every resource that still has capacity. */
module GreedyFill {
  import opened Basics
  import opened Records

  /** What serving one task leaves behind: the remaining capacities, the records
      emitted for that task, and the unmet part of its demand. */
  datatype Fill = Fill(remaining: seq<real>, records: seq<Allocation>, leftover: real)

  /** The unmet demand `req` of task `task` taken from resources ri.. of `rem`.
      The scan stops once the demand is met and skips exhausted resources. */
  function FillTask(task: nat, rem: seq<real>, req: real, ri: nat): (f: Fill)
    requires ri <= |rem|
    ensures |f.remaining| == |rem|
    decreases |rem| - ri
  {
    if ri == |rem| || req <= 0.0 then Fill(rem, [], req)
    else if rem[ri] <= 0.0 then FillTask(task, rem, req, ri + 1)
    else
      // both operands are positive, so the take is too
      var take := Min(rem[ri], req);
      var f := FillTask(task, rem[ri := rem[ri] - take], req - take, ri + 1);
      Fill(f.remaining, [Allocation(task, ri + 1, take)] + f.records, f.leftover)
  }

  /** What serving tasks i+1.. (demands[i..]) leaves behind. */
  datatype Outcome = Outcome(remaining: seq<real>, allocations: seq<Allocation>, unallocated: seq<Unallocated>)

  function ServeFrom(rem: seq<real>, demands: seq<real>, i: nat): (o: Outcome)
    requires i <= |demands|
    ensures |o.remaining| == |rem|
    decreases |demands| - i
  {
    if i == |demands| then Outcome(rem, [], [])
    else
      var f := FillTask(i + 1, rem, demands[i], 0);
      var o := ServeFrom(f.remaining, demands, i + 1);
      Outcome(o.remaining, f.records + o.allocations,
              (if f.leftover > 0.0 then [Unallocated(i + 1, f.leftover)] else []) + o.unallocated)
  }

  /** At most one shortfall entry per task served. */
  lemma {:induction false} ServeShortfalls(rem: seq<real>, demands: seq<real>, i: nat)
    requires i <= |demands|
    ensures |ServeFrom(rem, demands, i).unallocated| <= |demands| - i
    decreases |demands| - i
  {
    if i < |demands| {
      ServeShortfalls(FillTask(i + 1, rem, demands[i], 0).remaining, demands, i + 1);
    }
  }

  /** The per-resource report: used is what the capacity lost. */
  function StatusReport(capacities: seq<real>, remaining: seq<real>): (r: seq<ResourceStatus>)
    requires |remaining| == |capacities|
    ensures |r| == |capacities|
  {
    seq(|capacities|, k requires 0 <= k < |capacities| =>
      ResourceStatus(k + 1, capacities[k] - remaining[k], capacities[k], remaining[k]))
  }

  /** The whole answer of `allocate_respecting_capacities`: one status entry per
      resource, in order, and at most one shortfall entry per task. */
  function GreedyPlan(capacities: seq<real>, demands: seq<real>): (plan: Plan)
    ensures |plan.resourceStatus| == |capacities| && |plan.unallocated| <= |demands|
    ensures forall k :: 0 <= k < |capacities| ==>
              plan.resourceStatus[k].resource == k + 1 && plan.resourceStatus[k].capacity == capacities[k]
  {
    var o := ServeFrom(capacities, demands, 0);
    ServeShortfalls(capacities, demands, 0);
    Plan(o.allocations, StatusReport(capacities, o.remaining), o.unallocated)
  }

  /** `allocate_respecting_capacities`: the remaining capacities live in a list that
      the nested loops update in place. */
  method AllocateRespectingCapacities(capacities: seq<real>, demands: seq<real>) returns (plan: Plan)
    ensures plan == GreedyPlan(capacities, demands)
  {
    var remaining := new real[|capacities|](k requires 0 <= k < |capacities| => capacities[k]);
    assert remaining[..] == capacities;
    var flattened: seq<Allocation> := [];
    var unallocated: seq<Unallocated> := [];
    ghost var o := ServeFrom(capacities, demands, 0);
    assert [] + o.allocations == o.allocations && [] + o.unallocated == o.unallocated;
    for ti := 0 to |demands|
      invariant remaining.Length == |capacities|
      invariant ServeFrom(capacities, demands, 0) ==
                var o := ServeFrom(remaining[..], demands, ti);
                Outcome(o.remaining, flattened + o.allocations, unallocated + o.unallocated)
    {
      ghost var rem, done, shorted := remaining[..], flattened, unallocated;
      var records, req := ServeTask(remaining, ti + 1, demands[ti]);
      ServeOne(rem, demands, ti, remaining[..], records, req, flattened, unallocated);
      flattened := flattened + records;
      if req > 0.0 {
        unallocated := unallocated + [Unallocated(ti + 1, req)];
      }
      assert flattened == done + records;
      assert unallocated == shorted + if req > 0.0 then [Unallocated(ti + 1, req)] else [];
    }
    assert ServeFrom(remaining[..], demands, |demands|) == Outcome(remaining[..], [], []);
    assert flattened + [] == flattened && unallocated + [] == unallocated;
    var status := ReportStatus(capacities, remaining);
    plan := Plan(flattened, status, unallocated);
  }

  /** Serving task ti+1 moves its records and its leftover from the outcome of
      the remaining tasks to the lists built so far. */
  lemma ServeOne(rem: seq<real>, demands: seq<real>, ti: nat, rem': seq<real>, records: seq<Allocation>,
                 req: real, flattened: seq<Allocation>, unallocated: seq<Unallocated>)
    requires ti < |demands|
    requires Fill(rem', records, req) == FillTask(ti + 1, rem, demands[ti], 0)
    ensures var o := ServeFrom(rem, demands, ti);
            var o' := ServeFrom(rem', demands, ti + 1);
            var missed := if req > 0.0 then [Unallocated(ti + 1, req)] else [];
            Outcome(o.remaining, flattened + o.allocations, unallocated + o.unallocated) ==
            Outcome(o'.remaining, (flattened + records) + o'.allocations, (unallocated + missed) + o'.unallocated)
  {
    var o' := ServeFrom(rem', demands, ti + 1);
    var missed := if req > 0.0 then [Unallocated(ti + 1, req)] else [];
    assert flattened + (records + o'.allocations) == (flattened + records) + o'.allocations;
    assert unallocated + (missed + o'.unallocated) == (unallocated + missed) + o'.unallocated;
  }

  /** The `resource_status` loop: used is what each capacity lost. */
  method ReportStatus(capacities: seq<real>, remaining: array<real>) returns (status: seq<ResourceStatus>)
    requires remaining.Length == |capacities|
    ensures status == StatusReport(capacities, remaining[..])
  {
    status := [];
    for ri := 0 to |capacities|
      invariant status == StatusReport(capacities, remaining[..])[..ri]
    {
      var used := capacities[ri] - remaining[ri];
      status := status + [ResourceStatus(ri + 1, used, capacities[ri], remaining[ri])];
    }
  }

  /** The inner loop of `allocate_respecting_capacities`: serve one task from
      the remaining capacities, updating them in place. */
  method ServeTask(remaining: array<real>, task: nat, demand: real) returns (records: seq<Allocation>, req: real)
    modifies remaining
    ensures Fill(remaining[..], records, req) == FillTask(task, old(remaining[..]), demand, 0)
  {
    ghost var rem0 := remaining[..];
    records := [];
    req := demand;
    var ri := 0;
    while ri < remaining.Length
      invariant 0 <= ri <= remaining.Length
      invariant FillTask(task, rem0, demand, 0) ==
                var f := FillTask(task, remaining[..], req, ri);
                Fill(f.remaining, records + f.records, f.leftover)
    {
      if req <= 0.0 {
        break;
      }
      if remaining[ri] <= 0.0 {
        ri := ri + 1;
        continue;
      }
      // the source re-checks `take > 0`, which always holds here
      var take := Min(remaining[ri], req);
      ghost var before := remaining[..];
      remaining[ri] := remaining[ri] - take;
      assert remaining[..] == before[ri := before[ri] - take];
      req := req - take;
      records := records + [Allocation(task, ri + 1, take)];
      ri := ri + 1;
    }
  }
}
