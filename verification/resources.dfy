/** The object-based front of the capacity allocator: a `Resource` whose `used`
    grows as it hands out capacity, and `adaptive_allocate_fixed`, which plans with
    the greedy fill and then replays the plan on the resource objects. */
module Resources {
  import opened Basics
  import opened Labels
  import opened Records
  import opened GreedyFill
  import opened GreedyProperties

  /** A task is only a name and a demand; the allocator never changes it. */
  datatype Task = Task(name: string, demand: real)

  class Resource {
    const name: string
    const capacity: real
    var used: real

    constructor (name: string, capacity: real)
      ensures this.name == name && this.capacity == capacity && used == 0.0
    {
      this.name := name;
      this.capacity := capacity;
      used := 0.0;
    }

    /** Capacity not yet used, never below zero. */
    function Remaining(): (r: real)
      reads this
      ensures r >= 0.0 && r >= capacity - used
      ensures r == 0.0 || r == capacity - used
    {
      Max(0.0, capacity - used)
    }

    /** Hand out up to `amount` of what remains and return what was handed out.
        A non-positive amount, or a full resource, hands out nothing. */
    method Allocate(amount: real) returns (take: real)
      modifies this`used
      ensures take <= old(Remaining()) && take <= amount
      ensures take == old(Remaining()) || take == amount
      ensures used == old(used) + (if take > 0.0 then take else 0.0)
      ensures old(used) <= capacity ==> used <= capacity
    {
      var available := Max(0.0, capacity - used);
      take := Min(available, amount);
      if take > 0.0 {
        used := used + take;
      }
    }
  }

  function Capacities(resources: seq<Resource>): (caps: seq<real>)
    ensures |caps| == |resources|
    ensures forall k :: 0 <= k < |resources| ==> caps[k] == resources[k].capacity
  {
    seq(|resources|, k requires 0 <= k < |resources| => resources[k].capacity)
  }

  function Demands(tasks: seq<Task>): (demands: seq<real>)
    ensures |demands| == |tasks|
    ensures forall i :: 0 <= i < |tasks| ==> demands[i] == tasks[i].demand
  {
    seq(|tasks|, i requires 0 <= i < |tasks| => tasks[i].demand)
  }

  /** `used` after handing out, one by one, positive amounts adding up to `total`
      from a resource that had used `start`: capped at the capacity, unless it was
      already over it. */
  function UsedAfter(start: real, capacity: real, total: real): real
  {
    Min(Max(start, capacity), start + total)
  }

  /** One more positive amount moves `used` along UsedAfter. */
  lemma UsedAfterStep(start: real, capacity: real, total: real, used: real, amount: real)
    requires total >= 0.0 && amount > 0.0
    requires used == UsedAfter(start, capacity, total)
    ensures var take := Min(Max(0.0, capacity - used), amount);
            used + (if take > 0.0 then take else 0.0) == UsedAfter(start, capacity, total + amount)
  {
    if start < capacity {
      if start + total >= capacity {
        assert used == capacity;
      }
    }
  }

  /** The facts about the plan's records that replaying it needs. */
  lemma PlannedRecords(capacities: seq<real>, demands: seq<real>)
    ensures var allocs := GreedyPlan(capacities, demands).allocations;
            forall i :: 0 <= i < |allocs| ==> allocs[i].amount > 0.0 && 1 <= allocs[i].resource <= |capacities|
  {
    GreedyRecordsOrdered(capacities, demands);
  }

  /** Replayed on a resource that started unused, the plan leaves it having used
      exactly what the status report says. */
  lemma FreshResourceMatchesStatus(capacities: seq<real>, demands: seq<real>, k: nat)
    requires k < |capacities| && capacities[k] >= 0.0
    ensures var plan := GreedyPlan(capacities, demands);
            UsedAfter(0.0, capacities[k], ResourceTotal(plan.allocations, k + 1)) == plan.resourceStatus[k].used
  {
    GreedyCapacity(capacities, demands, k);
  }

  /** `adaptive_allocate_fixed`: plan on the capacities, then apply each record to
      the resource its label names, through `Resource.allocate`. */
  method AdaptiveAllocateFixed(tasks: seq<Task>, resources: seq<Resource>) returns (plan: Plan)
    requires forall i, j :: 0 <= i < j < |resources| ==> resources[i] != resources[j]
    modifies set r | r in resources
    ensures plan == GreedyPlan(Capacities(resources), Demands(tasks))
    ensures forall k :: 0 <= k < |resources| ==>
              resources[k].used ==
              UsedAfter(old(resources[k].used), resources[k].capacity, ResourceTotal(plan.allocations, k + 1))
    ensures forall k :: 0 <= k < |resources| && old(resources[k].used) == 0.0 && resources[k].capacity >= 0.0 ==>
              resources[k].used == plan.resourceStatus[k].used
  {
    var caps := Capacities(resources);
    plan := AllocateRespectingCapacities(caps, Demands(tasks));
    PlannedRecords(caps, Demands(tasks));
    ApplyAllocations(plan.allocations, resources);
    forall k | 0 <= k < |resources| && old(resources[k].used) == 0.0 && resources[k].capacity >= 0.0
      ensures resources[k].used == plan.resourceStatus[k].used
    {
      FreshResourceMatchesStatus(caps, Demands(tasks), k);
    }
  }

  /** `int(name.lstrip("R")) - 1` on the label of resource k: the position of
      that resource in the list. */
  method ResourceIndex(k: nat) returns (resIndex: int)
    requires k >= 1
    ensures resIndex == k - 1
  {
    PythonIndexOfLabel(k);
    resIndex := PythonIndex(Label(k)).value - 1;
  }

  /** The replay loop of `adaptive_allocate_fixed`: the resource index is read
      back from the record's "R<k>" label. */
  method ApplyAllocations(allocs: seq<Allocation>, resources: seq<Resource>)
    requires forall i, j :: 0 <= i < j < |resources| ==> resources[i] != resources[j]
    requires forall i :: 0 <= i < |allocs| ==> allocs[i].amount > 0.0 && 1 <= allocs[i].resource <= |resources|
    modifies set r | r in resources
    ensures forall k :: 0 <= k < |resources| ==>
              resources[k].used ==
              UsedAfter(old(resources[k].used), resources[k].capacity, ResourceTotal(allocs, k + 1))
  {
    for j := 0 to |allocs|
      invariant forall k :: 0 <= k < |resources| ==>
                  resources[k].used ==
                  UsedAfter(old(resources[k].used), resources[k].capacity, ResourceTotal(allocs[..j], k + 1))
    {
      var a := allocs[j];
      var resIndex := ResourceIndex(a.resource);
      var r := resources[resIndex];
      ghost var usedBefore := r.used;
      assert allocs[..j + 1][..j] == allocs[..j];
      ResourceTotalNonNegative(allocs[..j], a.resource);
      UsedAfterStep(old(r.used), r.capacity, ResourceTotal(allocs[..j], a.resource), usedBefore, a.amount);
      var _ := r.Allocate(a.amount);
      forall k | 0 <= k < |resources|
        ensures resources[k].used ==
                UsedAfter(old(resources[k].used), resources[k].capacity, ResourceTotal(allocs[..j + 1], k + 1))
      {
        if k != resIndex {
          assert resources[k] != r;
        }
      }
    }
    assert allocs[..|allocs|] == allocs;
  }
}
