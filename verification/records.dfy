/** The records both allocators answer with (the `allocations`,
    `resource_status` and `unallocated` lists of the response), and the per-task
    and per-resource totals that the properties of the allocators are stated in. */
module Records {
  import opened Basics

  /** `amount` units (the JSON field `allocated`) of task `task` served by
      resource "R<resource>"; both numbers are 1-based, and the label string
      itself is `Labels.Label(resource)`. */
  datatype Allocation = Allocation(task: nat, resource: nat, amount: real)

  /** Demand of task `task` that no resource could serve. */
  datatype Unallocated = Unallocated(task: nat, remaining: real)

  datatype ResourceStatus = ResourceStatus(resource: nat, used: real, capacity: real, remaining: real)

  /** The response body, without its constant `status: "success"` field. */
  datatype Plan = Plan(allocations: seq<Allocation>, resourceStatus: seq<ResourceStatus>, unallocated: seq<Unallocated>)

  /** Total allocated to task t over the records. */
  function TaskTotal(allocs: seq<Allocation>, t: nat): real
  {
    if allocs == [] then 0.0
    else
      var last := allocs[|allocs| - 1];
      TaskTotal(allocs[..|allocs| - 1], t) + (if last.task == t then last.amount else 0.0)
  }

  /** Total allocated by resource "R<k>" over the records. */
  function ResourceTotal(allocs: seq<Allocation>, k: nat): real
  {
    if allocs == [] then 0.0
    else
      var last := allocs[|allocs| - 1];
      ResourceTotal(allocs[..|allocs| - 1], k) + (if last.resource == k then last.amount else 0.0)
  }

  /** The leftover reported for task t: the first matching record, 0 if none
      (how the example driver looks it up with `next(..., 0)`). */
  function LeftoverOf(unallocated: seq<Unallocated>, t: nat): real
  {
    if unallocated == [] then 0.0
    else if unallocated[0].task == t then unallocated[0].remaining
    else LeftoverOf(unallocated[1..], t)
  }

  lemma {:induction false} TaskTotalAppend(a: seq<Allocation>, b: seq<Allocation>, t: nat)
    ensures TaskTotal(a + b, t) == TaskTotal(a, t) + TaskTotal(b, t)
    decreases |b|
  {
    if b == [] {
      assert a + b == a;
    } else {
      assert (a + b)[..|a + b| - 1] == a + b[..|b| - 1];
      TaskTotalAppend(a, b[..|b| - 1], t);
    }
  }

  lemma {:induction false} ResourceTotalAppend(a: seq<Allocation>, b: seq<Allocation>, k: nat)
    ensures ResourceTotal(a + b, k) == ResourceTotal(a, k) + ResourceTotal(b, k)
    decreases |b|
  {
    if b == [] {
      assert a + b == a;
    } else {
      assert (a + b)[..|a + b| - 1] == a + b[..|b| - 1];
      ResourceTotalAppend(a, b[..|b| - 1], k);
    }
  }

  lemma {:induction false} TaskTotalAbsent(a: seq<Allocation>, t: nat)
    requires forall i :: 0 <= i < |a| ==> a[i].task != t
    ensures TaskTotal(a, t) == 0.0
    decreases |a|
  {
    if a != [] {
      TaskTotalAbsent(a[..|a| - 1], t);
    }
  }

  lemma {:induction false} ResourceTotalAbsent(a: seq<Allocation>, k: nat)
    requires forall i :: 0 <= i < |a| ==> a[i].resource != k
    ensures ResourceTotal(a, k) == 0.0
    decreases |a|
  {
    if a != [] {
      ResourceTotalAbsent(a[..|a| - 1], k);
    }
  }

  lemma {:induction false} ResourceTotalNonNegative(a: seq<Allocation>, k: nat)
    requires forall i :: 0 <= i < |a| ==> a[i].amount > 0.0
    ensures ResourceTotal(a, k) >= 0.0
    decreases |a|
  {
    if a != [] {
      ResourceTotalNonNegative(a[..|a| - 1], k);
    }
  }

  lemma {:induction false} LeftoverAbsent(u: seq<Unallocated>, t: nat)
    requires forall i :: 0 <= i < |u| ==> u[i].task != t
    ensures LeftoverOf(u, t) == 0.0
    decreases |u|
  {
    if u != [] {
      LeftoverAbsent(u[1..], t);
    }
  }
}
