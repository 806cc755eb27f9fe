/** The test server's own answer when no allocator module could be loaded: a
    naive round-robin of tasks over resources that may overload them, the usage
    tally and status list built from it, and the defensive normalisation of the
    numeric inputs that precedes every answer. */
module FallbackServer {
  import opened Basics
  import opened Records
  import opened Labels

  // ---- normalisation of the `capacities` and `demands` lists ----

  /** One element of a request list, reduced to what Python's `float()` tells
      apart: arrays and objects are `Nested`. */
  datatype Value = Number(x: real) | Boolean(b: bool) | Text(s: string) | Null | Nested

  /** `float(v)` on one element; None is the exception it raises. The string
      grammar of `float()` is the parameter `readText`. A JSON boolean is a
      Python `bool`, which converts as 1.0 or 0.0. */
  function ToFloat(v: Value, readText: string -> Option<real>): (r: Option<real>)
    ensures v.Number? ==> r == Some(v.x)
    ensures v.Boolean? ==> r.Some? && (r.value == 0.0 || r.value == 1.0)
    ensures v.Null? || v.Nested? ==> r.None?
  {
    match v
    case Number(x) => Some(x)
    case Boolean(b) => Some(if b then 1.0 else 0.0)
    case Text(s) => readText(s)
    case Null => None
    case Nested => None
  }

  /** The list comprehension `[float(c) for c in items]`: every element
      converted, or the first failure. */
  function Converted(items: seq<Value>, readText: string -> Option<real>): (r: Option<seq<real>>)
    ensures r.Some? <==> forall i :: 0 <= i < |items| ==> ToFloat(items[i], readText).Some?
    ensures r.Some? ==> |r.value| == |items| &&
                        forall i :: 0 <= i < |items| ==> r.value[i] == ToFloat(items[i], readText).value
  {
    if items == [] then Some([])
    else
      match ToFloat(items[0], readText)
      case None => None
      case Some(x) =>
        match Converted(items[1..], readText)
        case None => None
        case Some(rest) => Some([x] + rest)
  }

  /** The `try`/`except` around the comprehension: all or nothing. */
  function Normalize(items: seq<Value>, readText: string -> Option<real>): (xs: seq<real>)
    ensures (forall i :: 0 <= i < |items| ==> ToFloat(items[i], readText).Some?) ==>
              |xs| == |items| && forall i :: 0 <= i < |items| ==> xs[i] == ToFloat(items[i], readText).value
    ensures (exists i :: 0 <= i < |items| && ToFloat(items[i], readText).None?) ==> xs == []
  {
    match Converted(items, readText)
    case Some(values) => values
    case None => []
  }

  // ---- the fallback allocation ----

  /** The record task i (1-based) gets: R1 with its whole demand when there are
      no resources, otherwise resource (i - 1) mod n + 1, capped by its capacity. */
  function FallbackRecord(capacities: seq<real>, i: nat, d: real): (a: Allocation)
    requires i >= 1
    ensures a.task == i && a.amount <= d && 1 <= a.resource
    ensures |capacities| > 0 ==> a.resource <= |capacities| && a.amount <= capacities[a.resource - 1]
  {
    if |capacities| == 0 then Allocation(i, 1, d)
    else
      var ri := (i - 1) % |capacities|;
      Allocation(i, ri + 1, Min(d, capacities[ri]))
  }

  /** The whole `flattened` list. */
  function FallbackRecords(capacities: seq<real>, demands: seq<real>): (rs: seq<Allocation>)
    ensures |rs| == |demands| && forall j :: 0 <= j < |demands| ==> rs[j].task == j + 1
  {
    seq(|demands|, j requires 0 <= j < |demands| => FallbackRecord(capacities, j + 1, demands[j]))
  }

  /** The loop at test_server.py:71-78, one record per demand. */
  method Flatten(capacities: seq<real>, demands: seq<real>) returns (flattened: seq<Allocation>)
    ensures flattened == FallbackRecords(capacities, demands)
  {
    flattened := [];
    for j := 0 to |demands|
      invariant flattened == FallbackRecords(capacities, demands[..j])
    {
      var i, d := j + 1, demands[j];
      if |capacities| == 0 {
        flattened := flattened + [Allocation(i, 1, d)];
      } else {
        var ri := (i - 1) % |capacities|;
        var amt := Min(d, capacities[ri]);
        flattened := flattened + [Allocation(i, ri + 1, amt)];
      }
    }
    assert demands[..|demands|] == demands;
  }

  /** What one record says: its task, a resource in 1..n taken round-robin (R1
      when there is none), and the demand cut to that resource's capacity. */
  lemma FallbackRecordFacts(capacities: seq<real>, i: nat, d: real)
    requires i >= 1
    ensures var a := FallbackRecord(capacities, i, d);
            && a.task == i && a.amount <= d
            && (|capacities| == 0 ==> a.resource == 1 && a.amount == d)
            && (|capacities| > 0 ==>
                  && 1 <= a.resource <= |capacities|
                  && a.resource - 1 == (i - 1) % |capacities|
                  && a.amount == Min(d, capacities[a.resource - 1]))
  {
  }

  /** One record per demand in task order; the resources are taken round-robin,
      starting again from R1 after Rn; each amount is the demand cut to the
      capacity of its resource, and the whole demand goes to R1 when there is
      no resource at all. */
  lemma FallbackRoundRobin(capacities: seq<real>, demands: seq<real>)
    ensures var rs := FallbackRecords(capacities, demands);
            && |rs| == |demands|
            && (forall j :: 0 <= j < |rs| ==> rs[j].task == j + 1 && rs[j].amount <= demands[j])
            && (|capacities| == 0 ==>
                  forall j :: 0 <= j < |rs| ==> rs[j].resource == 1 && rs[j].amount == demands[j])
            && (|capacities| > 0 ==>
                  forall j :: 0 <= j < |rs| ==>
                    1 <= rs[j].resource <= |capacities| &&
                    rs[j].amount == Min(demands[j], capacities[rs[j].resource - 1]))
            && (forall j :: 0 <= j < |capacities| && j < |rs| ==> rs[j].resource == j + 1)
            && (forall j :: |capacities| <= j < |rs| && 0 < |capacities| ==>
                  rs[j].resource == rs[j - |capacities|].resource)
  {
    FallbackEachRecord(capacities, demands);
    FallbackFirstRound(capacities, demands);
    FallbackPeriodic(capacities, demands);
  }

  lemma FallbackEachRecord(capacities: seq<real>, demands: seq<real>)
    ensures var rs := FallbackRecords(capacities, demands);
            forall j :: 0 <= j < |rs| ==>
              && rs[j].task == j + 1 && rs[j].amount <= demands[j]
              && (|capacities| == 0 ==> rs[j].resource == 1 && rs[j].amount == demands[j])
              && (|capacities| > 0 ==>
                    1 <= rs[j].resource <= |capacities| &&
                    rs[j].amount == Min(demands[j], capacities[rs[j].resource - 1]))
  {
    var rs := FallbackRecords(capacities, demands);
    forall j | 0 <= j < |rs|
      ensures rs[j].task == j + 1 && rs[j].amount <= demands[j]
      ensures |capacities| == 0 ==> rs[j].resource == 1 && rs[j].amount == demands[j]
      ensures |capacities| > 0 ==>
                1 <= rs[j].resource <= |capacities| &&
                rs[j].amount == Min(demands[j], capacities[rs[j].resource - 1])
    {
      FallbackRecordFacts(capacities, j + 1, demands[j]);
    }
  }

  lemma FallbackFirstRound(capacities: seq<real>, demands: seq<real>)
    ensures var rs := FallbackRecords(capacities, demands);
            forall j :: 0 <= j < |capacities| && j < |rs| ==> rs[j].resource == j + 1
  {
    var rs := FallbackRecords(capacities, demands);
    forall j | 0 <= j < |capacities| && j < |rs|
      ensures rs[j].resource == j + 1
    {
      FallbackRecordFacts(capacities, j + 1, demands[j]);
      RemainderUnique(j, |capacities|, 0, j);
    }
  }

  lemma FallbackPeriodic(capacities: seq<real>, demands: seq<real>)
    ensures var rs := FallbackRecords(capacities, demands);
            forall j :: |capacities| <= j < |rs| && 0 < |capacities| ==>
              rs[j].resource == rs[j - |capacities|].resource
  {
    var rs := FallbackRecords(capacities, demands);
    var n := |capacities|;
    forall j | n <= j < |rs| && 0 < n
      ensures rs[j].resource == rs[j - n].resource
    {
      FallbackRecordFacts(capacities, j + 1, demands[j]);
      FallbackRecordFacts(capacities, j - n + 1, demands[j - n]);
      ShiftedRemainder(j, n);
    }
  }

  lemma ShiftedRemainder(j: nat, n: nat)
    requires 0 < n <= j
    ensures j % n == (j - n) % n
  {
    var q, r := (j - n) / n, (j - n) % n;
    assert j - n == q * n + r;
    Distribute(q, n);
    RemainderUnique(j, n, q + 1, r);
  }

  lemma Distribute(q: int, n: int)
    ensures (q + 1) * n == q * n + n
  {
  }

  /** Euclidean division has one remainder. */
  lemma RemainderUnique(j: int, n: int, q: int, r: int)
    requires 0 < n && 0 <= r < n && j == q * n + r
    ensures j % n == r
  {
    var q', r' := j / n, j % n;
    assert j == q' * n + r';
    Difference(q, q', n);
    if q > q' {
      MulAtLeast(q - q', n);
    } else if q < q' {
      MulAtLeast(q' - q, n);
    }
  }

  lemma Difference(a: int, b: int, n: int)
    ensures (a - b) * n == a * n - b * n
  {
  }

  lemma MulAtLeast(k: int, n: int)
    requires k >= 1 && n > 0
    ensures k * n >= n
  {
  }

  /** No unallocated list is reported, so a task's demand is met in full only
      when it fits its resource: the fallback silently drops the excess. */
  lemma FallbackTaskTotal(capacities: seq<real>, demands: seq<real>, t: nat)
    requires 1 <= t <= |demands|
    ensures var rs := FallbackRecords(capacities, demands);
            TaskTotal(rs, t) == rs[t - 1].amount
    ensures var rs := FallbackRecords(capacities, demands);
            TaskTotal(rs, t) == demands[t - 1] <==>
              |capacities| == 0 || demands[t - 1] <= capacities[(t - 1) % |capacities|]
  {
    var rs := FallbackRecords(capacities, demands);
    FallbackRecordFacts(capacities, t, demands[t - 1]);
    var before, after := rs[..t - 1], rs[t..];
    assert rs == before + [rs[t - 1]] + after;
    TaskTotalAppend(before + [rs[t - 1]], after, t);
    TaskTotalAppend(before, [rs[t - 1]], t);
    forall i | 0 <= i < |before| ensures before[i].task != t {
      assert before[i] == rs[i];
    }
    TaskTotalAbsent(before, t);
    forall i | 0 <= i < |after| ensures after[i].task != t {
      assert after[i] == rs[t + i];
    }
    TaskTotalAbsent(after, t);
    assert TaskTotal([rs[t - 1]], t) == rs[t - 1].amount;
  }

  // ---- resource_status ----

  /** The `used` tally at test_server.py:80-91. Each record's name must start
      with "R" and its rest must read as an integer k with 1 <= k <= n, else the
      record is skipped. */
  method Tally(n: nat, flattened: seq<Allocation>) returns (used: seq<real>)
    ensures |used| == n
    ensures forall r :: 0 <= r < n ==> used[r] == ResourceTotal(flattened, r + 1)
  {
    var acc := new real[n](_ => 0.0);
    for j := 0 to |flattened|
      invariant forall r :: 0 <= r < n ==> acc[r] == ResourceTotal(flattened[..j], r + 1)
    {
      var a := flattened[j];
      assert flattened[..j + 1] == flattened[..j] + [a];
      var rname := Label(a.resource);
      PythonIndexOfLabel(a.resource);
      if |rname| > 0 && rname[0] == 'R' {
        match PythonIndex(rname)
        case Some(k) =>
          var ridx := k - 1;
          if 0 <= ridx < n {
            acc[ridx] := acc[ridx] + a.amount;
          }
        case None =>
      }
    }
    assert flattened[..|flattened|] == flattened;
    used := acc[..];
  }

  /** The status list at test_server.py:93-100: remaining is capacity minus
      used, with no clamping. */
  method StatusOf(capacities: seq<real>, used: seq<real>) returns (status: seq<ResourceStatus>)
    requires |used| == |capacities|
    ensures |status| == |capacities|
    ensures forall k :: 0 <= k < |status| ==>
              status[k].resource == k + 1 && status[k].capacity == capacities[k] &&
              status[k].used == used[k] && status[k].used + status[k].remaining == capacities[k]
  {
    status := [];
    for idx := 0 to |capacities|
      invariant |status| == idx
      invariant forall k :: 0 <= k < idx ==>
                  status[k].resource == k + 1 && status[k].capacity == capacities[k] &&
                  status[k].used == used[k] && status[k].used + status[k].remaining == capacities[k]
    {
      var cap := capacities[idx];
      status := status + [ResourceStatus(idx + 1, used[idx], cap, cap - used[idx])];
    }
  }

  /** The fallback answer: the round-robin records, their per-resource status,
      and always an empty unallocated list. A resource is overloaded (negative
      remaining) exactly when its records sum to more than its capacity. */
  method FallbackPlan(capacities: seq<real>, demands: seq<real>) returns (plan: Plan)
    ensures plan.allocations == FallbackRecords(capacities, demands)
    ensures plan.unallocated == []
    ensures |plan.resourceStatus| == |capacities|
    ensures forall k :: 0 <= k < |capacities| ==>
              var s := plan.resourceStatus[k];
              && s.resource == k + 1 && s.capacity == capacities[k]
              && s.used == ResourceTotal(plan.allocations, k + 1)
              && s.used + s.remaining == capacities[k]
              && (s.remaining < 0.0 <==> ResourceTotal(plan.allocations, k + 1) > capacities[k])
  {
    var flattened := Flatten(capacities, demands);
    var used := Tally(|capacities|, flattened);
    var status := StatusOf(capacities, used);
    plan := Plan(flattened, status, []);
  }

  /** One resource of capacity 5 and demands 3 and 4: each record fits on its
      own, but together they overload R1 by 2 and nothing is reported
      unallocated. */
  method OverloadExample() returns (plan: Plan)
    ensures plan.allocations == [Allocation(1, 1, 3.0), Allocation(2, 1, 4.0)]
    ensures plan.resourceStatus == [ResourceStatus(1, 7.0, 5.0, -2.0)]
    ensures plan.unallocated == []
  {
    plan := FallbackPlan([5.0], [3.0, 4.0]);
    var a1, a2 := Allocation(1, 1, 3.0), Allocation(2, 1, 4.0);
    assert plan.allocations == [a1, a2];
    assert [a1, a2][..1] == [a1] && [a1][..0] == [];
    assert ResourceTotal([a1], 1) == 3.0;
    assert ResourceTotal([a1, a2], 1) == 7.0;
    assert plan.resourceStatus[0] == ResourceStatus(1, 7.0, 5.0, -2.0);
  }
}
