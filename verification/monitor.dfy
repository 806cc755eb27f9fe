/** The monitor: an append-only history of samples per pid. The source stamps a
    sample with the wall clock and sleeps afterwards; here the timestamp is a
    parameter and the sleep is not modelled. */
module Monitoring {
  import opened Simulation

  /** One history entry: the time, the process's counters, and its kind. */
  datatype Record = Record(t: real, totalCpu: real, waitTime: real, kind: Kind)

  /** A sample together with the pid whose list it is appended to. */
  datatype Reading = Reading(pid: int, sample: Record)

  /** The monitor's dictionary from pid to its list of records. Like any Python
      dictionary it remembers the order in which its keys were first inserted,
      and that is the order in which it is walked. */
  datatype History = History(order: seq<int>, lists: map<int, seq<Record>>)

  /** The keys in `order` are those of `lists`, each once. */
  predicate WellFormed(h: History)
  {
    (forall i, j :: 0 <= i < j < |h.order| ==> h.order[i] != h.order[j]) &&
    (forall pid :: pid in h.lists ==> pid in h.order) &&
    (forall i :: 0 <= i < |h.order| ==> h.order[i] in h.lists)
  }

  const Empty: History := History([], map[])

  /** The list kept for `pid`; a pid never sampled has the empty list. */
  function Entry(h: History, pid: int): seq<Record>
  {
    if pid in h.lists then h.lists[pid] else []
  }

  /** `history[pid].append(record)` on a dictionary that creates missing lists. */
  function Append(h: History, pid: int, record: Record): (r: History)
    ensures r.lists.Keys == h.lists.Keys + {pid} && h.order <= r.order
  {
    History(if pid in h.lists then h.order else h.order + [pid],
            h.lists[pid := Entry(h, pid) + [record]])
  }

  /** What one call to `sample` records, in list order, at time `t`. */
  function Readings(processes: seq<SimulatedProcess>, t: real): (rs: seq<Reading>)
    reads set p | p in processes
    ensures |rs| == |processes|
    ensures forall i :: 0 <= i < |rs| ==> rs[i].pid == processes[i].pid && rs[i].sample.t == t
  {
    seq(|processes|, i reads processes requires 0 <= i < |processes| =>
      Reading(processes[i].pid,
              Record(t, processes[i].totalCpuTime, processes[i].waitTime, processes[i].kind)))
  }

  /** The history after appending the readings one by one. Nothing already
      there is lost: the key order only grows at its end. */
  function Appended(h: History, rs: seq<Reading>): (r: History)
    ensures h.order <= r.order && h.lists.Keys <= r.lists.Keys
  {
    if |rs| == 0 then h
    else
      var last := rs[|rs| - 1];
      Append(Appended(h, rs[..|rs| - 1]), last.pid, last.sample)
  }

  /** Appending keeps the order and the lists in step. */
  lemma AppendWellFormed(h: History, pid: int, record: Record)
    requires WellFormed(h)
    ensures WellFormed(Append(h, pid, record))
  {
  }

  lemma {:induction false} AppendedWellFormed(h: History, rs: seq<Reading>)
    requires WellFormed(h)
    ensures WellFormed(Appended(h, rs))
  {
    if |rs| > 0 {
      AppendedWellFormed(h, rs[..|rs| - 1]);
      AppendWellFormed(Appended(h, rs[..|rs| - 1]), rs[|rs| - 1].pid, rs[|rs| - 1].sample);
    }
  }

  /** The samples of the readings that belong to `pid`, in order. */
  function SamplesOf(rs: seq<Reading>, pid: int): (ss: seq<Record>)
    ensures |ss| <= |rs|
  {
    if |rs| == 0 then []
    else
      var last := rs[|rs| - 1];
      SamplesOf(rs[..|rs| - 1], pid) + (if last.pid == pid then [last.sample] else [])
  }

  function PidsOf(rs: seq<Reading>): set<int>
  {
    set i | 0 <= i < |rs| :: rs[i].pid
  }

  /** Appending the readings extends every pid's list by exactly that pid's
      readings and creates lists only for the pids that were read. */
  lemma AppendedEntries(h: History, rs: seq<Reading>)
    ensures Appended(h, rs).lists.Keys == h.lists.Keys + PidsOf(rs)
    ensures h.order <= Appended(h, rs).order
    ensures forall pid :: Entry(Appended(h, rs), pid) == Entry(h, pid) + SamplesOf(rs, pid)
  {
    AppendedKeys(h, rs);
    forall pid ensures Entry(Appended(h, rs), pid) == Entry(h, pid) + SamplesOf(rs, pid) {
      AppendedEntry(h, rs, pid);
    }
  }

  lemma {:induction false} AppendedKeys(h: History, rs: seq<Reading>)
    ensures Appended(h, rs).lists.Keys == h.lists.Keys + PidsOf(rs)
    ensures h.order <= Appended(h, rs).order
  {
    if |rs| > 0 {
      AppendedKeys(h, rs[..|rs| - 1]);
      PidsOfSnoc(rs);
    }
  }

  lemma {:induction false} AppendedEntry(h: History, rs: seq<Reading>, pid: int)
    ensures Entry(Appended(h, rs), pid) == Entry(h, pid) + SamplesOf(rs, pid)
  {
    if |rs| > 0 {
      var init := rs[..|rs| - 1];
      var last := rs[|rs| - 1];
      var mid := Appended(h, init);
      AppendedEntry(h, init, pid);
      var extra := if last.pid == pid then [last.sample] else [];
      assert Entry(Appended(h, rs), pid) == Entry(mid, pid) + extra;
      assert (Entry(h, pid) + SamplesOf(init, pid)) + extra == Entry(h, pid) + (SamplesOf(init, pid) + extra);
    }
  }

  /** The pids of all readings are those of all but the last, plus the last's. */
  lemma PidsOfSnoc(rs: seq<Reading>)
    requires |rs| > 0
    ensures PidsOf(rs) == PidsOf(rs[..|rs| - 1]) + {rs[|rs| - 1].pid}
  {
    var init := rs[..|rs| - 1];
    forall x | x in PidsOf(rs) ensures x in PidsOf(init) + {rs[|rs| - 1].pid} {
      var i :| 0 <= i < |rs| && rs[i].pid == x;
      if i < |rs| - 1 {
        assert init[i] == rs[i];
      }
    }
    forall x | x in PidsOf(init) ensures x in PidsOf(rs) {
      var i :| 0 <= i < |init| && init[i].pid == x;
      assert rs[i] == init[i];
    }
  }

  /** A pid that was not read keeps its list, or stays absent. */
  lemma NotReadUnchanged(h: History, rs: seq<Reading>, pid: int)
    requires pid !in PidsOf(rs)
    ensures pid in Appended(h, rs).lists <==> pid in h.lists
    ensures Entry(Appended(h, rs), pid) == Entry(h, pid)
  {
    AppendedEntries(h, rs);
    NoSamplesOfAbsent(rs, pid);
  }

  lemma {:induction false} NoSamplesOfAbsent(rs: seq<Reading>, pid: int)
    requires pid !in PidsOf(rs)
    ensures SamplesOf(rs, pid) == []
  {
    if |rs| > 0 {
      var init := rs[..|rs| - 1];
      PidsOfSnoc(rs);
      NoSamplesOfAbsent(init, pid);
    }
  }

  /** With distinct pids, each pid read gets exactly its own reading. */
  lemma {:induction false} SamplesOfDistinct(rs: seq<Reading>, k: nat)
    requires k < |rs|
    requires forall i, j :: 0 <= i < j < |rs| ==> rs[i].pid != rs[j].pid
    ensures SamplesOf(rs, rs[k].pid) == [rs[k].sample]
  {
    var init := rs[..|rs| - 1];
    if k == |rs| - 1 {
      forall i | 0 <= i < |init| ensures init[i].pid != rs[k].pid {
        assert init[i] == rs[i];
      }
      NoSamplesOfAbsent(init, rs[k].pid);
    } else {
      assert init[k] == rs[k];
      SamplesOfDistinct(init, k);
    }
  }

  /** One `sample` call over processes with distinct pids appends exactly one
      record to each of their lists, and the old list is a prefix of the new. */
  lemma OneRecordEach(h: History, rs: seq<Reading>, k: nat)
    requires k < |rs|
    requires forall i, j :: 0 <= i < j < |rs| ==> rs[i].pid != rs[j].pid
    ensures rs[k].pid in Appended(h, rs).lists
    ensures Appended(h, rs).lists[rs[k].pid] == Entry(h, rs[k].pid) + [rs[k].sample]
  {
    AppendedEntries(h, rs);
    SamplesOfDistinct(rs, k);
    assert rs[k].pid in PidsOf(rs);
  }

  /** Sampling never rewrites a record: every old list is a prefix of the new one. */
  lemma AppendOnly(h: History, rs: seq<Reading>, pid: int)
    requires pid in h.lists
    ensures pid in Appended(h, rs).lists && h.lists[pid] <= Appended(h, rs).lists[pid]
  {
    AppendedEntries(h, rs);
    assert Entry(Appended(h, rs), pid) == h.lists[pid] + SamplesOf(rs, pid);
  }

  class Monitor {
    const sampleInterval: real
    var history: History

    constructor (sampleInterval: real := 0.2)
      ensures this.sampleInterval == sampleInterval && history == Empty
      ensures WellFormed(history)
    {
      this.sampleInterval := sampleInterval;
      history := Empty;
    }

    /** `sample`: append one record per process, all stamped `t`. */
    method Sample(processes: seq<SimulatedProcess>, t: real)
      modifies this`history
      ensures history == Appended(old(history), Readings(processes, t))
      ensures old(WellFormed(history)) ==> WellFormed(history)
    {
      if WellFormed(history) {
        AppendedWellFormed(history, Readings(processes, t));
      }
      ghost var rs := Readings(processes, t);
      for i := 0 to |processes|
        invariant history == Appended(old(history), rs[..i])
      {
        var p := processes[i];
        assert rs[..i + 1][..i] == rs[..i];
        history := Append(history, p.pid, Record(t, p.totalCpuTime, p.waitTime, p.kind));
      }
      assert rs[..|processes|] == rs;
    }
  }
}
