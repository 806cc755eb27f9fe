/** A simulated process: an id, a behaviour kind, and the CPU time it has been
    credited with. Running it for a slice credits CPU time by kind; the busy
    loop, the sleeps and the scratch buffer that make the run take wall-clock
    time are not part of this model, but the one way a sleep can fail is: a
    negative sleep length raises ValueError before any credit is given. */
module Simulation {
  import opened Basics

  /** A kind string the source does not recognise: anything but "cpu", "io"
      and "mem". */
  type UnknownName = s: string | s != "cpu" && s != "io" && s != "mem"

  /** The behaviour kind. The source keeps it as a string; `Other` carries any
      string other than the three recognised ones, so every string has exactly
      one `Kind` (see `KindOf` and `KindNameRoundTrip`). */
  datatype Kind = Cpu | Io | Mem | Other(name: UnknownName)

  /** The string the source stores for a kind. */
  function KindName(kind: Kind): (s: string)
    ensures kind.Other? <==> s != "cpu" && s != "io" && s != "mem"
  {
    match kind
    case Cpu => "cpu"
    case Io => "io"
    case Mem => "mem"
    case Other(name) => name
  }

  /** The kind a stored string selects in `run_for`'s chain of comparisons. */
  function KindOf(s: string): (kind: Kind)
    ensures KindName(kind) == s
  {
    if s == "cpu" then Cpu
    else if s == "io" then Io
    else if s == "mem" then Mem
    else Other(s)
  }

  /** Strings and kinds correspond one to one. */
  lemma KindNameRoundTrip(kind: Kind)
    ensures KindOf(KindName(kind)) == kind
  {
  }

  /** CPU time credited for running `duration` with the given kind, or None when
      the run raises: io and mem sleep for a fixed fraction of the duration, and
      a negative sleep length is an error. */
  function CpuCredit(kind: Kind, duration: real): (used: Option<real>)
    ensures used.None? <==> (kind.Io? || kind.Mem?) && duration < 0.0
    ensures used.Some? && duration >= 0.0 ==> 0.0 <= used.value <= duration
    ensures kind.Cpu? || kind.Other? ==> used == Some(duration)
  {
    match kind
    case Cpu => Some(duration)
    case Io => if duration < 0.0 then None else Some(duration * 0.3)
    case Mem => if duration < 0.0 then None else Some(duration * 0.9)
    case Other(_) => Some(duration)
  }

  /** A negative slice for an io process fails; for a cpu process it is
      credited as it stands. */
  lemma NegativeSlice()
    ensures CpuCredit(Io, -1.0) == None && CpuCredit(Mem, -1.0) == None
    ensures CpuCredit(Cpu, -1.0) == Some(-1.0)
  {
  }

  class SimulatedProcess {
    const pid: int
    const kind: Kind
    const cpuDemand: int
    const memDemandMb: int
    var totalCpuTime: real
    var waitTime: real
    var completed: bool

    constructor (pid: int, kind: Kind, cpuDemand: int := 1, memDemandMb: int := 10)
      ensures this.pid == pid && this.kind == kind
      ensures this.cpuDemand == cpuDemand && this.memDemandMb == memDemandMb
      ensures totalCpuTime == 0.0 && waitTime == 0.0 && !completed
    {
      this.pid := pid;
      this.kind := kind;
      this.cpuDemand := cpuDemand;
      this.memDemandMb := memDemandMb;
      totalCpuTime := 0.0;
      waitTime := 0.0;
      completed := false;
    }

    /** Run for one slice: credit CPU time by kind and return the credit, or
        return None, with the total untouched, when the sleep raises. Only the
        total changes; the wait time and the completion flag stay as they are. */
    method RunFor(duration: real) returns (used: Option<real>)
      modifies this`totalCpuTime
      ensures used == CpuCredit(kind, duration)
      ensures used.None? ==> totalCpuTime == old(totalCpuTime)
      ensures used.Some? ==> totalCpuTime == old(totalCpuTime) + used.value
      ensures duration >= 0.0 ==> old(totalCpuTime) <= totalCpuTime <= old(totalCpuTime) + duration
    {
      if kind == Cpu {
        used := Some(duration);
      } else if kind == Io {
        if duration < 0.0 {
          return None;
        }
        used := Some(duration * 0.3);
      } else if kind == Mem {
        if duration < 0.0 {
          return None;
        }
        used := Some(duration * 0.9);
      } else {
        used := Some(duration);
      }
      totalCpuTime := totalCpuTime + used.value;
    }
  }
}
