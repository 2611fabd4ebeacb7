/**
 Several CPUs, each with its own pair of maps. A switch on one CPU runs the
 handler against that CPU's maps only, so each CPU's maps are what its own
 events alone would have produced.
 */
module Cpus {
  import opened Accounting

  /** An event together with the CPU whose scheduler raised it. */
  datatype CpuEvent = CpuEvent(cpu: nat, ev: SwitchEvent)

  predicate OnKnownCpus(trace: seq<CpuEvent>, cpus: nat)
  {
    forall i :: 0 <= i < |trace| ==> trace[i].cpu < cpus
  }

  /** Handle one event on the CPU that raised it. */
  function Deliver(parts: seq<Maps>, e: CpuEvent): (r: seq<Maps>)
    requires e.cpu < |parts|
    ensures |r| == |parts|
    ensures r[e.cpu] == Switch(parts[e.cpu], e.ev)
    ensures forall c :: 0 <= c < |parts| && c != e.cpu ==> r[c] == parts[c]
  {
    parts[e.cpu := Switch(parts[e.cpu], e.ev)]
  }

  function RunAll(parts: seq<Maps>, trace: seq<CpuEvent>): (r: seq<Maps>)
    requires OnKnownCpus(trace, |parts|)
    ensures |r| == |parts|
    decreases |trace|
  {
    if trace == [] then parts else RunAll(Deliver(parts, trace[0]), trace[1..])
  }

  /** The events one CPU sees, in order. */
  function OnCpu(trace: seq<CpuEvent>, c: nat): seq<SwitchEvent>
  {
    if trace == [] then []
    else (if trace[0].cpu == c then [trace[0].ev] else []) + OnCpu(trace[1..], c)
  }

  /** Each CPU ends with the maps that its own events, run in order from its
      own initial maps, produce: events on other CPUs never reach them. */
  lemma {:induction false} PartitionsIndependent(parts: seq<Maps>, trace: seq<CpuEvent>, c: nat)
    requires OnKnownCpus(trace, |parts|)
    requires c < |parts|
    ensures RunAll(parts, trace)[c] == Run(parts[c], OnCpu(trace, c))
    decreases |trace|
  {
    if trace != [] {
      var e := trace[0];
      var parts1 := Deliver(parts, e);
      PartitionsIndependent(parts1, trace[1..], c);
      if e.cpu == c {
        var evs := [e.ev] + OnCpu(trace[1..], c);
        assert evs[0] == e.ev && evs[1..] == OnCpu(trace[1..], c);
      } else {
        assert OnCpu(trace, c) == OnCpu(trace[1..], c);
      }
    }
  }
}
