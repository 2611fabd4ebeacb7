/**
 The program as it runs on one CPU: the two per-CPU hash maps are fields that
 the two handlers update in place. Each method is proved against the matching
 function of module Accounting and states its effect on both maps outright.
 */
module Monitor {
  import opened Word32
  import opened BpfMap
  import opened Accounting

  class Partition {
    /** `time_lookup`: pid to the timestamp at which it was last switched in. */
    var timeLookup: map<Key, Word>
    /** `runtime_lookup`: pid to its accumulated run time in nanoseconds. */
    var runtimeLookup: map<Key, Word>

    /** Neither map holds more keys than its `max_entries`. */
    ghost predicate Valid()
      reads this
    {
      Bounded(State())
    }

    function State(): Maps
      reads this
    {
      Maps(timeLookup, runtimeLookup)
    }

    /** Both maps start empty when the program is loaded. */
    constructor ()
      ensures Valid()
      ensures timeLookup == map[] && runtimeLookup == map[]
    {
      timeLookup := map[];
      runtimeLookup := map[];
    }

    /** `update_runtime`: add `delta` to the stored total of `pid`, a missing
        total counting as 0, and upsert the result. */
    method UpdateRuntime(pid: Key, delta: Word) returns (err: int)
      requires Valid()
      modifies this
      ensures Valid()
      ensures UpdateResult(err, runtimeLookup) == AddToRuntime(old(runtimeLookup), pid, delta)
      ensures err == 0 <==> HasRoom(old(runtimeLookup), pid, RUNTIME_LOOKUP_MAX_ENTRIES)
      ensures err == 0 ==> runtimeLookup == old(runtimeLookup)[pid := Add(Total(old(runtimeLookup), pid), delta)]
      ensures err != 0 ==> runtimeLookup == old(runtimeLookup)
      ensures timeLookup == old(timeLookup)
    {
      var timeDelta := delta;
      var current := Lookup(runtimeLookup, pid);
      if current.Some? {
        timeDelta := Add(timeDelta, current.value);
      }
      var r := UpdateElem(runtimeLookup, pid, timeDelta, RUNTIME_LOOKUP_MAX_ENTRIES);
      err, runtimeLookup := r.err, r.entries;
    }

    /** `context_monitor`, given the value the clock returns when it runs. */
    method ContextMonitor(prevPid: Key, nextPid: Key, now: Nanos) returns (ret: int)
      requires Valid()
      modifies this
      ensures Valid()
      ensures State() == Switch(old(State()), SwitchEvent(prevPid, nextPid, now))
      ensures ret == 0
      // a miss on prevPid leaves the totals alone ...
      ensures prevPid !in old(timeLookup) ==> runtimeLookup == old(runtimeLookup)
      // ... a hit charges it ts - old, if the total can be stored
      ensures prevPid in old(timeLookup) && HasRoom(old(runtimeLookup), prevPid, RUNTIME_LOOKUP_MAX_ENTRIES) ==>
        runtimeLookup == old(runtimeLookup)[prevPid :=
          Add(Total(old(runtimeLookup), prevPid), Sub(Truncate(now), old(timeLookup)[prevPid]))]
      // and nextPid's start is recorded in any case where the map has room for it
      ensures timeLookup ==
        if HasRoom(old(timeLookup), nextPid, TIME_LOOKUP_MAX_ENTRIES) then old(timeLookup)[nextPid := Truncate(now)]
        else old(timeLookup)
    {
      var ts := Truncate(now);
      var oldTs := Lookup(timeLookup, prevPid);
      if oldTs.Some? {
        var delta := Sub(ts, oldTs.value);
        // the status of update_runtime is not looked at
        var _ := UpdateRuntime(prevPid, delta);
      }
      var r := UpdateElem(timeLookup, nextPid, ts, TIME_LOOKUP_MAX_ENTRIES);
      timeLookup := r.entries;
      ret := 0;
    }
  }

  /** The behaviour on one CPU: pid 42 switched in at 1000 ns and out for pid
      43 at 1500 ns is charged 500 ns, and pid 43's start is 1500. */
  method TwoSwitches() returns (charged: Option<Word>, started: Option<Word>)
    ensures charged == Some(500) && started == Some(1500)
  {
    var cpu := new Partition();
    var ret := cpu.ContextMonitor(0, 42, 1000);
    ret := cpu.ContextMonitor(42, 43, 1500);
    charged := Lookup(cpu.runtimeLookup, 42);
    started := Lookup(cpu.timeLookup, 43);
  }
}
