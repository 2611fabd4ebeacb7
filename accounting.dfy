/**
 The runtime accounting of one CPU as a state machine over the two maps:
 `time_lookup` (pid to the timestamp at which it was last switched in) and
 `runtime_lookup` (pid to the running total of its run time). These functions
 are the specification the imperative handler in module Monitor is proved
 against, and the vocabulary of the lemmas in modules Segments and Cpus.
 */
module Accounting {
  import opened Word32
  import opened BpfMap

  /** `max_entries` of `time_lookup` and of `runtime_lookup`. */
  const TIME_LOOKUP_MAX_ENTRIES: nat := 10240
  const RUNTIME_LOOKUP_MAX_ENTRIES: nat := 10240

  /** A reading of the kernel's 64-bit nanosecond clock. */
  type Nanos = n: int | 0 <= n < 0x1_0000_0000_0000_0000

  /** One `sched_switch` tracepoint hit: the two fields of the context the
      handler reads, and the value `bpf_ktime_get_ns` returns when it runs. */
  datatype SwitchEvent = SwitchEvent(prevPid: Key, nextPid: Key, now: Nanos)

  /** The contents of the two maps as seen from one CPU. */
  datatype Maps = Maps(timeLookup: map<Key, Word>, runtimeLookup: map<Key, Word>)

  predicate Bounded(s: Maps)
  {
    |s.timeLookup| <= TIME_LOOKUP_MAX_ENTRIES && |s.runtimeLookup| <= RUNTIME_LOOKUP_MAX_ENTRIES
  }

  /** The 64-bit nanosecond clock stored into a C `int`: its low 32 bits. */
  function Truncate(now: Nanos): (ts: Word)
    // the stored timestamp differs from the clock by a whole number of 2^32 ns
    ensures (now - ts) % WORD_MODULUS == 0
    // and a clock below 2^32 ns is stored as it is
    ensures now < WORD_MODULUS ==> ts == now
  {
    now % WORD_MODULUS
  }

  /** The total stored for `pid`, where an absent entry counts as 0. */
  function Total(runtime: map<Key, Word>, pid: Key): Word
  {
    if pid in runtime then runtime[pid] else 0
  }

  /** `update_runtime(&pid, delta)`: the map after adding `delta` to the total
      of `pid`, and the status of the upsert. */
  function AddToRuntime(runtime: map<Key, Word>, pid: Key, delta: Word): (r: UpdateResult)
    // the upsert fails only for a new pid in a full map
    ensures r.err == 0 <==> HasRoom(runtime, pid, RUNTIME_LOOKUP_MAX_ENTRIES)
    // an existing total grows by delta (mod 2^32), an absent one becomes delta
    ensures r.err == 0 && pid in runtime ==> pid in r.entries && r.entries[pid] == Add(runtime[pid], delta)
    ensures r.err == 0 && pid !in runtime ==> pid in r.entries && r.entries[pid] == delta
    // a failed upsert changes nothing
    ensures r.err != 0 ==> r.entries == runtime
    // only the entry of pid may change, and the capacity holds
    ensures SameExcept(runtime, r.entries, pid)
    ensures |runtime| <= RUNTIME_LOOKUP_MAX_ENTRIES ==> |r.entries| <= RUNTIME_LOOKUP_MAX_ENTRIES
  {
    var timeDelta := Add(delta, Total(runtime, pid));
    UpdateElem(runtime, pid, timeDelta, RUNTIME_LOOKUP_MAX_ENTRIES)
  }

  /** `context_monitor` on one event: close the segment of the outgoing pid if
      it has a recorded start, then record the start of the incoming pid. The
      status of the runtime upsert is not consulted, and the handler's return
      value is always 0, so only the new maps are of interest. */
  function Switch(s: Maps, ev: SwitchEvent): (r: Maps)
    // a miss on the outgoing pid leaves every total alone
    ensures ev.prevPid !in s.timeLookup ==> r.runtimeLookup == s.runtimeLookup
    // a hit charges exactly ts - old (mod 2^32) to the outgoing pid ...
    ensures ev.prevPid in s.timeLookup && HasRoom(s.runtimeLookup, ev.prevPid, RUNTIME_LOOKUP_MAX_ENTRIES) ==>
      ev.prevPid in r.runtimeLookup &&
      r.runtimeLookup[ev.prevPid] == Add(Total(s.runtimeLookup, ev.prevPid), Sub(Truncate(ev.now), s.timeLookup[ev.prevPid]))
    // ... unless its total is new and the map is full, when nothing is charged
    ensures !HasRoom(s.runtimeLookup, ev.prevPid, RUNTIME_LOOKUP_MAX_ENTRIES) ==> r.runtimeLookup == s.runtimeLookup
    // no other total changes
    ensures SameExcept(s.runtimeLookup, r.runtimeLookup, ev.prevPid)
    // the incoming pid's start is recorded whatever happened to the runtime
    ensures HasRoom(s.timeLookup, ev.nextPid, TIME_LOOKUP_MAX_ENTRIES) ==>
      Lookup(r.timeLookup, ev.nextPid) == Some(Truncate(ev.now))
    ensures !HasRoom(s.timeLookup, ev.nextPid, TIME_LOOKUP_MAX_ENTRIES) ==> r.timeLookup == s.timeLookup
    // reading the outgoing pid's start does not remove it: only nextPid's entry changes
    ensures SameExcept(s.timeLookup, r.timeLookup, ev.nextPid)
    ensures Bounded(s) ==> Bounded(r)
  {
    var ts := Truncate(ev.now);
    var runtime :=
      match Lookup(s.timeLookup, ev.prevPid)
      case None => s.runtimeLookup
      case Some(oldTs) => AddToRuntime(s.runtimeLookup, ev.prevPid, Sub(ts, oldTs)).entries;
    Maps(UpdateElem(s.timeLookup, ev.nextPid, ts, TIME_LOOKUP_MAX_ENTRIES).entries, runtime)
  }

  /** The maps after handling a sequence of events in order on one CPU. */
  function Run(s: Maps, evs: seq<SwitchEvent>): (r: Maps)
    ensures Bounded(s) ==> Bounded(r)
    decreases |evs|
  {
    if evs == [] then s else Run(Switch(s, evs[0]), evs[1..])
  }

  lemma {:induction false} RunAppend(s: Maps, a: seq<SwitchEvent>, b: seq<SwitchEvent>)
    ensures Run(s, a + b) == Run(Run(s, a), b)
    decreases |a|
  {
    if a == [] {
      assert a + b == b;
    } else {
      assert (a + b)[0] == a[0];
      assert (a + b)[1..] == a[1..] + b;
      RunAppend(Switch(s, a[0]), a[1..], b);
    }
  }

  /** Neither map ever loses a key, and each event adds at most one key to each. */
  lemma {:induction false} RunGrows(s: Maps, evs: seq<SwitchEvent>)
    ensures s.timeLookup.Keys <= Run(s, evs).timeLookup.Keys
    ensures s.runtimeLookup.Keys <= Run(s, evs).runtimeLookup.Keys
    ensures |Run(s, evs).timeLookup| <= |s.timeLookup| + |evs|
    ensures |Run(s, evs).runtimeLookup| <= |s.runtimeLookup| + |evs|
    decreases |evs|
  {
    if evs != [] {
      var s1 := Switch(s, evs[0]);
      RunGrows(s1, evs[1..]);
      assert s.timeLookup.Keys <= s1.timeLookup.Keys;
      assert s.runtimeLookup.Keys <= s1.runtimeLookup.Keys;
      assert |s1.timeLookup| <= |s.timeLookup| + 1;
      assert |s1.runtimeLookup| <= |s.runtimeLookup| + 1;
    }
  }

  /** An event whose outgoing and incoming pid coincide closes the running
      segment and reopens it at the same timestamp. */
  lemma SwitchToSelf(s: Maps, p: Key, now: Nanos)
    requires p in s.timeLookup && HasRoom(s.runtimeLookup, p, RUNTIME_LOOKUP_MAX_ENTRIES)
    ensures var r := Switch(s, SwitchEvent(p, p, now));
      && r.runtimeLookup == s.runtimeLookup[p := Add(Total(s.runtimeLookup, p), Sub(Truncate(now), s.timeLookup[p]))]
      && r.timeLookup == s.timeLookup[p := Truncate(now)]
  {
  }

  /** A segment shorter than 2^31 ns (about 2.1 s) is charged exactly, as a
      non-negative C `int`, even though both timestamps were truncated. */
  lemma ShortSegmentExact(t0: Nanos, t1: Nanos)
    requires t0 <= t1 < t0 + 0x8000_0000
    ensures Signed(Sub(Truncate(t1), Truncate(t0))) == t1 - t0
  {
  }

  /** A segment of 5 s, wherever it starts, is charged 5 s minus 2^32 ns,
      because the clock is kept in 32 bits. */
  lemma LongSegmentWraps(t0: Nanos)
    requires t0 + 5_000_000_000 < 0x1_0000_0000_0000_0000
    ensures Sub(Truncate(t0 + 5_000_000_000), Truncate(t0)) == 705_032_704
  {
  }
}
