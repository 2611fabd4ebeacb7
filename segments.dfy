/**
 Run segments: a pid is switched in on the CPU and later switched out again.
 Any events that do not name the pid may come between the two, and between
 segments. The total of the pid grows by the length of each segment and by
 nothing else, whatever those events are.
 */
module Segments {
  import opened Word32
  import opened BpfMap
  import opened Accounting

  /** No event of `evs` switches `p` in or out. */
  predicate Untouched(evs: seq<SwitchEvent>, p: Key)
  {
    forall i :: 0 <= i < |evs| ==> evs[i].prevPid != p && evs[i].nextPid != p
  }

  /** Events that do not switch `p` in or out leave both of its entries as
      they were. */
  lemma {:induction false} RunUntouched(s: Maps, evs: seq<SwitchEvent>, p: Key)
    requires Untouched(evs, p)
    ensures Lookup(Run(s, evs).timeLookup, p) == Lookup(s.timeLookup, p)
    ensures Lookup(Run(s, evs).runtimeLookup, p) == Lookup(s.runtimeLookup, p)
    decreases |evs|
  {
    if evs != [] {
      var s1 := Switch(s, evs[0]);
      assert Lookup(s1.timeLookup, p) == Lookup(s.timeLookup, p);
      assert Lookup(s1.runtimeLookup, p) == Lookup(s.runtimeLookup, p);
      RunUntouched(s1, evs[1..], p);
    }
  }

  /** One segment of `p`: switched in by `enter`, switched out by `exit`, and
      `during` does not switch `p` in or out. If the start of `p` can be
      recorded, `p` is charged exactly the time between the two events (mod
      2^32), or nothing when its total is new and the runtime map is full at
      the switch-out. */
  lemma OneSegment(s: Maps, p: Key, enter: SwitchEvent, during: seq<SwitchEvent>, exit: SwitchEvent)
    requires enter.nextPid == p && enter.prevPid != p
    requires Untouched(during, p)
    requires exit.prevPid == p
    requires HasRoom(s.timeLookup, p, TIME_LOOKUP_MAX_ENTRIES)
    ensures var r := Run(s, [enter] + during + [exit]);
      && p in r.timeLookup
      && (HasRoom(Run(s, [enter] + during).runtimeLookup, p, RUNTIME_LOOKUP_MAX_ENTRIES) ==>
            p in r.runtimeLookup &&
            r.runtimeLookup[p] == Add(Total(s.runtimeLookup, p), Sub(Truncate(exit.now), Truncate(enter.now))))
      && (!HasRoom(Run(s, [enter] + during).runtimeLookup, p, RUNTIME_LOOKUP_MAX_ENTRIES) ==>
            Total(r.runtimeLookup, p) == Total(s.runtimeLookup, p))
  {
    var s1 := Switch(s, enter);
    assert Lookup(s1.timeLookup, p) == Some(Truncate(enter.now));
    assert Lookup(s1.runtimeLookup, p) == Lookup(s.runtimeLookup, p);
    assert Run(s, [enter]) == s1 by {
      assert [enter][1..] == [];
    }
    RunAppend(s, [enter], during);
    RunUntouched(s1, during, p);
    var s2 := Run(s, [enter] + during);
    assert Run(s, [enter] + during) == Run(s1, during);
    assert Run(s2, [exit]) == Switch(s2, exit) by {
      assert [exit][1..] == [];
    }
    RunAppend(s, [enter] + during, [exit]);
  }

  /** A segment of `p` followed by `idle` events in which `p` does not run. */
  datatype Segment = Segment(enter: SwitchEvent, during: seq<SwitchEvent>, exit: SwitchEvent, idle: seq<SwitchEvent>)

  predicate SegmentOf(seg: Segment, p: Key)
  {
    && seg.enter.nextPid == p && seg.enter.prevPid != p
    && Untouched(seg.during, p)
    && seg.exit.prevPid == p
    && Untouched(seg.idle, p)
  }

  function Events(seg: Segment): seq<SwitchEvent>
  {
    [seg.enter] + seg.during + [seg.exit] + seg.idle
  }

  function Flatten(segs: seq<Segment>): seq<SwitchEvent>
  {
    if segs == [] then [] else Events(segs[0]) + Flatten(segs[1..])
  }

  /** The length of a segment as the handler computes it. */
  function Length(seg: Segment): Word
  {
    Sub(Truncate(seg.exit.now), Truncate(seg.enter.now))
  }

  function SumOfLengths(segs: seq<Segment>): Word
  {
    if segs == [] then 0 else Add(Length(segs[0]), SumOfLengths(segs[1..]))
  }

  /** Over any number of segments of `p`, interleaved with any events of other
      pids, the total of `p` grows by the sum of the segment lengths (mod
      2^32), provided the start of `p` can be recorded at its first switch-in
      and its total can be stored at its first switch-out. */
  lemma {:induction false} Additivity(s: Maps, p: Key, segs: seq<Segment>)
    requires forall i :: 0 <= i < |segs| ==> SegmentOf(segs[i], p)
    requires HasRoom(s.timeLookup, p, TIME_LOOKUP_MAX_ENTRIES)
    requires segs != [] ==>
      HasRoom(Run(s, [segs[0].enter] + segs[0].during).runtimeLookup, p, RUNTIME_LOOKUP_MAX_ENTRIES)
    ensures Total(Run(s, Flatten(segs)).runtimeLookup, p) == Add(Total(s.runtimeLookup, p), SumOfLengths(segs))
    decreases |segs|
  {
    if segs == [] {
    } else {
      var seg, rest := segs[0], segs[1..];
      var closed := [seg.enter] + seg.during + [seg.exit];
      OneSegment(s, p, seg.enter, seg.during, seg.exit);
      var s1 := Run(s, Events(seg));
      RunAppend(s, closed, seg.idle);
      RunUntouched(Run(s, closed), seg.idle, p);
      assert p in s1.runtimeLookup && p in s1.timeLookup;
      assert Total(s1.runtimeLookup, p) == Add(Total(s.runtimeLookup, p), Length(seg));
      if rest != [] {
        RunGrows(s1, [rest[0].enter] + rest[0].during);
      }
      Additivity(s1, p, rest);
      RunAppend(s, Events(seg), Flatten(rest));
      AddAssociative(Total(s.runtimeLookup, p), Length(seg), SumOfLengths(rest));
    }
  }
}
