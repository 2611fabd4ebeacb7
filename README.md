# Per-process CPU runtime accounting on scheduler switches

This project models the eBPF program `src/main.bpf.c`. The program is attached to
the `sched/sched_switch` tracepoint and keeps two per-CPU hash maps, each with 10240
entries at most:

- `time_lookup` maps a pid to the timestamp at which it was last switched in.
- `runtime_lookup` maps a pid to the run time accumulated so far, in nanoseconds.

On every context switch the handler `context_monitor` does the following:

- It reads the clock and truncates it to a C `int`.
- If the outgoing pid has a recorded start, it adds `ts - start` to that pid's
  total, using `update_runtime`.
- In every case it records `ts` as the start of the incoming pid.

The model is built in six modules:

- `Word32` (word32.dfy) defines 32-bit words. Every value the program computes with
  is a C `int` stored in a `u32` map slot. Such a value is modelled as its `u32`
  bit pattern, an integer in `[0, 2^32)`. Addition and subtraction are written
  out as the exact result reduced mod 2^32, which is what two's-complement `int`
  arithmetic and `u32` arithmetic both produce. `Signed` gives the C `int` that a
  word stands for.
- `BpfMap` (bpf_map.dfy) covers the two kernel map helpers the program calls,
  stated as values:
  - `Lookup` models `bpf_map_lookup_elem`. It returns a value, or `None` where
    the helper returns NULL.
  - `UpdateElem` models `bpf_map_update_elem` with `BPF_ANY` on a map bounded
    by `max_entries`.
- `Accounting` (accounting.dfy) is the specification of one CPU as a state
  machine over the contents of both maps:
  - `AddToRuntime` is `update_runtime`.
  - `Switch` is `context_monitor` on one event.
  - `Run` handles a sequence of events in order.
- `Monitor` (monitor.dfy) is the program as imperative code. The class
  `Partition` holds one CPU's two maps as fields. Its methods `UpdateRuntime` and
  `ContextMonitor` update those fields in place, in the same steps as the C code.
  Each method is proved to produce the state its `Accounting` function describes.
- `Segments` (segments.dfy) is about run segments. In a segment a pid is switched
  in and later switched out again. The lemmas allow any events that do not
  name the pid between the switch-in and the switch-out, and between segments.
  Over one or many segments the pid's total grows by the sum of the segment
  lengths, and by nothing else.
- `Cpus` (cpus.dfy) covers several CPUs, each with its own maps. The lemma there
  proves that each CPU ends with what its own events alone produce.

The clock `bpf_ktime_get_ns` is an input: the handler receives its value as the
`now` parameter. A failed runtime upsert is invisible to the handler. This follows
the code: it ignores the return value of `update_runtime` (line 70), so the
timestamp write at line 74 always happens. The model has no ÷1000 scaling step,
because this file has none. Deltas and totals are raw nanoseconds, mod 2^32. Raw
nanoseconds mod 2^32 also mean a total is not monotone: it wraps once it passes
2^32.

## Model

| member | source | states |
|---|---|---|
| `BpfMap.UpdateElem` | src/main.bpf.c:25-37 | An update succeeds exactly when the key is already present or the map holds fewer than `max_entries` keys. After success a lookup of the key returns the written value. A failure returns `-E2BIG` and leaves the map as it was. No other key is added, removed or changed. No key is lost, at most one is added, and the capacity bound is preserved. |
| `BpfMap.Lookup` | src/main.bpf.c:48 | `bpf_map_lookup_elem` returns NULL exactly when the map does not hold the key. Otherwise it returns the stored value and leaves the map as it is. |
| `Accounting.Truncate` | src/main.bpf.c:59 | Storing the 64-bit clock in a C `int` keeps it mod 2^32: `ts` differs from the clock by a whole number of 2^32 ns, and a clock reading below 2^32 is kept as it is. Its consequences for segment lengths are `Accounting.ShortSegmentExact` and `Accounting.LongSegmentWraps`. |
| `Accounting.AddToRuntime` | src/main.bpf.c:44-55 | An existing total becomes `old + delta` (mod 2^32). A missing total becomes `delta`, so absent counts as 0. It fails only for a new pid when the map is full, and then changes nothing. Other pids' totals are unchanged, and the 10240 bound is kept. |
| `Accounting.Switch` | src/main.bpf.c:57-76 | If the outgoing pid has no start, the totals are unchanged. If it has a start `old`, its total grows by exactly `ts - old` (mod 2^32), unless its total is new and the map is full. No other total changes. The incoming pid's start becomes `ts` whenever the time map has room for it, whatever happened to the runtime update. Apart from that entry, `time_lookup` is unchanged: the lookup of the outgoing pid removes nothing. Both bounds are kept. |
| `Accounting.Run` | src/main.bpf.c:25-37 | Neither map ever holds more than 10240 keys, over any sequence of switches. |
| `Accounting.RunGrows` | src/main.bpf.c:65-74 | The handler never removes a key from either map. Each switch adds at most one key to each map. |
| `Accounting.SwitchToSelf` | src/main.bpf.c:62-74 | The outgoing and incoming pid coincide, and the pid has a start. Then one call closes the segment and reopens it with start `ts`. Closing adds `ts - old` to the pid's total, where a missing total counts as 0. This holds whenever the runtime map can take that total, including the first self-switch of a pid that has no total yet. |
| `Accounting.ShortSegmentExact` | src/main.bpf.c:59-68 | For a segment shorter than 2^31 ns, the delta computed from the two truncated timestamps equals the true length, as a non-negative C `int`. |
| `Accounting.LongSegmentWraps` | src/main.bpf.c:59-68 | A 5-second segment, whatever time it starts at, is charged 705032704 ns. This is because `ts` keeps only 32 bits of the clock. |
| `Monitor.Partition.UpdateRuntime` | src/main.bpf.c:44-55 | Changes `runtime_lookup` as `AddToRuntime` describes and returns its status: 0 exactly when there is room. On success the new map is `old[pid := Total(old, pid) + delta]`. On failure the map is unchanged. `time_lookup` is untouched. |
| `Monitor.Partition.ContextMonitor` | src/main.bpf.c:57-76 | Leaves both maps as `Switch` describes and always returns 0. If the outgoing pid has no start, `runtime_lookup` is unchanged. If it has a start and there is room, the outgoing pid's total is updated. `time_lookup` becomes `old[next := ts]` if there is room, and otherwise stays as it was. |
| `Monitor.TwoSwitches` | src/main.bpf.c:57-76 | Two switches on a fresh CPU: pid 42 switched in at 1000 and out, for pid 43, at 1500. Afterwards the total of pid 42 is 500 and the start of pid 43 is 1500. |
| `Segments.RunUntouched` | src/main.bpf.c:65-74 | Switches that neither switch pid `p` in nor out leave both of `p`'s entries exactly as they were. |
| `Segments.OneSegment` | src/main.bpf.c:65-74 | Pid `p` is switched in at `t0`, provided the time map has room for `p`'s start at `t0`. No other event switches it in or out. It is switched out at `t1`. Then `p`'s total grows by exactly `t1 - t0` (mod 2^32). If the runtime map cannot take `p`'s new total, the total is unchanged instead. |
| `Segments.Additivity` | src/main.bpf.c:65-74 | Take any number of segments of `p`, interleaved with any events of other pids on the same CPU, in a trace of any length. Then `p`'s total grows by the sum of the segment lengths (mod 2^32). This needs two things: the time map has room for `p`'s start at its first switch-in, and the runtime map has room for `p`'s total at its first switch-out. After that first switch-out `p` keeps its entries, so every later segment is charged. |
| `Cpus.Deliver` | src/main.bpf.c:25-37 | A switch on one CPU changes only that CPU's maps, exactly as `Switch` does. |
| `Cpus.PartitionsIndependent` | src/main.bpf.c:25-37 | After any interleaving of events on several CPUs, each CPU's maps are what its own events produce, run in order from its own initial maps. |

## Left out

- Clock: `bpf_ktime_get_ns` (line 59) is an input of the handler, the `now`
  parameter, rather than a call.
- Truncation to `int`: the model keeps the low 32 bits of the clock, as the
  compiled program does. For out-of-range values C leaves this conversion
  implementation-defined.
- Signed overflow: signed overflow in `ts - old` and `time_delta += *current` is
  undefined in C. The model takes the two's-complement wrap-around that the
  compiled code performs.
- Debug output: `bpf_get_smp_processor_id` and `bpf_printk` (lines 60 and 69).
  Their output is a trace message only, and no state depends on it.
- Unused context fields: the fields of `sched_switch_s` other than `prev_pid`
  and `next_pid` (lines 6-23). The program never reads them.
- Loader metadata: the `LICENSE` string, the `SEC` annotations and the includes.
  They configure loading and have no behaviour.
- Map internals: buckets, locking and element recycling of the kernel's hash
  map. Only the outcome of an update is modelled: success or `-E2BIG`, and the
  resulting contents.
- Shared per-CPU keys: in the kernel, a per-CPU hash map has one set of keys for
  all CPUs, and its 10240-entry capacity counts that shared set. Only the
  values are per CPU. The model gives every CPU its own set of keys and its own
  capacity. One consequence is not captured. If a pid's key was created on
  another CPU, a lookup on this CPU finds that key with this CPU's own value
  slot.
- Parallel execution: the CPUs really run in parallel. `Cpus` interleaves their
  events into one sequence, and the partitions are disjoint.
- Divide-by-1000 and abort-on-failure: this file has neither a ÷1000
  fixed-point divider nor an abort when the runtime update fails, so the
  model has neither.
