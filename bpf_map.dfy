/**
 The abstract outcome of the two kernel helpers the handler calls on a BPF hash
 map: `bpf_map_lookup_elem` and `bpf_map_update_elem` with the `BPF_ANY` flag.
 Both maps of the program are declared with 4-byte keys and 4-byte values and a
 fixed `max_entries`; buckets, locking and element recycling are not modelled,
 only which keys the map holds and with what value.
 */
module BpfMap {
  import opened Word32

  /** A map key: the maps are declared with `u32` keys, and the program passes
      the process id of the event as the key. Keys are only compared, never
      computed with. */
  type Key = Word

  datatype Option<T> = None | Some(value: T)

  /** The kernel refuses to add a key to a full hash map with `-E2BIG`. */
  const E2BIG: int := 7

  /** What `bpf_map_update_elem` returns and the map it leaves behind. */
  datatype UpdateResult = UpdateResult(err: int, entries: map<Key, Word>)

  /** `bpf_map_lookup_elem`: a pointer to the stored value, or NULL. */
  function Lookup(m: map<Key, Word>, key: Key): (r: Option<Word>)
    // NULL exactly for a key the map does not hold
    ensures r.None? <==> key !in m
    // otherwise the stored value, and the map is only read
    ensures r.Some? ==> r.value == m[key]
  {
    if key in m then Some(m[key]) else None
  }

  /** An upsert of `key` can succeed: the key is already there (it is then
      overwritten in place) or the map is below its capacity. */
  predicate HasRoom(m: map<Key, Word>, key: Key, maxEntries: nat)
  {
    key in m || |m| < maxEntries
  }

  /** `m'` agrees with `m` on every key other than `key`: no such key is added,
      removed or given another value. */
  ghost predicate SameExcept(m: map<Key, Word>, m': map<Key, Word>, key: Key)
  {
    forall q :: q != key ==> (q in m <==> q in m') && (q in m ==> m[q] == m'[q])
  }

  /** `bpf_map_update_elem(map, &key, &value, BPF_ANY)` on a hash map holding at
      most `maxEntries` keys. */
  function UpdateElem(m: map<Key, Word>, key: Key, value: Word, maxEntries: nat): (r: UpdateResult)
    // it succeeds exactly when the key exists or the map has room
    ensures r.err == 0 <==> HasRoom(m, key, maxEntries)
    // a later lookup of the key finds the value written
    ensures r.err == 0 ==> Lookup(r.entries, key) == Some(value)
    // a failed update reports -E2BIG and leaves the map as it was
    ensures r.err != 0 ==> r.err == -E2BIG && r.entries == m
    // no other key is touched, whatever the outcome
    ensures SameExcept(m, r.entries, key)
    // nothing is removed, at most one key is added, and the capacity holds
    ensures m.Keys <= r.entries.Keys && |r.entries| <= |m| + 1
    ensures |m| <= maxEntries ==> |r.entries| <= maxEntries
  {
    if HasRoom(m, key, maxEntries) then UpdateResult(0, m[key := value])
    else UpdateResult(-E2BIG, m)
  }
}
