/** The time-to-live cache: one `{value, expire}` entry per key, evicted lazily
    when a read finds it stale. Time is an explicit `now` in milliseconds. */
module TtlCache {
  import opened Wrappers

  datatype Entry<V> = Entry(value: V, expire: int)

  /** `setCache(key, value, ttlSeconds)` at `now` on the map `entries`: `key`
      now holds `value` until `now + ttlSeconds * 1000`, whatever it held
      before, and no other key changes. */
  function Insert<V>(entries: map<string, Entry<V>>, key: string, value: V, ttlSeconds: int, now: int)
    : (m: map<string, Entry<V>>)
    ensures m.Keys == entries.Keys + {key}
    ensures m[key] == Entry(value, now + ttlSeconds * 1000)
    ensures forall k :: k in entries && k != key ==> m[k] == entries[k]
  {
    entries[key := Entry(value, now + ttlSeconds * 1000)]
  }

  /** `getCache(key)` at `now` on the map `entries`: the new map and the value
      read. A missing key reads as absent and changes nothing; a live entry
      (`now <= expire`) reads as its value and changes nothing; a stale one
      reads as absent and is removed, leaving every other key as it was. */
  function Lookup<V(==)>(entries: map<string, Entry<V>>, key: string, now: int)
    : (r: (map<string, Entry<V>>, Option<V>))
    ensures key !in entries ==> r == (entries, None)
    ensures key in entries && now <= entries[key].expire ==> r == (entries, Some(entries[key].value))
    ensures key in entries && now > entries[key].expire ==> r.1 == None && r.0 == entries - {key}
  {
    if key !in entries then (entries, None)
    else if now > entries[key].expire then (entries - {key}, None)
    else (entries, Some(entries[key].value))
  }

  /** A value set at `setAt` with `ttlSeconds` reads back unchanged at any
      time up to and including its expiry, and the read leaves the map as the
      write made it; one millisecond later it reads as absent and is gone. */
  lemma ReadBack<V>(entries: map<string, Entry<V>>, key: string, value: V, ttlSeconds: int,
                    setAt: int, now: int)
    ensures var written := Insert(entries, key, value, ttlSeconds, setAt);
      && (now <= setAt + ttlSeconds * 1000 ==> Lookup(written, key, now) == (written, Some(value)))
      && (now > setAt + ttlSeconds * 1000 ==> Lookup(written, key, now) == (written - {key}, None))
  {
  }

  /** The reads of one key at the given times, in order. */
  function Reads<V(==)>(entries: map<string, Entry<V>>, key: string, times: seq<int>)
    : (r: (map<string, Entry<V>>, seq<Option<V>>))
    ensures |r.1| == |times|
    decreases |times|
  {
    if times == [] then (entries, [])
    else
      var (next, v) := Lookup(entries, key, times[0]);
      var (last, vs) := Reads(next, key, times[1..]);
      (last, [v] + vs)
  }

  /** Once a read has found `key` stale, every later read of it, at any time,
      is absent and changes nothing, until the key is set again. */
  lemma {:induction false} EvictedStaysAbsent<V>(entries: map<string, Entry<V>>, key: string,
                                                  now: int, later: seq<int>)
    requires key in entries && now > entries[key].expire
    ensures var (evicted, _) := Lookup(entries, key, now);
      var (final, got) := Reads(evicted, key, later);
      final == evicted && forall i :: 0 <= i < |got| ==> got[i] == None
  {
    var (evicted, _) := Lookup(entries, key, now);
    AbsentKeyReadsAbsent(evicted, key, later);
  }

  /** Reads of a key that is not in the map are all absent and leave the map
      unchanged. */
  lemma {:induction false} AbsentKeyReadsAbsent<V>(entries: map<string, Entry<V>>, key: string,
                                                    times: seq<int>)
    requires key !in entries
    ensures var (final, got) := Reads(entries, key, times);
      final == entries && forall i :: 0 <= i < |got| ==> got[i] == None
    decreases |times|
  {
    if times != [] {
      assert Lookup(entries, key, times[0]) == (entries, None);
      AbsentKeyReadsAbsent(entries, key, times[1..]);
    }
  }

  /** The cache state shared by every tool in the process. */
  class Cache<V(==)> {
    var entries: map<string, Entry<V>>

    constructor ()
      ensures entries == map[]
    {
      entries := map[];
    }

    /** `setCache(key, value, ttlSeconds)` at `now`. */
    method Set(key: string, value: V, ttlSeconds: int, now: int)
      modifies this
      ensures entries == Insert(old(entries), key, value, ttlSeconds, now)
    {
      entries := entries[key := Entry(value, now + ttlSeconds * 1000)];
    }

    /** `getCache(key)` at `now`: reads the entry and drops it when stale. */
    method Get(key: string, now: int) returns (r: Option<V>)
      modifies this
      ensures (entries, r) == Lookup(old(entries), key, now)
    {
      if key !in entries {
        return None;
      }
      var data := entries[key];
      if now > data.expire {
        entries := entries - {key};
        return None;
      }
      r := Some(data.value);
    }
  }
}
