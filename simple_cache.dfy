/**
 * The response cache (lib/cache/simpleCache.ts): a key-to-entry map with a
 * time-to-live checked on read. The module-level map of the source is the
 * field of a Cache object here, and each operation takes the clock reading
 * `now` (milliseconds) that the source gets from Date.now().
 */
module SimpleCache {
  import opened Js

  const DEFAULT_TTL_MS: int := 15000

  datatype CacheEntry<T> = CacheEntry(data: T, timestamp: int)

  /** What getCache returns on a hit. */
  datatype CacheHit<T> = CacheHit(data: T, ageMs: int)

  /** An entry is still served when its age does not exceed the TTL. */
  predicate IsLive<T>(entries: map<string, CacheEntry<T>>, key: string, ttlMs: int, now: int)
  {
    key in entries && now - entries[key].timestamp <= ttlMs
  }

  /** The outcome of a read: what it returns and the map it leaves behind. */
  datatype Lookup<T> = Lookup(result: Option<CacheHit<T>>, entries: map<string, CacheEntry<T>>)

  /** getCache as a function of the map: a stale entry is deleted as it is read. */
  function Get<T>(entries: map<string, CacheEntry<T>>, key: string, ttlMs: int, now: int): (r: Lookup<T>)
    ensures key !in entries ==> r == Lookup(None, entries)
    ensures key in entries && !IsLive(entries, key, ttlMs, now) ==>
      r.result.None? && r.entries == entries - {key}
    ensures IsLive(entries, key, ttlMs, now) ==>
      r.result == Some(CacheHit(entries[key].data, now - entries[key].timestamp)) && r.entries == entries
  {
    if key !in entries then Lookup(None, entries)
    else
      var ageMs := now - entries[key].timestamp;
      if ageMs > ttlMs then Lookup(None, entries - {key})
      else Lookup(Some(CacheHit(entries[key].data, ageMs)), entries)
  }

  /** A read at the moment of a write returns what was written, with age 0. */
  lemma SetThenGet<T>(entries: map<string, CacheEntry<T>>, key: string, data: T, ttlMs: int, now: int)
    requires ttlMs >= 0
    ensures Get(entries[key := CacheEntry(data, now)], key, ttlMs, now) ==
            Lookup(Some(CacheHit(data, 0)), entries[key := CacheEntry(data, now)])
  {
  }

  /** A write overwrites the data and restarts the age from the time of that write. */
  lemma OverwriteRestartsAge<T>(entries: map<string, CacheEntry<T>>, key: string, first: T, second: T,
                                t1: int, t2: int, ttlMs: int, now: int)
    requires t2 <= now <= t2 + ttlMs
    ensures Get(entries[key := CacheEntry(first, t1)][key := CacheEntry(second, t2)], key, ttlMs, now).result ==
            Some(CacheHit(second, now - t2))
  {
  }

  /** Once the TTL has elapsed the entry is gone, and no other key is touched. */
  lemma ExpiryEvictsOnlyThatKey<T>(entries: map<string, CacheEntry<T>>, key: string, ttlMs: int, now: int, other: string)
    requires key in entries && now - entries[key].timestamp > ttlMs
    requires other != key
    ensures key !in Get(entries, key, ttlMs, now).entries
    ensures other in entries ==> other in Get(entries, key, ttlMs, now).entries &&
                                 Get(entries, key, ttlMs, now).entries[other] == entries[other]
    ensures other !in entries ==> other !in Get(entries, key, ttlMs, now).entries
  {
  }

  class Cache<T> {
    var entries: map<string, CacheEntry<T>>

    constructor ()
      ensures entries == map[]
    {
      entries := map[];
    }

    /** getCache(key, ttlMs) at time now. */
    method GetCache(key: string, ttlMs: int, now: int) returns (r: Option<CacheHit<T>>)
      modifies this
      ensures Lookup(r, entries) == Get(old(entries), key, ttlMs, now)
    {
      if key !in entries {
        return None;
      }
      var entry := entries[key];
      var ageMs := now - entry.timestamp;
      if ageMs > ttlMs {
        entries := entries - {key};
        return None;
      }
      return Some(CacheHit(entry.data, ageMs));
    }

    /** setCache(key, data) at time now. */
    method SetCache(key: string, data: T, now: int)
      modifies this
      ensures entries == old(entries)[key := CacheEntry(data, now)]
    {
      entries := entries[key := CacheEntry(data, now)];
    }

    /** clearCache(key?): a missing or empty key (both falsy) clears everything. */
    method ClearCache(key: Option<string>)
      modifies this
      ensures key.Some? && key.value != "" ==> entries == old(entries) - {key.value}
      ensures key.None? || key.value == "" ==> entries == map[]
    {
      if key.Some? && key.value != "" {
        entries := entries - {key.value};
      } else {
        entries := map[];
      }
    }
  }
}
