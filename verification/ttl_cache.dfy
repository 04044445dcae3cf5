/**
 * The proxy's in-memory cache (server/index.ts): a map from key to the payload and the
 * millisecond timestamp it was stored at. The clock is a parameter instead of `Date.now()`.
 */
module TtlCache {
  import opened Wrappers

  /** Five minutes, in milliseconds. */
  const CACHE_TTL: int := 5 * 60 * 1000

  datatype Entry<V> = Entry(data: V, timestamp: int)

  type Cache<V> = map<string, Entry<V>>

  /** The cache the server starts with. */
  function EmptyCache<V>(): (c: Cache<V>)
    ensures |c| == 0
  {
    map[]
  }

  /** An entry stored at `timestamp` is still served at time `now`. */
  predicate Fresh<V>(e: Entry<V>, now: int) {
    now - e.timestamp < CACHE_TTL
  }

  /** `getCached`: the stored payload when the key has an entry younger than the TTL. */
  function GetCached<V>(cache: Cache<V>, key: string, now: int): (r: Option<V>)
    ensures r.Some? <==> key in cache && now < cache[key].timestamp + 300000
    ensures r.Some? ==> r.value == cache[key].data
  {
    if key in cache && Fresh(cache[key], now) then Some(cache[key].data) else None
  }

  /** `setCache`: stores the payload under the key, stamped with `now`. */
  function SetCache<V>(cache: Cache<V>, key: string, data: V, now: int): (r: Cache<V>)
    ensures r.Keys == cache.Keys + {key}
    ensures r[key].data == data && r[key].timestamp == now
    ensures forall k :: k in cache && k != key ==> r[k] == cache[k]
  {
    cache[key := Entry(data, now)]
  }

  /** A stored payload is served back unchanged for exactly the TTL window after storing it. */
  lemma SetThenGet<V>(cache: Cache<V>, key: string, data: V, storedAt: int, now: int)
    ensures now - storedAt < CACHE_TTL ==> GetCached(SetCache(cache, key, data, storedAt), key, now) == Some(data)
    ensures now - storedAt >= CACHE_TTL ==> GetCached(SetCache(cache, key, data, storedAt), key, now) == None
  {
  }

  /** An entry whose age is exactly the TTL is already a miss; one millisecond earlier it is a hit. */
  lemma ExpiryBoundary<V>(cache: Cache<V>, key: string, data: V, storedAt: int)
    ensures GetCached(SetCache(cache, key, data, storedAt), key, storedAt + CACHE_TTL - 1) == Some(data)
    ensures GetCached(SetCache(cache, key, data, storedAt), key, storedAt + CACHE_TTL) == None
  {
    SetThenGet(cache, key, data, storedAt, storedAt + CACHE_TTL - 1);
    SetThenGet(cache, key, data, storedAt, storedAt + CACHE_TTL);
  }

  /** Storing under one key leaves what every other key serves unchanged. */
  lemma SetLeavesOtherKeys<V>(cache: Cache<V>, key: string, data: V, storedAt: int, other: string, now: int)
    requires other != key
    ensures GetCached(SetCache(cache, key, data, storedAt), other, now) == GetCached(cache, other, now)
  {
  }

  /** Storing again under a key replaces the earlier payload and restarts its TTL window. */
  lemma SetReplaces<V>(cache: Cache<V>, key: string, old1: V, t1: int, data: V, t2: int)
    ensures SetCache(SetCache(cache, key, old1, t1), key, data, t2) == SetCache(cache, key, data, t2)
  {
  }
}
