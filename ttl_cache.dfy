/** The time-to-live caches the lookups keep in front of their stores (ristretto, an ark
    in-memory store with a TTL, a key-value store with a TTL), as a map from key to value and
    expiry instant over an explicit clock in seconds. Each cache drops nothing it was given
    and never evicts early. */
module TtlCache {
  import opened Wrappers

  const Minute: int := 60

  /** Successful lookups are kept for 30 minutes. */
  const PositiveTtl: int := 30 * Minute

  /** Lookups that found nothing are kept for 90 minutes. */
  const NegativeTtl: int := 90 * Minute

  datatype Entry<V> = Entry(value: V, expires: int)

  type Cache<V> = map<string, Entry<V>>

  /** The value stored under `key`, while it has not expired. */
  function Lookup<V>(cache: Cache<V>, key: string, now: int): (r: Option<V>)
    ensures r.Some? <==> key in cache && now < cache[key].expires
    ensures r.Some? ==> r.value == cache[key].value
  {
    if key in cache && now < cache[key].expires then Some(cache[key].value) else None
  }

  /** SetWithTTL: store `value` under `key` for `ttl` seconds from `now`. */
  function Store<V>(cache: Cache<V>, key: string, value: V, ttl: int, now: int): (r: Cache<V>)
    ensures r.Keys == cache.Keys + {key}
    ensures forall k :: k in cache && k != key ==> r[k] == cache[k]
  {
    cache[key := Entry(value, now + ttl)]
  }

  /** What was stored is found until its time to live has run out, and not after. */
  lemma StoredThenFound<V>(cache: Cache<V>, key: string, value: V, ttl: int, now: int, later: int)
    requires now <= later
    ensures Lookup(Store(cache, key, value, ttl, now), key, later) ==
      if later < now + ttl then Some(value) else None
  {
  }

  /** Storing under one key leaves every other key's lookup as it was. */
  lemma StoreIsolated<V>(cache: Cache<V>, key: string, value: V, ttl: int, now: int, other: string, at: int)
    requires other != key
    ensures Lookup(Store(cache, key, value, ttl, now), other, at) == Lookup(cache, other, at)
  {
  }
}
