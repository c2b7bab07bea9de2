/**
 * The part of Redis the shop service uses, through StringRedisTemplate:
 * string values under keys, each written with or without a time to live.
 */
module Redis {
  import opened Wrappers

  /**
   * A shop's keys: CACHE_SHOP_KEY + id holds its cached JSON and
   * LOCK_SHOP_KEY + id its rebuild lock. The two prefixes differ, so the
   * two namespaces never collide.
   */
  datatype Key = Data(id: int) | Lock(id: int)

  /**
   * The time to live a value was written with. CACHE_SHOP_TTL and
   * CACHE_NULL_TTL are constants of RedisConstants, counted in minutes;
   * the lock's lease is a literal number of minutes.
   */
  datatype Ttl = CacheShopTtl | CacheNullTtl | Minutes(n: nat)

  /** A stored string and the TTL it was written with (None: no TTL). */
  datatype Entry = Entry(value: string, ttl: Option<Ttl>)

  type Store = map<Key, Entry>

  /** opsForValue().get: the value under k, or null. */
  function Get(store: Store, k: Key): (r: Option<string>)
    ensures r.Some? <==> k in store
    ensures r.Some? ==> r.value == store[k].value
  {
    if k in store then Some(store[k].value) else None
  }
}
