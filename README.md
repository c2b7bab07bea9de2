# Shop cache layer of hm-dianping, in Dafny

This project models the Redis cache that `ShopServiceImpl` puts in front of
the shop table, and proves what each of its operations does to Redis, to the
table and to its caller. The operations are:

- the lock primitive `tryLock` / `unLock` (set-if-absent with a 10-minute lease, unconditional delete);
- the pass-through lookup `queryWithPassThrough`, which caches the `" "` null marker for a missing shop;
- the mutex-guarded lookup `queryWithMutex`, which retries itself while the lock is held;
- the logical-expiry lookup `queryWithLoginExpire` and its writer `saveShop2Redis`;
- the write path `update`: update the table, then delete the cached key.

The run is sequential. One state holds Redis (`map<Key, Entry>`), the shop
table (`map<int, Shop>`), a count of `getById` queries, a log of the
`updateById` statements sent, and the queue of rebuild tasks submitted to the
executor.

Files and modules:

- `wrappers.dfy` (`Wrappers`): `Option`, standing in for a nullable Java reference.
- `text.dfy` (`Text`): Hutool's `StrUtil.isBlank` / `isNotBlank` and the null marker `" "`.
- `shops.dfy` (`Shops`): the `Shop` entity, `RedisData`, and the table operations `getById` and `updateById`.
- `json.dfy` (`Json`): the JSON text written to and read from Redis, with proved round trips.
- `redis.dfy` (`Redis`): keys (`Data(id)` for `CACHE_SHOP_KEY + id`, `Lock(id)` for `LOCK_SHOP_KEY + id`), TTL tags, entries.
- `shop_cache.dfy` (`ShopCache`): each operation as a function from the state before to the answer and the state after.
- `shop_cache_properties.dfy` (`ShopCacheProperties`): the properties of those functions.
- `shop_service_impl.dfy` (`ShopServiceImpl`): the class `ShopService`. Its fields are updated in place. Every method is proved equal to its `ShopCache` function.

Modelling choices:

- `LocalDateTime` is a whole number of seconds. `now` is a parameter of every operation that reads the clock.
- `CACHE_SHOP_TTL` and `CACHE_NULL_TTL` are defined in `RedisConstants`, which is not part of this model. They stay symbolic TTL tags. The lock lease is `Minutes(10)`, as written at line 162.
- The JSON codec is concrete, and `Decode(Encode(x)) == Some(x)` is proved rather than assumed. Decoding is strict: text that is not exactly a `Shop` or `RedisData` raises `JsonError`.
- The retry at line 132 has no cap. The model gives `queryWithMutex` a `fuel` number of stack frames. When the frames run out it raises `StackOverflow`. Each frame's `finally` still deletes the lock as the exception unwinds.
- The rebuild task of lines 87-95 is recorded as a pending action when it is submitted. `RunRebuild` runs the oldest pending action as one atomic step: `saveShop2Redis(id, 30)`, then `unLock`. So the lookup's own write at line 102 lands before the rebuild's write.

Where the code departs from the usual cache-aside recipe, the model follows the code. The source's comments name parts of that recipe: a mutex at line 44, whose comment says it solves cache penetration; logical expiry at line 59; the empty-string marker at line 117.

- The usual recipe gives up after a bounded number of lock retries. This code recurses with no cap (line 132), so in a sequential run it overflows the stack (`MutexContended`).
- The usual logical-expiry recipe serves the stale entry while the rebuild runs. This code, after trying the lock, reads the table synchronously at line 98 and replaces the entry with plain shop JSON under `CACHE_SHOP_TTL` at line 102. The next logical-expiry lookup of that key cannot decode it (`StaleHitLeavesUndecodableEntry`).
- The guard at line 69 is inverted (see Findings). As written, the logical-expiry lookup never answers from the cache.

## Model

| member | source | states |
|---|---|---|
| `ShopCache.TryLock` | src/main/java/com/hmdp/service/impl/ShopServiceImpl.java:161-164 | the lock is acquired exactly when its key was absent; the key is present afterwards, holding "1" with a 10-minute lease if acquired; a failed attempt changes nothing; no other key changes |
| `ShopCache.UnLock` | src/main/java/com/hmdp/service/impl/ShopServiceImpl.java:171-174 | the key is absent afterwards, whoever held it; every other key keeps its entry; no key is added |
| `ShopCacheProperties.TryLockThenUnLock` | src/main/java/com/hmdp/service/impl/ShopServiceImpl.java:161-174 | taking a free lock and releasing it restores the state exactly |
| `ShopServiceImpl.ShopService.TryLock` | src/main/java/com/hmdp/service/impl/ShopServiceImpl.java:161-164 | the object's answer and new fields are those of `ShopCache.TryLock` |
| `ShopServiceImpl.ShopService.UnLock` | src/main/java/com/hmdp/service/impl/ShopServiceImpl.java:171-174 | the object's new fields are those of `ShopCache.UnLock` |
| `ShopServiceImpl.ShopService.QueryWithPassThrough` | src/main/java/com/hmdp/service/impl/ShopServiceImpl.java:182-209 | the answer and new fields are those of `ShopCache.PassThrough`, whose properties follow |
| `ShopCacheProperties.PassThroughNotBlankHit` | src/main/java/com/hmdp/service/impl/ShopServiceImpl.java:185-191 | a non-blank cached value is decoded and answered; the state, the read count included, is unchanged |
| `ShopCacheProperties.PassThroughCachedShop` | src/main/java/com/hmdp/service/impl/ShopServiceImpl.java:185-191 | a cached shop's JSON answers that same shop with no table read and no write |
| `ShopCacheProperties.BlankHitAnswersNull` | src/main/java/com/hmdp/service/impl/ShopServiceImpl.java:185-195 | a present blank value (the null marker among them) makes both the pass-through and the mutex lookup (lines 117-120) answer null and change nothing |
| `ShopCacheProperties.PassThroughMiss` | src/main/java/com/hmdp/service/impl/ShopServiceImpl.java:196-208 | on an absent key the table is read once; a found shop is answered and cached as its JSON with CACHE_SHOP_TTL; a missing one answers null and leaves " " with CACHE_NULL_TTL (the null JSON of line 201 is overwritten); nothing else changes |
| `ShopCacheProperties.PenetrationDefence` | src/main/java/com/hmdp/service/impl/ShopServiceImpl.java:192-208 | for a shop absent from the table, the first lookup reads once and answers null; the second answers null and changes nothing |
| `ShopCacheProperties.LoadedShopIsServedFromCache` | src/main/java/com/hmdp/service/impl/ShopServiceImpl.java:185-201 | a shop loaded on a miss is answered by the next lookup from the cache, without a read |
| `ShopCacheProperties.NullMarkerIsNotAShop` | src/main/java/com/hmdp/service/impl/ShopServiceImpl.java:187-204 | the " " marker never decodes as a shop |
| `ShopServiceImpl.ShopService.QueryWithMutex` | src/main/java/com/hmdp/service/impl/ShopServiceImpl.java:107-153 | the recursion as a loop over frames with pending finally blocks; answer and new fields are those of `ShopCache.Mutex` with the same fuel |
| `ShopCacheProperties.MutexReleasesLock` | src/main/java/com/hmdp/service/impl/ShopServiceImpl.java:125-152 | once the lookup passes the cache read, the lock key is absent on return on every path (acquired, contended and retried, not found, stack exhausted); on a cache hit the state is unchanged |
| `ShopCacheProperties.MutexContended` | src/main/java/com/hmdp/service/impl/ShopServiceImpl.java:126-133 | with the lock held on a miss, every retry fails again: the call raises StackOverflow, the table is not read, and the only change is that the lock key is deleted |
| `ShopCacheProperties.MutexUncontendedIsPassThrough` | src/main/java/com/hmdp/service/impl/ShopServiceImpl.java:107-153 | when the key is present or the lock is free, the mutex lookup gives exactly the pass-through lookup's answer and final state |
| `ShopServiceImpl.ShopService.LogicalHit` | src/main/java/com/hmdp/service/impl/ShopServiceImpl.java:72-104 | the answer and new fields are those of `ShopCache.LogicalHit` |
| `ShopServiceImpl.ShopService.QueryWithLoginExpire` | src/main/java/com/hmdp/service/impl/ShopServiceImpl.java:64-105 | the code as written; the answer and new fields are those of `ShopCache.LoginExpire` |
| `ShopServiceImpl.ShopService.QueryWithLogicalExpire` | src/main/java/com/hmdp/service/impl/ShopServiceImpl.java:64-105 | the code with the guard of line 69 corrected; the answer and new fields are those of `ShopCache.LogicalExpire` |
| `ShopCacheProperties.LoginExpireNeverServesCache` | src/main/java/com/hmdp/service/impl/ShopServiceImpl.java:67-76 | as written: a non-blank value answers null, and a blank or absent one raises because it cannot be decoded; nothing changes either way |
| `ShopCacheProperties.LoginExpireGuardInverted` | src/main/java/com/hmdp/service/impl/ShopServiceImpl.java:69-81 | for every cached RedisData whose expiry is after now, the as-written lookup answers null and the corrected one answers its payload; neither changes anything |
| `ShopCacheProperties.LogicalExpireBlank` | src/main/java/com/hmdp/service/impl/ShopServiceImpl.java:67-71 | corrected lookup: a blank or absent value answers null and changes nothing |
| `ShopCacheProperties.LogicalExpireFresh` | src/main/java/com/hmdp/service/impl/ShopServiceImpl.java:73-81 | corrected lookup: an entry whose expiry is after now answers its payload, with no lock, no task, no read and no write |
| `ShopCacheProperties.LogicalExpireStale` | src/main/java/com/hmdp/service/impl/ShopServiceImpl.java:82-104 | corrected lookup, expired entry: if the lock is free it is taken and one rebuild task is queued; then the table is read once, its row (or null) is answered, and its plain JSON is cached with CACHE_SHOP_TTL; nothing else changes |
| `ShopCacheProperties.StaleHitLeavesUndecodableEntry` | src/main/java/com/hmdp/service/impl/ShopServiceImpl.java:98-102 | after an expired hit, the next logical-expiry lookup of the key raises JsonError |
| `ShopServiceImpl.ShopService.SaveShop2Redis` | src/main/java/com/hmdp/service/impl/ShopServiceImpl.java:211-220 | the new fields are those of `ShopCache.SaveShop2Redis` |
| `ShopCacheProperties.SaveShop2RedisWrites` | src/main/java/com/hmdp/service/impl/ShopServiceImpl.java:211-220 | one table read; the data key holds RedisData{data = the row or null, expireTime = now + seconds} with no TTL and decodes back to exactly that; no other key or field changes |
| `ShopCacheProperties.WarmedKeyIsFresh` | src/main/java/com/hmdp/service/impl/ShopServiceImpl.java:211-220 | after saveShop2Redis, every lookup before the logical expiry answers the saved row and changes nothing |
| `ShopServiceImpl.ShopService.RunRebuild` | src/main/java/com/hmdp/service/impl/ShopServiceImpl.java:87-95 | the new fields are those of `ShopCache.RunRebuild`: the oldest task runs saveShop2Redis and then unLock |
| `ShopCacheProperties.RunRebuildEffect` | src/main/java/com/hmdp/service/impl/ShopServiceImpl.java:87-95 | running the oldest task reads the table once, writes its data key as RedisData{data = the row or null, expireTime = now + its seconds} with no TTL, always deletes its lock key, removes it from the queue, and changes nothing else |
| `ShopCacheProperties.RunRebuildIdle` | src/main/java/com/hmdp/service/impl/ShopServiceImpl.java:87-95 | with no task submitted, the executor step changes nothing |
| `ShopCacheProperties.StaleHitThenRebuild` | src/main/java/com/hmdp/service/impl/ShopServiceImpl.java:84-95 | an expired hit that took the lock, followed by its task: the lock is gone, the queue is empty, and lookups before the new expiry answer the row from the cache |
| `ShopServiceImpl.ShopService.Update` | src/main/java/com/hmdp/service/impl/ShopServiceImpl.java:222-235 | the answer and new fields are those of `ShopCache.Update` |
| `ShopCacheProperties.UpdateEffect` | src/main/java/com/hmdp/service/impl/ShopServiceImpl.java:224-235 | the update statement is always sent first; a null id answers fail with Redis untouched; otherwise exactly the data key is deleted and ok(shop) is answered |
| `ShopCacheProperties.UpdateThenLookup` | src/main/java/com/hmdp/service/impl/ShopServiceImpl.java:224-235 | after an update with an id, the pass-through lookup answers the updated row, not the value cached before |
| `Shops.UpdateById` | src/main/java/com/hmdp/service/impl/ShopServiceImpl.java:226 | the table keeps its keys; the row with the shop's id gets the shop's non-null columns; every other row, and every row for a null id, is unchanged |
| `Shops.FindById` | src/main/java/com/hmdp/service/impl/ShopServiceImpl.java:197 | getById answers a row exactly when the id is in the table, and that row |
| `Json.DecodeShopOfEncode` | src/main/java/com/hmdp/service/impl/ShopServiceImpl.java:190 | a shop's JSON written by toJsonStr is read back by toBean as that same shop |
| `Json.DecodeRedisDataOfEncode` | src/main/java/com/hmdp/service/impl/ShopServiceImpl.java:73-76 | the RedisData JSON written by saveShop2Redis is read back as that same payload and expiry |
| `Json.BlankDoesNotDecode` | src/main/java/com/hmdp/service/impl/ShopServiceImpl.java:69-73 | blank text decodes neither as a shop nor as a RedisData |
| `Json.ShopJsonIsNotRedisData` | src/main/java/com/hmdp/service/impl/ShopServiceImpl.java:102 | the plain shop JSON (or null) written at line 102 is not a RedisData |
| `Json.EncodingsNotBlank` | src/main/java/com/hmdp/service/impl/ShopServiceImpl.java:201 | every JSON text the service writes passes the isNotBlank test |

## Left out

- Concurrency: callers are not interleaved. The rebuild task is queued when it is submitted and runs later as one atomic step (`RunRebuild`). The ten-thread pool and its scheduling are not modelled.
- Redis TTL and lease expiry: TTLs are recorded as tags on entries. No entry is ever evicted by time.
- Recursion depth of `queryWithMutex`: the model bounds it by `fuel` frames. An unbounded stack, where a sequential run under a held lock would never return, is not modelled.
- `Thread.sleep(50)` (line 131) and the `InterruptedException` handler (lines 146-147) are left out: there is no clock between retries and no interruption.
- The `RuntimeException` wrapper in the rebuild task (lines 90-91) is left out: `saveShop2Redis` cannot fail in this model.
- `queryById`, the `Result` wrapping beyond ok/fail, and Spring's `@Transactional` are not part of this model.
- Hutool's JSON (`JSONUtil`) and `StrUtil` are library code and are not part of this model. Their JSON layout is replaced by a fixed one, and decoding is strict.
- `DecodeOutcome` (used by `PassThrough` and `Mutex`, lines 115 and 190): the model raises `JsonError` on non-blank text that is not a Shop's JSON. Where that text is a JSON object of another shape, such as the RedisData JSON that `saveShop2Redis` writes, Hutool decodes it leniently and the source returns a Shop whose columns are all null. Text that is not a JSON object (the "null" written at line 102 for a missing shop, for one) raises in the source as it does here.
- `LogicalHit` (lines 73-78): foreign-shaped or absent text also raises `JsonError` here. The source gets an empty RedisData and fails with a NullPointerException at line 78. Both are exceptions; the model does not tell them apart.
- `toJsonStr(null)` is modelled as the text "null". Some library versions instead yield no string, which the Redis client would refuse. With such a version, the write at line 201 (and at line 140) raises, and the " " marker of line 204 (and 143) is never written. `PassThroughMiss`, `PenetrationDefence` and the not-found half of `Mutex` rest on treating that value as the text "null".
- `setIfAbsent` answering null (pipelined or transactional use, read as false by `BooleanUtil.isTrue`) is not modelled.
- The `Shop` entity has only its id and a name. The other columns behave like the name under `updateById`. An update that sets no column at all is not modelled as an SQL error.
- Java `long` overflow and the range of `LocalDateTime` are not modelled: integers are unbounded.
- Store or network failures are not modelled: no Redis or database call fails.
- `UserServiceImpl` (login codes, tokens, sessions) and `ShopTypeController` are not part of this model.

## Findings

| source | as written | input that shows it | evidently intended | confidence | as-written member | corrected member |
|---|---|---|---|---|---|---|
| src/main/java/com/hmdp/service/impl/ShopServiceImpl.java:69 | returns null when the cached value is NOT blank, and goes on to decode only blank or absent text | the shop key holding the RedisData JSON of shop x with expireTime after now: answers null instead of x; a blank or absent key raises instead of answering null | return null when the value is blank, decode and serve it otherwise | high; not executed | `ShopCacheProperties.LoginExpireNeverServesCache` (on `ShopServiceImpl.ShopService.QueryWithLoginExpire`) | `ShopServiceImpl.ShopService.QueryWithLogicalExpire`, proved by `ShopCacheProperties.LogicalExpireFresh` and `ShopCacheProperties.LoginExpireGuardInverted` |
