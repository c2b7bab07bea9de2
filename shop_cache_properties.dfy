/**
 * What the shop cache layer guarantees, and where it departs from the usual
 * cache-aside recipe, stated over the functions of ShopCache.
 */
module ShopCacheProperties {
  import opened Wrappers
  import opened Text
  import opened Shops
  import opened Json
  import opened Redis
  import opened ShopCache

  // ---- the lock -----------------------------------------------------------

  /** Taking a free lock and releasing it gives back the state before. */
  lemma TryLockThenUnLock(s: State, k: Key)
    requires k !in s.store
    ensures TryLock(s, k).acquired
    ensures UnLock(TryLock(s, k).state, k) == s
  {
    assert UnLock(TryLock(s, k).state, k).store == s.store;
  }

  // ---- queryWithPassThrough -----------------------------------------------

  /** A non-blank cached value is decoded and answered; nothing is read or written. */
  lemma PassThroughNotBlankHit(s: State, id: int)
    requires IsNotBlank(Get(s.store, Data(id)))
    ensures PassThrough(s, id) == Step(DecodeOutcome(s.store[Data(id)].value), s)
  {
  }

  /** A cached shop's JSON answers that very shop, without a database read. */
  lemma PassThroughCachedShop(s: State, id: int, x: Shop)
    requires Data(id) in s.store && s.store[Data(id)].value == EncodeShop(x)
    ensures PassThrough(s, id) == Step(Returned(Some(x)), s)
  {
    EncodingsNotBlank(Some(x), RedisData(None, 0));
    DecodeShopOfEncode(x);
  }

  /**
   * A cached blank string, the null marker among them, answers null from
   * either lookup, without a database read and without writing.
   */
  lemma BlankHitAnswersNull(s: State, id: int, fuel: nat)
    requires Data(id) in s.store && IsBlank(s.store[Data(id)].value)
    ensures PassThrough(s, id) == Step(Returned(None), s)
    ensures Mutex(s, id, fuel) == Step(Returned(None), s)
  {
  }

  /**
   * On a miss the table is read once. A found shop is cached as its JSON with
   * CACHE_SHOP_TTL; a missing one leaves the null marker with CACHE_NULL_TTL
   * (the JSON of null written at line 201 is overwritten at line 204).
   */
  lemma PassThroughMiss(s: State, id: int)
    requires Data(id) !in s.store
    ensures PassThrough(s, id).result == Returned(FindById(s.db, id))
    ensures PassThrough(s, id).state ==
              s.(store := s.store[Data(id) := if id in s.db
                                               then Entry(EncodeShop(s.db[id]), Some(CacheShopTtl))
                                               else Entry(NullMarker, Some(CacheNullTtl))],
                 dbReads := s.dbReads + 1)
  {
  }

  /**
   * Penetration defence: for a shop that does not exist, the first lookup
   * reads the table once and the second reads nothing and changes nothing.
   */
  lemma {:induction false} PenetrationDefence(s: State, id: int)
    requires Data(id) !in s.store && id !in s.db
    ensures PassThrough(s, id).result == Returned(None)
    ensures PassThrough(s, id).state.dbReads == s.dbReads + 1
    ensures PassThrough(PassThrough(s, id).state, id) == Step(Returned(None), PassThrough(s, id).state)
  {
    PassThroughMiss(s, id);
    var s1 := PassThrough(s, id).state;
    NullMarkerIsBlank();
    BlankHitAnswersNull(s1, id, 0);
  }

  /** A shop loaded on a miss is answered from the cache on the next lookup. */
  lemma {:induction false} LoadedShopIsServedFromCache(s: State, id: int)
    requires Data(id) !in s.store && id in s.db
    ensures PassThrough(PassThrough(s, id).state, id) ==
              Step(Returned(Some(s.db[id])), PassThrough(s, id).state)
  {
    PassThroughMiss(s, id);
    PassThroughCachedShop(PassThrough(s, id).state, id, s.db[id]);
  }

  /** The null marker never decodes as a shop. */
  lemma NullMarkerIsNotAShop()
    ensures DecodeShop(NullMarker) == None
  {
    NullMarkerIsBlank();
    BlankDoesNotDecode(NullMarker);
  }

  // ---- queryWithMutex -----------------------------------------------------

  /**
   * Whenever the lookup gets past the cache read (the key was absent) the
   * lock key is absent on return, however many retries it made and whether
   * it returned or raised; on a cache hit nothing changes.
   */
  lemma {:induction false} MutexReleasesLock(s: State, id: int, fuel: nat)
    ensures Data(id) !in s.store ==> Lock(id) !in Mutex(s, id, fuel).state.store
    ensures Data(id) in s.store ==> Mutex(s, id, fuel).state == s
    decreases fuel
  {
    if Data(id) !in s.store && Lock(id) in s.store && fuel > 0 {
      MutexReleasesLock(TryLock(s, Lock(id)).state, id, fuel - 1);
    }
  }

  /**
   * A lock held when the key is absent is never released by anyone else in a
   * sequential run, so every retry fails again until the stack is exhausted;
   * the unwinding finally blocks delete the lock, and the table is not read.
   */
  lemma {:induction false} MutexContended(s: State, id: int, fuel: nat)
    requires Data(id) !in s.store && Lock(id) in s.store
    ensures Mutex(s, id, fuel) == Step(Thrown(StackOverflow), UnLock(s, Lock(id)))
    decreases fuel
  {
    if fuel > 0 {
      MutexContended(s, id, fuel - 1);
      assert UnLock(UnLock(s, Lock(id)), Lock(id)) == UnLock(s, Lock(id));
    }
  }

  /**
   * Unless the lock is already held on a miss, the mutex lookup ends exactly
   * as the pass-through lookup: same answer, same cache writes, one read,
   * and the lock it took is gone again.
   */
  lemma {:induction false} MutexUncontendedIsPassThrough(s: State, id: int, fuel: nat)
    requires Data(id) in s.store || Lock(id) !in s.store
    ensures Mutex(s, id, fuel) == PassThrough(s, id)
  {
    if Data(id) !in s.store {
      var m, p := Mutex(s, id, fuel), PassThrough(s, id);
      PassThroughMiss(s, id);
      assert m.state.store == p.state.store;
    }
  }

  // ---- queryWithLoginExpire as written --------------------------------------

  /**
   * As written, the lookup never serves the cache: a non-blank value answers
   * null, and a blank or absent one cannot be decoded. Nothing changes.
   */
  lemma {:induction false} LoginExpireNeverServesCache(s: State, id: int, now: int)
    ensures LoginExpire(s, id, now) ==
              Step(if IsNotBlank(Get(s.store, Data(id))) then Returned(None) else Thrown(JsonError), s)
  {
    var json := Get(s.store, Data(id));
    if !IsNotBlank(json) && json.Some? {
      BlankDoesNotDecode(json.value);
    }
  }

  /**
   * The inverted guard: a fresh logical-expiry entry is answered as null by
   * the code as written, and as its payload once the guard is the right way
   * round. Neither changes anything.
   */
  lemma {:induction false} LoginExpireGuardInverted(s: State, id: int, now: int, rd: RedisData)
    requires Get(s.store, Data(id)) == Some(EncodeRedisData(rd))
    requires rd.expireTime > now
    ensures LoginExpire(s, id, now) == Step(Returned(None), s)
    ensures LogicalExpire(s, id, now) == Step(Returned(rd.data), s)
  {
    EncodingsNotBlank(None, rd);
    DecodeRedisDataOfEncode(rd);
  }

  // ---- the corrected logical-expiry lookup and saveShop2Redis ---------------

  /** A blank or absent value answers null and changes nothing. */
  lemma LogicalExpireBlank(s: State, id: int, now: int)
    requires !IsNotBlank(Get(s.store, Data(id)))
    ensures LogicalExpire(s, id, now) == Step(Returned(None), s)
  {
  }

  /** A fresh entry answers its payload: no lock, no task, no read, no write. */
  lemma {:induction false} LogicalExpireFresh(s: State, id: int, now: int, rd: RedisData)
    requires Get(s.store, Data(id)) == Some(EncodeRedisData(rd))
    requires rd.expireTime > now
    ensures LogicalExpire(s, id, now) == Step(Returned(rd.data), s)
  {
    EncodingsNotBlank(None, rd);
    DecodeRedisDataOfEncode(rd);
  }

  /**
   * A stale entry takes the lock if it is free and then submits one rebuild
   * task; either way the shop is read from the table, cached as plain JSON
   * under CACHE_SHOP_TTL and returned.
   */
  lemma {:induction false} LogicalExpireStale(s: State, id: int, now: int, rd: RedisData)
    requires Get(s.store, Data(id)) == Some(EncodeRedisData(rd))
    requires rd.expireTime <= now
    ensures LogicalExpire(s, id, now).result == Returned(FindById(s.db, id))
    ensures LogicalExpire(s, id, now).state ==
              s.(store := (if Lock(id) in s.store then s.store
                           else s.store[Lock(id) := Entry(LockValue, Some(LockLease))])
                          [Data(id) := Entry(EncodeOptShop(FindById(s.db, id)), Some(CacheShopTtl))],
                 dbReads := s.dbReads + 1,
                 pending := if Lock(id) in s.store then s.pending
                            else s.pending + [Rebuild(id, RebuildSeconds, Lock(id))])
  {
    EncodingsNotBlank(None, rd);
    DecodeRedisDataOfEncode(rd);
  }

  /**
   * After a stale hit the key holds the plain shop JSON (or null), which is
   * not a RedisData: the next logical-expiry lookup raises until the key is
   * written again.
   */
  lemma {:induction false} StaleHitLeavesUndecodableEntry(s: State, id: int, now: int, later: int, rd: RedisData)
    requires Get(s.store, Data(id)) == Some(EncodeRedisData(rd))
    requires rd.expireTime <= now
    ensures LogicalExpire(LogicalExpire(s, id, now).state, id, later).result == Thrown(JsonError)
  {
    LogicalExpireStale(s, id, now, rd);
    var o := FindById(s.db, id);
    EncodingsNotBlank(o, rd);
    ShopJsonIsNotRedisData(o);
  }

  /** saveShop2Redis: one read; the data key holds the wrapped row with no TTL. */
  lemma {:induction false} SaveShop2RedisWrites(s: State, id: int, expireSeconds: int, now: int)
    ensures SaveShop2Redis(s, id, expireSeconds, now) ==
              s.(store := s.store[Data(id) := Entry(EncodeRedisData(RedisData(FindById(s.db, id), now + expireSeconds)), None)],
                 dbReads := s.dbReads + 1)
    ensures DecodeRedisData(Get(SaveShop2Redis(s, id, expireSeconds, now).store, Data(id))) ==
              Some(RedisData(FindById(s.db, id), now + expireSeconds))
  {
    DecodeRedisDataOfEncode(RedisData(FindById(s.db, id), now + expireSeconds));
  }

  /** A pre-warmed key answers the row it was warmed with until its logical expiry. */
  lemma {:induction false} WarmedKeyIsFresh(s: State, id: int, expireSeconds: int, now: int, t: int)
    requires t < now + expireSeconds
    ensures var w := SaveShop2Redis(s, id, expireSeconds, now);
            LogicalExpire(w, id, t) == Step(Returned(FindById(s.db, id)), w)
  {
    var w := SaveShop2Redis(s, id, expireSeconds, now);
    SaveShop2RedisWrites(s, id, expireSeconds, now);
    LogicalExpireFresh(w, id, t, RedisData(FindById(s.db, id), now + expireSeconds));
  }

  /**
   * Running the oldest submitted task: one read, its data key rewritten with
   * the row wrapped in a fresh RedisData and no TTL, its lock key deleted,
   * the task leaves the queue, and nothing else changes.
   */
  lemma RunRebuildEffect(s: State, now: int)
    requires s.pending != []
    ensures var t := s.pending[0];
            RunRebuild(s, now) ==
              s.(store := s.store[Data(t.id) := Entry(EncodeRedisData(RedisData(FindById(s.db, t.id), now + t.expireSeconds)), None)]
                          - {t.lockKey},
                 dbReads := s.dbReads + 1,
                 pending := s.pending[1..])
    ensures s.pending[0].lockKey !in RunRebuild(s, now).store
  {
  }

  /** With nothing submitted, the executor has nothing to run. */
  lemma RunRebuildIdle(s: State, now: int)
    requires s.pending == []
    ensures RunRebuild(s, now) == s
  {
  }

  /**
   * A stale hit that took the lock, followed by its rebuild task: the lock is
   * gone, the key holds a fresh RedisData that replaces the plain JSON the
   * hit wrote, and lookups before the new expiry answer the row.
   */
  lemma {:induction false} StaleHitThenRebuild(s: State, id: int, now: int, later: int, t: int, rd: RedisData)
    requires Get(s.store, Data(id)) == Some(EncodeRedisData(rd))
    requires rd.expireTime <= now
    requires Lock(id) !in s.store && s.pending == []
    requires t < later + RebuildSeconds
    ensures var s2 := RunRebuild(LogicalExpire(s, id, now).state, later);
            Lock(id) !in s2.store && s2.pending == [] &&
            LogicalExpire(s2, id, t) == Step(Returned(FindById(s.db, id)), s2)
  {
    LogicalExpireStale(s, id, now, rd);
    var s1 := LogicalExpire(s, id, now).state;
    assert s1.pending == [Rebuild(id, RebuildSeconds, Lock(id))];
    var s2 := RunRebuild(s1, later);
    var w := SaveShop2Redis(s1.(pending := []), id, RebuildSeconds, later);
    assert s2 == UnLock(w, Lock(id));
    SaveShop2RedisWrites(s1.(pending := []), id, RebuildSeconds, later);
    LogicalExpireFresh(s2, id, t, RedisData(FindById(s.db, id), later + RebuildSeconds));
  }

  // ---- update -------------------------------------------------------------

  /**
   * update always sends the statement to the table first. A null id answers
   * fail and leaves Redis alone; otherwise exactly the data key is deleted.
   */
  lemma UpdateEffect(s: State, shop: Shop)
    ensures Update(s, shop).1.dbWrites == s.dbWrites + [shop]
    ensures Update(s, shop).1.db == UpdateById(s.db, shop)
    ensures Update(s, shop).1.dbReads == s.dbReads && Update(s, shop).1.pending == s.pending
    ensures shop.id.None? ==> Update(s, shop).0 == Fail(IdRequired) && Update(s, shop).1.store == s.store
    ensures shop.id.Some? ==>
              Update(s, shop).0 == Ok(shop) &&
              Data(shop.id.value) !in Update(s, shop).1.store &&
              forall k | k in s.store && k != Data(shop.id.value) ::
                k in Update(s, shop).1.store && Update(s, shop).1.store[k] == s.store[k]
    ensures shop.id.Some? ==> Update(s, shop).1.store.Keys <= s.store.Keys
  {
  }

  /**
   * Invalidation: once update has answered ok, a pass-through lookup of that
   * shop loads the updated row, never the value cached before.
   */
  lemma {:induction false} UpdateThenLookup(s: State, shop: Shop)
    requires shop.id.Some? && shop.id.value in s.db
    ensures PassThrough(Update(s, shop).1, shop.id.value).result ==
              Returned(Some(Merge(s.db[shop.id.value], shop)))
  {
    UpdateEffect(s, shop);
    PassThroughMiss(Update(s, shop).1, shop.id.value);
  }
}
