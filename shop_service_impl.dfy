/**
 * ShopServiceImpl's cache layer as an object: Redis and the shop table are
 * fields that its methods update in place. Every method is proved to leave
 * the state, and to answer, what the matching function of ShopCache says.
 */
module ShopServiceImpl {
  import opened Wrappers
  import opened Text
  import opened Shops
  import opened Json
  import opened Redis
  import Spec = ShopCache

  class ShopService {
    var store: Store
    var db: Db
    var dbReads: nat
    var dbWrites: seq<Shop>
    var pending: seq<Spec.Rebuild>

    function Snapshot(): Spec.State
      reads this
    {
      Spec.State(store, db, dbReads, dbWrites, pending)
    }

    constructor (store: Store, db: Db)
      ensures Snapshot() == Spec.State(store, db, 0, [], [])
    {
      this.store := store;
      this.db := db;
      dbReads := 0;
      dbWrites := [];
      pending := [];
    }

    // ---- primitives -------------------------------------------------------

    method Set(k: Key, v: string, ttl: Option<Ttl>)
      modifies this
      ensures Snapshot() == Spec.Set(old(Snapshot()), k, v, ttl)
    {
      store := store[k := Entry(v, ttl)];
    }

    method Delete(k: Key)
      modifies this
      ensures Snapshot() == Spec.Delete(old(Snapshot()), k)
    {
      store := store - {k};
    }

    method GetById(id: int) returns (shop: Option<Shop>)
      modifies this
      ensures Spec.Load(shop, Snapshot()) == Spec.GetById(old(Snapshot()), id)
    {
      dbReads := dbReads + 1;
      shop := if id in db then Some(db[id]) else None;
    }

    method TryLock(k: Key) returns (acquired: bool)
      modifies this
      ensures Spec.LockStep(acquired, Snapshot()) == Spec.TryLock(old(Snapshot()), k)
    {
      acquired := k !in store;
      if acquired {
        Set(k, Spec.LockValue, Some(Spec.LockLease));
      }
    }

    method UnLock(k: Key)
      modifies this
      ensures Snapshot() == Spec.UnLock(old(Snapshot()), k)
    {
      Delete(k);
    }

    // ---- lookups ------------------------------------------------------------

    method QueryWithPassThrough(id: int) returns (r: Spec.Outcome)
      modifies this
      ensures Spec.Step(r, Snapshot()) == Spec.PassThrough(old(Snapshot()), id)
    {
      var json := Get(store, Data(id));
      if IsNotBlank(json) {
        return Spec.DecodeOutcome(json.value);
      }
      if json.Some? {
        return Spec.Returned(None);
      }
      var shop := GetById(id);
      Set(Data(id), EncodeOptShop(shop), Some(CacheShopTtl));
      if shop == None {
        Set(Data(id), NullMarker, Some(CacheNullTtl));
        return Spec.Returned(None);
      }
      r := Spec.Returned(shop);
    }

    /**
     * The recursion of line 132 as a loop over stack frames: each frame that
     * fails to take the lock opens the next one, at most fuel times, and
     * leaves its finally (the unlock) pending; the innermost frame's answer
     * is then carried out through those finally blocks.
     */
    method QueryWithMutex(id: int, fuel: nat) returns (r: Spec.Outcome)
      modifies this
      ensures Spec.Step(r, Snapshot()) == Spec.Mutex(old(Snapshot()), id, fuel)
    {
      ghost var s0 := Snapshot();
      var waiting: nat := 0;
      var done := false;
      r := Spec.Returned(None);
      while !done
        invariant waiting <= fuel
        invariant !done ==>
          Spec.Mutex(s0, id, fuel) == Spec.Unwind(Spec.Mutex(Snapshot(), id, fuel - waiting), waiting, Lock(id))
        invariant done ==>
          Spec.Mutex(s0, id, fuel) == Spec.Unwind(Spec.Step(r, Snapshot()), waiting, Lock(id))
        decreases fuel - waiting, if done then 0 else 1
      {
        var json := Get(store, Data(id));
        if IsNotBlank(json) {
          r, done := Spec.DecodeOutcome(json.value), true;
        } else if json.Some? {
          r, done := Spec.Returned(None), true;
        } else {
          var locked := TryLock(Lock(id));
          if !locked && waiting == fuel {
            r, done := Spec.Thrown(Spec.StackOverflow), true;
            UnLock(Lock(id));
          } else if !locked {
            waiting := waiting + 1;
          } else {
            var shop := GetById(id);
            Set(Data(id), EncodeOptShop(shop), Some(CacheShopTtl));
            if shop == None {
              Set(Data(id), NullMarker, Some(CacheNullTtl));
              r := Spec.Returned(None);
            } else {
              r := Spec.Returned(shop);
            }
            UnLock(Lock(id));
            done := true;
          }
        }
      }
      while waiting > 0
        invariant Spec.Mutex(s0, id, fuel) == Spec.Unwind(Spec.Step(r, Snapshot()), waiting, Lock(id))
      {
        UnLock(Lock(id));
        waiting := waiting - 1;
      }
    }

    /** Lines 73-104 of queryWithLoginExpire, on the text read from the cache. */
    method LogicalHit(id: int, json: Option<string>, now: int) returns (r: Spec.Outcome)
      modifies this
      ensures Spec.Step(r, Snapshot()) == Spec.LogicalHit(old(Snapshot()), id, json, now)
    {
      var redisData := DecodeRedisData(json);
      if redisData == None {
        return Spec.Thrown(Spec.JsonError);
      }
      var rd := redisData.value;
      if rd.expireTime > now {
        return Spec.Returned(rd.data);
      }
      var locked := TryLock(Lock(id));
      if locked {
        pending := pending + [Spec.Rebuild(id, Spec.RebuildSeconds, Lock(id))];
      }
      var shop := GetById(id);
      Set(Data(id), EncodeOptShop(shop), Some(CacheShopTtl));
      r := Spec.Returned(shop);
    }

    /** queryWithLoginExpire as written, with the guard of line 69. */
    method QueryWithLoginExpire(id: int, now: int) returns (r: Spec.Outcome)
      modifies this
      ensures Spec.Step(r, Snapshot()) == Spec.LoginExpire(old(Snapshot()), id, now)
    {
      var json := Get(store, Data(id));
      if IsNotBlank(json) {
        return Spec.Returned(None);
      }
      r := LogicalHit(id, json, now);
    }

    /** queryWithLoginExpire with the guard of line 69 the right way round. */
    method QueryWithLogicalExpire(id: int, now: int) returns (r: Spec.Outcome)
      modifies this
      ensures Spec.Step(r, Snapshot()) == Spec.LogicalExpire(old(Snapshot()), id, now)
    {
      var json := Get(store, Data(id));
      if !IsNotBlank(json) {
        return Spec.Returned(None);
      }
      r := LogicalHit(id, json, now);
    }

    method SaveShop2Redis(id: int, expireSeconds: int, now: int)
      modifies this
      ensures Snapshot() == Spec.SaveShop2Redis(old(Snapshot()), id, expireSeconds, now)
    {
      var shop := GetById(id);
      var redisData := RedisData(shop, now + expireSeconds);
      Set(Data(id), EncodeRedisData(redisData), None);
    }

    /** One step of the rebuild executor: run the oldest submitted task, if any. */
    method RunRebuild(now: int)
      modifies this
      ensures Snapshot() == Spec.RunRebuild(old(Snapshot()), now)
    {
      if pending == [] {
        return;
      }
      var task := pending[0];
      pending := pending[1..];
      SaveShop2Redis(task.id, task.expireSeconds, now);
      UnLock(task.lockKey);
    }

    // ---- write path ---------------------------------------------------------

    method Update(shop: Shop) returns (res: Spec.UpdateResult)
      modifies this
      ensures (res, Snapshot()) == Spec.Update(old(Snapshot()), shop)
    {
      db := UpdateById(db, shop);
      dbWrites := dbWrites + [shop];
      if shop.id == None {
        return Spec.Fail(Spec.IdRequired);
      }
      Delete(Data(shop.id.value));
      res := Spec.Ok(shop);
    }
  }
}
