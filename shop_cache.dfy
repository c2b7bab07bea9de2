/**
 * The shop cache layer of ShopServiceImpl as functions from the state before
 * a call to its result and the state after it. A State holds Redis, the shop
 * table, how many getById queries were sent, the updateById statements sent,
 * and the rebuild tasks submitted to the executor and not yet run.
 */
module ShopCache {
  import opened Wrappers
  import opened Text
  import opened Shops
  import opened Json
  import opened Redis

  /** A rebuild task submitted by the logical-expiry lookup (its lambda's captures). */
  datatype Rebuild = Rebuild(id: int, expireSeconds: int, lockKey: Key)

  datatype State = State(
    store: Store,
    db: Db,
    dbReads: nat,
    dbWrites: seq<Shop>,
    pending: seq<Rebuild>)

  /** An exception a lookup raises instead of returning. */
  datatype Failure =
    | JsonError      // JSONUtil.toBean on text that is not the expected JSON
    | StackOverflow  // queryWithMutex recursed deeper than the stack allows

  /** What a lookup does: return a shop or null, or raise. */
  datatype Outcome = Returned(shop: Option<Shop>) | Thrown(failure: Failure)

  /** What update answers: Result.ok(shop) or Result.fail(message). */
  datatype UpdateResult = Ok(shop: Shop) | Fail(message: string)

  datatype Step = Step(result: Outcome, state: State)
  datatype LockStep = LockStep(acquired: bool, state: State)
  datatype Load = Load(shop: Option<Shop>, state: State)

  /** The value tryLock stores and its lease (10 minutes). */
  const LockValue: string := "1"
  const LockLease: Ttl := Minutes(10)

  /** The logical window of the rebuild task, in seconds. */
  const RebuildSeconds: int := 30

  const IdRequired: string := "店铺id不能为空"

  // ---- primitives ---------------------------------------------------------

  /** opsForValue().set: k now holds v with that TTL; nothing else changes. */
  function Set(s: State, k: Key, v: string, ttl: Option<Ttl>): (r: State)
    ensures r.store == s.store[k := Entry(v, ttl)]
    ensures r == s.(store := r.store)
  {
    s.(store := s.store[k := Entry(v, ttl)])
  }

  /** redisTemplate.delete: k is gone; nothing else changes. */
  function Delete(s: State, k: Key): (r: State)
    ensures k !in r.store
    ensures forall k' | k' in s.store && k' != k :: k' in r.store && r.store[k'] == s.store[k']
    ensures r.store.Keys <= s.store.Keys
    ensures r == s.(store := r.store)
  {
    s.(store := s.store - {k})
  }

  /** shopService.getById: one query, answering the row or null. */
  function GetById(s: State, id: int): (r: Load)
    ensures r.shop == FindById(s.db, id)
    ensures r.state == s.(dbReads := s.dbReads + 1)
  {
    Load(FindById(s.db, id), s.(dbReads := s.dbReads + 1))
  }

  /**
   * tryLock (lines 161-164): setIfAbsent with value "1" and a 10-minute
   * lease. It succeeds exactly when the key was absent; the key is present
   * afterwards either way, and no other key changes.
   */
  function TryLock(s: State, k: Key): (r: LockStep)
    ensures r.acquired <==> k !in s.store
    ensures k in r.state.store
    ensures r.acquired ==> r.state.store[k] == Entry(LockValue, Some(LockLease))
    ensures !r.acquired ==> r.state == s
    ensures forall k' | k' != k :: (k' in r.state.store <==> k' in s.store)
    ensures forall k' | k' in s.store && k' != k :: r.state.store[k'] == s.store[k']
    ensures r.state == s.(store := r.state.store)
  {
    if k in s.store then LockStep(false, s)
    else LockStep(true, Set(s, k, LockValue, Some(LockLease)))
  }

  /** unLock (lines 171-174): deletes the key, whoever holds it. */
  function UnLock(s: State, k: Key): (r: State)
    ensures k !in r.store
    ensures forall k' | k' in s.store && k' != k :: k' in r.store && r.store[k'] == s.store[k']
    ensures r.store.Keys <= s.store.Keys
    ensures r == s.(store := r.store)
  {
    Delete(s, k)
  }

  /** JSONUtil.toBean(text, Shop.class), which raises on text it cannot read. */
  function DecodeOutcome(text: string): (r: Outcome)
    ensures r.Returned? <==> DecodeShop(text).Some?
    ensures r.Returned? ==> r.shop == DecodeShop(text)
  {
    match DecodeShop(text)
    case Some(x) => Returned(Some(x))
    case None => Thrown(JsonError)
  }

  // ---- queryWithPassThrough (lines 182-209) -------------------------------

  function PassThrough(s: State, id: int): Step {
    var json := Get(s.store, Data(id));
    if IsNotBlank(json) then Step(DecodeOutcome(json.value), s)
    else if json.Some? then Step(Returned(None), s)
    else
      var load := GetById(s, id);
      var s1 := Set(load.state, Data(id), EncodeOptShop(load.shop), Some(CacheShopTtl));
      if load.shop == None then Step(Returned(None), Set(s1, Data(id), NullMarker, Some(CacheNullTtl)))
      else Step(Returned(load.shop), s1)
  }

  // ---- queryWithMutex (lines 107-153) -------------------------------------

  /**
   * The lookup with fuel frames of stack left for the retry at line 132.
   * Once the lookup has entered its try block, the finally at line 150
   * deletes the lock key on the way out, whether this call took the lock,
   * retried, or raised.
   */
  function Mutex(s: State, id: int, fuel: nat): Step
    decreases fuel
  {
    var json := Get(s.store, Data(id));
    if IsNotBlank(json) then Step(DecodeOutcome(json.value), s)
    else if json.Some? then Step(Returned(None), s)
    else
      var lock := TryLock(s, Lock(id));
      if !lock.acquired then
        var inner := if fuel == 0 then Step(Thrown(StackOverflow), lock.state)
                     else Mutex(lock.state, id, fuel - 1);
        Step(inner.result, UnLock(inner.state, Lock(id)))
      else
        var load := GetById(lock.state, id);
        var s1 := Set(load.state, Data(id), EncodeOptShop(load.shop), Some(CacheShopTtl));
        if load.shop == None then
          Step(Returned(None), UnLock(Set(s1, Data(id), NullMarker, Some(CacheNullTtl)), Lock(id)))
        else
          Step(Returned(load.shop), UnLock(s1, Lock(id)))
  }

  /** The finally blocks of n enclosing frames, run one after another. */
  function Unwind(step: Step, n: nat, k: Key): Step
    decreases n
  {
    if n == 0 then step else Unwind(Step(step.result, UnLock(step.state, k)), n - 1, k)
  }

  // ---- queryWithLoginExpire (lines 64-105) and saveShop2Redis (211-220) ----

  /**
   * Lines 73-104, what queryWithLoginExpire does once it decides to decode
   * the cached text: a fresh entry answers its payload; a stale one tries the
   * lock, submits a rebuild task if it got it, and then, lock or no lock,
   * loads the shop, caches its plain JSON under CACHE_SHOP_TTL and returns it.
   */
  function LogicalHit(s: State, id: int, json: Option<string>, now: int): Step {
    match DecodeRedisData(json)
    case None => Step(Thrown(JsonError), s)
    case Some(rd) =>
      if rd.expireTime > now then Step(Returned(rd.data), s)
      else
        var lock := TryLock(s, Lock(id));
        var s1 := if lock.acquired
                  then lock.state.(pending := lock.state.pending + [Rebuild(id, RebuildSeconds, Lock(id))])
                  else lock.state;
        var load := GetById(s1, id);
        Step(Returned(load.shop),
             Set(load.state, Data(id), EncodeOptShop(load.shop), Some(CacheShopTtl)))
  }

  /** queryWithLoginExpire as written: it leaves at line 70 on a non-blank value. */
  function LoginExpire(s: State, id: int, now: int): Step {
    var json := Get(s.store, Data(id));
    if IsNotBlank(json) then Step(Returned(None), s)
    else LogicalHit(s, id, json, now)
  }

  /** queryWithLoginExpire with the guard at line 69 the right way round. */
  function LogicalExpire(s: State, id: int, now: int): Step {
    var json := Get(s.store, Data(id));
    if !IsNotBlank(json) then Step(Returned(None), s)
    else LogicalHit(s, id, json, now)
  }

  /** saveShop2Redis: the shop wrapped with expiry now + expireSeconds, with no TTL. */
  function SaveShop2Redis(s: State, id: int, expireSeconds: int, now: int): State {
    var load := GetById(s, id);
    Set(load.state, Data(id), EncodeRedisData(RedisData(load.shop, now + expireSeconds)), None)
  }

  /**
   * The executor runs the oldest submitted task (lines 87-95): saveShop2Redis,
   * then, in its finally, the unlock.
   */
  function RunRebuild(s: State, now: int): State {
    if s.pending == [] then s
    else
      var task := s.pending[0];
      var s1 := s.(pending := s.pending[1..]);
      UnLock(SaveShop2Redis(s1, task.id, task.expireSeconds, now), task.lockKey)
  }

  // ---- update (lines 222-235) ---------------------------------------------

  function Update(s: State, shop: Shop): (UpdateResult, State) {
    var s1 := s.(db := UpdateById(s.db, shop), dbWrites := s.dbWrites + [shop]);
    match shop.id
    case None => (Fail(IdRequired), s1)
    case Some(id) => (Ok(shop), Delete(s1, Data(id)))
  }
}
