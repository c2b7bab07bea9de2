/**
 * The values the shop service moves between the database, Redis and its
 * callers: the Shop entity and the RedisData wrapper of the logical-expiry
 * strategy.
 */
module Shops {
  import opened Wrappers

  /**
   * The Shop entity, reduced to its primary key and one ordinary column.
   * Every column is nullable, as in the Java entity.
   */
  datatype Shop = Shop(id: Option<int>, name: Option<string>)

  /**
   * RedisData: a payload (a Shop, or null) and the logical expiry time,
   * a LocalDateTime counted here in whole seconds.
   */
  datatype RedisData = RedisData(data: Option<Shop>, expireTime: int)

  /** The table: primary key to row. */
  type Db = map<int, Shop>

  /** getById: the row with that primary key, or null. */
  function FindById(db: Db, id: int): (r: Option<Shop>)
    ensures r.Some? <==> id in db
    ensures r.Some? ==> r.value == db[id]
  {
    if id in db then Some(db[id]) else None
  }

  /**
   * The row updateById leaves: the columns the update sets to a non-null
   * value replace the stored ones, the null columns are skipped, and the
   * primary key stays.
   */
  function Merge(row: Shop, update: Shop): (r: Shop)
    ensures r.id == row.id
    ensures r.name == (if update.name.Some? then update.name else row.name)
  {
    row.(name := if update.name.Some? then update.name else row.name)
  }

  /**
   * updateById: an UPDATE whose WHERE clause is the primary key. A null key or
   * a key with no row matches nothing and leaves the table as it was.
   */
  function UpdateById(db: Db, shop: Shop): (r: Db)
    ensures r.Keys == db.Keys
    ensures shop.id.Some? && shop.id.value in db ==>
              r[shop.id.value] == Merge(db[shop.id.value], shop)
    ensures forall k | k in db && Some(k) != shop.id :: r[k] == db[k]
  {
    if shop.id.Some? && shop.id.value in db
    then db[shop.id.value := Merge(db[shop.id.value], shop)]
    else db
  }
}
