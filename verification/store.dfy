/**
 The artist store as the handlers see it. The store's driver is not part of this model: a
 `Db` supplies the result of each of its four operations, and every handler reports, in
 order, the store calls it made. A `Collection` (the documents keyed by primary key) is the
 reference meaning a `Db` can be checked against.
 */
module Store {
  import opened Wrappers
  import opened Models
  import opened Query

  /** A failure reported by the store (transport, decoding, duplicate key, ...), kept opaque. */
  datatype StoreError = StoreError(message: string)

  /** The results the store gives for each operation the handlers use. */
  datatype Db = Db(
    find: Filter -> Result<seq<ArtistInfo>, StoreError>,
    create: ArtistInfo -> Outcome<StoreError>,
    update: (Filter, Update) -> Result<nat, StoreError>,
    delete: string -> Result<nat, StoreError>)

  /** One call a handler made to the store, with its arguments. */
  datatype Call =
    | FindItems(filter: Filter)
    | CreateItem(item: ArtistInfo)
    | UpdateItem(filter: Filter, update: Update)
    | DeleteItem(id: string)

  /** The stored artists, keyed by their primary key. */
  type Collection = map<string, ArtistInfo>

  ghost predicate WellKeyed(c: Collection) {
    forall id | id in c :: c[id].id == id
  }

  /**
   `items` is an answer the store may give to `f` over `c`: distinct stored artists that the
   filter selects, no more than a non-zero limit, and every selected artist when the answer
   was not cut short by the limit.
   */
  ghost predicate FindAgrees(c: Collection, f: Filter, items: seq<ArtistInfo>) {
    && (forall i | 0 <= i < |items| :: items[i].id in c && c[items[i].id] == items[i] && Selects(f, items[i]))
    && (forall i, j | 0 <= i < j < |items| :: items[i].id != items[j].id)
    && (f.limit > 0 ==> |items| <= f.limit)
    && (f.limit == 0 || |items| < f.limit ==>
          forall id | id in c && Selects(f, c[id]) :: exists i | 0 <= i < |items| :: items[i].id == id)
  }

  /** Whatever `db` reports for a lookup or a deletion agrees with the stored artists `c`. */
  ghost predicate Reflects(db: Db, c: Collection) {
    && WellKeyed(c)
    && (forall f :: db.find(f).Success? ==> FindAgrees(c, f, db.find(f).value))
    && (forall id :: db.delete(id).Success? ==> db.delete(id).value == (if id in c then 1 else 0))
  }

  /** The stored artists after `u` has been applied to every artist `f` selects. */
  function UpdateCollection(c: Collection, f: Filter, u: Update): (c': Collection)
    ensures c'.Keys == c.Keys
    ensures forall id | id in c && !Selects(f, c[id]) :: c'[id] == c[id]
    ensures forall id | id in c && Selects(f, c[id]) :: c'[id] == ApplySet(c[id], u.assignments)
  {
    map id | id in c :: if Selects(f, c[id]) then ApplySet(c[id], u.assignments) else c[id]
  }

  /**
   A lookup on the primary key with a non-zero limit finds nothing exactly when no artist has
   that key, and otherwise finds that artist first.
   */
  lemma FindById(c: Collection, id: string, limit: uint32, items: seq<ArtistInfo>)
    requires WellKeyed(c)
    requires limit > 0
    requires FindAgrees(c, ByIdFilter(id, limit), items)
    ensures items == [] <==> id !in c
    ensures items != [] ==> items[0] == c[id]
  {
    var f := ByIdFilter(id, limit);
    if id in c {
      assert Selects(f, c[id]);
    }
    if items != [] {
      assert Selects(f, items[0]);
    }
  }

  /** Applying the update by primary key changes that artist alone. */
  lemma UpdateById(c: Collection, id: string, u: Update)
    requires WellKeyed(c)
    requires id in c
    ensures UpdateCollection(c, ByIdFilter(id, 0), u) == c[id := ApplySet(c[id], u.assignments)]
  {
    var f := ByIdFilter(id, 0);
    var lhs := UpdateCollection(c, f, u);
    var rhs := c[id := ApplySet(c[id], u.assignments)];
    assert lhs.Keys == rhs.Keys;
    forall k | k in lhs
      ensures lhs[k] == rhs[k]
    {
      assert Selects(f, c[k]) <==> k == id;
    }
  }
}
