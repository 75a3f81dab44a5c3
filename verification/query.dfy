/**
 The filter and update descriptions the handlers hand to the store: a predicate tree of
 equality and conjunction nodes with a result limit, and a `$set` update. `Matches` and
 `Selects` give them the meaning the document store assigns: an equality clause holds when
 the field at the path has the value, a conjunction when every clause holds (so an empty one
 matches everything), and an absent root matches every document.
 */
module Query {
  import opened Wrappers
  import opened Models

  datatype Query =
    | Eq(key: string, value: Value)
    | And(clauses: seq<Query>)

  /** A query envelope; `limit == 0` leaves the number of results unrestricted. */
  datatype Filter = Filter(root: Option<Query>, limit: uint32)

  /** A `$set` update: each field path takes its new value, other fields are untouched. */
  datatype Update = Set(assignments: map<string, Value>)

  predicate Matches(q: Query, a: ArtistInfo)
    decreases q
  {
    match q
    case Eq(key, value) => Lookup(a, key) == Some(value)
    case And(clauses) => forall i | 0 <= i < |clauses| :: Matches(clauses[i], a)
  }

  predicate Selects(f: Filter, a: ArtistInfo) {
    f.root.None? || Matches(f.root.value, a)
  }

  /** The filter on the primary key used by the by-id lookups, updates and existence checks. */
  function ByIdFilter(id: string, limit: uint32): (f: Filter)
    ensures forall a :: Selects(f, a) <==> a.id == id
    ensures f.limit == limit
  {
    Filter(Some(Eq(IdKey, Str(id))), limit)
  }

  /** A conjunction of one clause means that clause. */
  lemma AndOfOne(q: Query, a: ArtistInfo)
    ensures Matches(And([q]), a) <==> Matches(q, a)
  {
    assert [q][0] == q;
  }

  /** Permuting the clauses of a conjunction (same multiset) does not change what it matches. */
  lemma AndReorder(clauses: seq<Query>, reordered: seq<Query>, a: ArtistInfo)
    requires multiset(clauses) == multiset(reordered)
    ensures Matches(And(clauses), a) <==> Matches(And(reordered), a)
  {
    if Matches(And(clauses), a) {
      forall j | 0 <= j < |reordered|
        ensures Matches(reordered[j], a)
      {
        assert reordered[j] in multiset(clauses);
        var i :| 0 <= i < |clauses| && clauses[i] == reordered[j];
      }
    }
    if Matches(And(reordered), a) {
      forall i | 0 <= i < |clauses|
        ensures Matches(clauses[i], a)
      {
        assert clauses[i] in multiset(reordered);
        var j :| 0 <= j < |reordered| && reordered[j] == clauses[i];
      }
    }
  }

  /** An empty conjunction, anywhere it appears as a filter's root, matches every document. */
  lemma EmptyAndMatchesAll(limit: uint32, a: ArtistInfo)
    ensures Selects(Filter(Some(And([])), limit), a)
    ensures Selects(Filter(None, limit), a)
  {
  }
}
