/**
 The artist record as stored in the document database, and the document view of it
 (field paths following the bson tags) that queries and `$set` updates address.
 */
module Models {
  import opened Wrappers

  const TwoTo32: int := 0x1_0000_0000

  /** Go's `uint32`. */
  type uint32 = n: int | 0 <= n < 0x1_0000_0000

  /**
   Go's `float32`, kept as its IEEE-754 bit pattern. The handlers never compute with it:
   they copy it and compare it with 0.
   */
  datatype Float32 = Float32(bits: bv32) {
    /** `x == 0` in Go holds for +0 and -0 and for nothing else (NaN differs from everything). */
    predicate IsZero() {
      bits & 0x7FFF_FFFF == 0
    }
  }

  datatype ArtistStats = ArtistStats(popularity: Float32)

  datatype ArtistInfo = ArtistInfo(
    id: string,
    name: string,
    genres: seq<string>,
    followers: uint32,
    stats: ArtistStats)

  /** A value held at one field path of an artist document. */
  datatype Value =
    | Str(text: string)
    | StrList(items: seq<string>)
    | UInt32(number: uint32)
    | Float(float: Float32)

  /** The document field paths of an artist; `_id` is the store's primary key. */
  const IdKey: string := "_id"
  const NameKey: string := "name"
  const GenresKey: string := "genres"
  const FollowersKey: string := "followers"
  const PopularityKey: string := "stats.popularity"

  const DocumentKeys: set<string> := {IdKey, NameKey, GenresKey, FollowersKey, PopularityKey}

  /** The value stored under the field path `key` of the artist's document, if there is one. */
  function Lookup(a: ArtistInfo, key: string): (r: Option<Value>)
    ensures r.Some? <==> key in DocumentKeys
    ensures key == IdKey ==> r == Some(Str(a.id))
    ensures key == NameKey ==> r == Some(Str(a.name))
    ensures key == GenresKey ==> r == Some(StrList(a.genres))
    ensures key == FollowersKey ==> r == Some(UInt32(a.followers))
    ensures key == PopularityKey ==> r == Some(Float(a.stats.popularity))
  {
    if key == IdKey then Some(Str(a.id))
    else if key == NameKey then Some(Str(a.name))
    else if key == GenresKey then Some(StrList(a.genres))
    else if key == FollowersKey then Some(UInt32(a.followers))
    else if key == PopularityKey then Some(Float(a.stats.popularity))
    else None
  }

  /** Two artists are equal exactly when their documents agree on every field path. */
  lemma LookupDetermines(a: ArtistInfo, b: ArtistInfo)
    requires forall key :: Lookup(a, key) == Lookup(b, key)
    ensures a == b
  {
    assert Lookup(a, IdKey) == Lookup(b, IdKey);
    assert Lookup(a, NameKey) == Lookup(b, NameKey);
    assert Lookup(a, GenresKey) == Lookup(b, GenresKey);
    assert Lookup(a, FollowersKey) == Lookup(b, FollowersKey);
    assert Lookup(a, PopularityKey) == Lookup(b, PopularityKey);
  }

  /** Whether `v` has the type of the field stored under `key`. */
  predicate Fits(key: string, v: Value) {
    || (key == NameKey && v.Str?)
    || (key == GenresKey && v.StrList?)
    || (key == FollowersKey && v.UInt32?)
    || (key == PopularityKey && v.Float?)
  }

  /**
   The document that results from a `$set` of `assignments`: every assigned field path
   of the right type takes the assigned value. The primary key is immutable.
   */
  function ApplySet(a: ArtistInfo, assignments: map<string, Value>): (r: ArtistInfo)
    ensures forall key :: Lookup(r, key) ==
              if key in assignments && Fits(key, assignments[key]) then Some(assignments[key]) else Lookup(a, key)
    ensures r.id == a.id
  {
    var name := if NameKey in assignments && assignments[NameKey].Str? then assignments[NameKey].text else a.name;
    var genres := if GenresKey in assignments && assignments[GenresKey].StrList? then assignments[GenresKey].items else a.genres;
    var followers := if FollowersKey in assignments && assignments[FollowersKey].UInt32? then assignments[FollowersKey].number else a.followers;
    var popularity := if PopularityKey in assignments && assignments[PopularityKey].Float? then assignments[PopularityKey].float else a.stats.popularity;
    ArtistInfo(a.id, name, genres, followers, ArtistStats(popularity))
  }

  /** Setting the same fields twice leaves the document as setting them once. */
  lemma ApplySetIdempotent(a: ArtistInfo, assignments: map<string, Value>)
    ensures ApplySet(ApplySet(a, assignments), assignments) == ApplySet(a, assignments)
  {
  }
}
