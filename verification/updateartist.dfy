/**
 The update-artist endpoint (PUT /artists/:id): validate the id, look the artist up, decode
 and validate the partial request body, merge it into the stored artist and write the four
 mutable fields back with a `$set`.
 */
module UpdateArtist {
  import opened Wrappers
  import opened Models
  import opened Text
  import opened Query
  import opened Store
  import opened Api

  datatype UpdateArtistStatsRequestBody = UpdateArtistStatsRequestBody(popularity: Float32)

  /** A partial artist: "", [] and 0 stand for a field the request leaves out. */
  datatype UpdateArtistRequestBody = UpdateArtistRequestBody(
    name: string,
    genres: seq<string>,
    followers: uint32,
    stats: UpdateArtistStatsRequestBody)

  const InvalidUuid: PathValidationError := PathValidationError(":id", "value is not a valid uuid")

  /** The `id` path parameter, accepted exactly when `isUuid` (Go's `uuid.Parse`) accepts it. */
  function GetAndValidateID(request: Request, isUuid: string -> bool): (r: Result<string, PathValidationError>)
    ensures r.Success? <==> isUuid(PathParameter(request, "id"))
    ensures r.Success? ==> r.value == PathParameter(request, "id")
    ensures r.Failure? ==> r.error == InvalidUuid
  {
    var id := PathParameter(request, "id");
    if isUuid(id) then Success(id) else Failure(InvalidUuid)
  }

  /** The statistics carry no constraint. */
  function ValidateArtistStatsRequestBody(stats: UpdateArtistStatsRequestBody): (r: Option<ValidationError>)
    ensures r.None?
  {
    None
  }

  /**
   A name, when present, must not be blank; no genre may be blank. The name is checked first.
   */
  function ValidateRequestBody(body: UpdateArtistRequestBody): (r: Option<ValidationError>)
    ensures r.None? <==> (body.name == "" || !Blank(body.name)) && forall i | 0 <= i < |body.genres| :: !Blank(body.genres[i])
    ensures r == Some(EmptyNameError) <==> body.name != "" && Blank(body.name)
    ensures r == Some(EmptyGenreError) <==>
              (body.name == "" || !Blank(body.name)) && exists i | 0 <= i < |body.genres| :: Blank(body.genres[i])
    ensures r.None? || r == Some(EmptyNameError) || r == Some(EmptyGenreError)
  {
    if body.name != "" && |TrimSpace(body.name)| == 0 then Some(EmptyNameError)
    else if |body.genres| > 0 && SomeTrimsEmpty(body.genres) then Some(EmptyGenreError)
    else ValidateArtistStatsRequestBody(body.stats)
  }

  /** Why the lookup of the artist to update failed. */
  datatype LookupError = LookupFailed(error: StoreError) | NotFound

  /** The first artist a primary-key lookup with limit 1 returns. */
  function FindArtistByID(db: Db, id: string): (r: Result<ArtistInfo, LookupError>)
    ensures r.Success? <==> db.find(ByIdFilter(id, 1)).Success? && |db.find(ByIdFilter(id, 1)).value| > 0
    ensures r.Success? ==> r.value == db.find(ByIdFilter(id, 1)).value[0]
    ensures r == Failure(NotFound) <==> db.find(ByIdFilter(id, 1)) == Success([])
    ensures forall e :: r == Failure(LookupFailed(e)) <==> db.find(ByIdFilter(id, 1)) == Failure(e)
  {
    match db.find(ByIdFilter(id, 1))
    case Failure(e) => Failure(LookupFailed(e))
    case Success(items) => if |items| == 0 then Failure(NotFound) else Success(items[0])
  }

  /** The fields the request actually carries (non-empty, non-zero), as `$set` assignments. */
  function SuppliedFields(body: UpdateArtistRequestBody): (m: map<string, Value>)
    ensures forall key | key in m :: Fits(key, m[key])
  {
    var withName := if body.name != "" then map[NameKey := Str(body.name)] else map[];
    var withGenres := if |body.genres| > 0 then withName[GenresKey := StrList(body.genres)] else withName;
    var withFollowers := if body.followers != 0 then withGenres[FollowersKey := UInt32(body.followers)] else withGenres;
    if !body.stats.popularity.IsZero() then withFollowers[PopularityKey := Float(body.stats.popularity)] else withFollowers
  }

  /**
   The stored artist with the request merged in: a field is overwritten when the request
   carries a non-empty, non-zero value for it, and is otherwise kept; the id is never touched.
   */
  function MergeRequest(artist: ArtistInfo, body: UpdateArtistRequestBody): (r: ArtistInfo)
    ensures forall key :: Lookup(r, key) ==
              if key in SuppliedFields(body) then Some(SuppliedFields(body)[key]) else Lookup(artist, key)
    ensures r.id == artist.id
  {
    var name := if body.name != "" then body.name else artist.name;
    var genres := if |body.genres| > 0 then body.genres else artist.genres;
    var followers := if body.followers != 0 then body.followers else artist.followers;
    var popularity := if !body.stats.popularity.IsZero() then body.stats.popularity else artist.stats.popularity;
    ArtistInfo(artist.id, name, genres, followers, ArtistStats(popularity))
  }

  /** Merging is the `$set` of the supplied fields. */
  lemma MergeIsSetOfSupplied(artist: ArtistInfo, body: UpdateArtistRequestBody)
    ensures MergeRequest(artist, body) == ApplySet(artist, SuppliedFields(body))
  {
    var m := SuppliedFields(body);
    forall key
      ensures Lookup(MergeRequest(artist, body), key) == Lookup(ApplySet(artist, m), key)
    {
    }
    LookupDetermines(MergeRequest(artist, body), ApplySet(artist, m));
  }

  /** Merging the same request twice gives what merging it once gives. */
  lemma MergeIdempotent(artist: ArtistInfo, body: UpdateArtistRequestBody)
    ensures MergeRequest(MergeRequest(artist, body), body) == MergeRequest(artist, body)
  {
    MergeIsSetOfSupplied(artist, body);
    MergeIsSetOfSupplied(MergeRequest(artist, body), body);
    ApplySetIdempotent(artist, SuppliedFields(body));
  }

  /** An update cannot clear a field: a zero follower count or zero popularity in the request is ignored. */
  lemma MergeNeverClears(artist: ArtistInfo, body: UpdateArtistRequestBody)
    ensures MergeRequest(artist, body).followers == 0 ==> artist.followers == 0
    ensures MergeRequest(artist, body).name == "" ==> artist.name == ""
    ensures MergeRequest(artist, body).genres == [] ==> artist.genres == []
    ensures MergeRequest(artist, body).stats.popularity.IsZero() ==> artist.stats.popularity.IsZero()
  {
    assert Lookup(MergeRequest(artist, body), FollowersKey) != None;
  }

  /** The `$set` that writes back every field of `artist` except its id. */
  function SetFields(artist: ArtistInfo): (u: Update)
    ensures u.assignments.Keys == {NameKey, GenresKey, FollowersKey, PopularityKey}
    ensures forall key | key in u.assignments :: Some(u.assignments[key]) == Lookup(artist, key)
  {
    Set(map[
      NameKey := Str(artist.name),
      GenresKey := StrList(artist.genres),
      FollowersKey := UInt32(artist.followers),
      PopularityKey := Float(artist.stats.popularity)])
  }

  /** Applied to any stored artist with the same id, the write-back `$set` yields exactly `artist`. */
  lemma SetFieldsRestores(stored: ArtistInfo, artist: ArtistInfo)
    requires stored.id == artist.id
    ensures ApplySet(stored, SetFields(artist).assignments) == artist
  {
    var m := SetFields(artist).assignments;
    forall key
      ensures Lookup(ApplySet(stored, m), key) == Lookup(artist, key)
    {
    }
    LookupDetermines(ApplySet(stored, m), artist);
  }

  /**
   The endpoint, in its order of checks: a bad id (400) before the store is touched, a failed
   lookup (404) before the body is read, a malformed or invalid body (400), then the update,
   whose failure is a 500 and whose success is a 204 whatever the modified count.
   */
  function Handler(
    request: Request, db: Db,
    isUuid: string -> bool, decode: string -> Option<UpdateArtistRequestBody>): (x: Exchange)
    ensures var id := PathParameter(request, "id");
      && (x.calls == [] <==> !isUuid(id))
      && (!isUuid(id) ==> x.response == Response(StatusBadRequest, InvalidPath(InvalidUuid)))
      && (isUuid(id) ==> x.calls[0] == FindItems(ByIdFilter(id, 1)))
      && (x.response.statusCode == StatusNotFound <==> isUuid(id) && FindArtistByID(db, id).Failure?)
      && (|x.calls| <= 2)
      && (|x.calls| == 2 ==>
            && FindArtistByID(db, id).Success?
            && decode(request.body).Some?
            && ValidateRequestBody(decode(request.body).value).None?
            && x.calls[1] == UpdateItem(ByIdFilter(id, 0),
                 SetFields(MergeRequest(FindArtistByID(db, id).value, decode(request.body).value))))
    ensures x.response.statusCode in {StatusNoContent, StatusBadRequest, StatusNotFound, StatusInternalServerError}
    ensures x.response.statusCode == StatusNoContent <==>
              |x.calls| == 2 && db.update(x.calls[1].filter, x.calls[1].update).Success?
    ensures x.response.statusCode == StatusInternalServerError <==>
              |x.calls| == 2 && db.update(x.calls[1].filter, x.calls[1].update).Failure?
    ensures x.response.statusCode == StatusBadRequest <==>
              !isUuid(PathParameter(request, "id"))
              || (FindArtistByID(db, PathParameter(request, "id")).Success?
                  && (decode(request.body).None? || ValidateRequestBody(decode(request.body).value).Some?))
    ensures x.response.statusCode in {StatusNoContent, StatusNotFound, StatusInternalServerError} ==>
              x.response.body == NoBody
    ensures x.response.statusCode == StatusBadRequest && isUuid(PathParameter(request, "id")) ==>
              if decode(request.body).None? then x.response.body == ErrorMessage(InvalidRequestBody)
              else x.response.body == Invalid(ValidateRequestBody(decode(request.body).value).value)
  {
    match GetAndValidateID(request, isUuid)
    case Failure(pathError) => Exchange(Response(StatusBadRequest, InvalidPath(pathError)), [])
    case Success(id) =>
      var lookup := FindItems(ByIdFilter(id, 1));
      match FindArtistByID(db, id)
      case Failure(_) => Exchange(Response(StatusNotFound, NoBody), [lookup])
      case Success(artist) =>
        match decode(request.body)
        case None => Exchange(Response(StatusBadRequest, ErrorMessage(InvalidRequestBody)), [lookup])
        case Some(body) =>
          match ValidateRequestBody(body)
          case Some(validationError) => Exchange(Response(StatusBadRequest, Invalid(validationError)), [lookup])
          case None =>
            var filter := ByIdFilter(id, 0);
            var update := SetFields(MergeRequest(artist, body));
            var calls := [lookup, UpdateItem(filter, update)];
            match db.update(filter, update)
            case Failure(_) => Exchange(Response(StatusInternalServerError, NoBody), calls)
            case Success(count) =>
              // zero modified documents is logged but answered like any other count
              if count == 0 then Exchange(Response(StatusNoContent, NoBody), calls)
              else Exchange(Response(StatusNoContent, NoBody), calls)
  }

  /** A 404 is decided before the body is decoded: any decoder gives the same exchange. */
  lemma NotFoundIgnoresBody(
    request: Request, db: Db, isUuid: string -> bool,
    decode: string -> Option<UpdateArtistRequestBody>, otherDecode: string -> Option<UpdateArtistRequestBody>)
    requires Handler(request, db, isUuid, decode).response.statusCode == StatusNotFound
    ensures Handler(request, db, isUuid, otherDecode) == Handler(request, db, isUuid, decode)
  {
  }

  /**
   Against a store that reflects the stored artists `c`: a 404 after a successful lookup means
   no artist has the id, and a 204 means the issued update replaces exactly that artist by
   the merge of the request into it, leaving every other artist as it was.
   */
  lemma HandlerAgainstCollection(
    request: Request, db: Db, c: Collection,
    isUuid: string -> bool, decode: string -> Option<UpdateArtistRequestBody>)
    requires Reflects(db, c)
    ensures var x := Handler(request, db, isUuid, decode);
            var id := PathParameter(request, "id");
      && (x.response.statusCode == StatusNotFound && db.find(ByIdFilter(id, 1)).Success? ==> id !in c)
      && (x.response.statusCode == StatusNoContent ==>
            && id in c
            && UpdateCollection(c, x.calls[1].filter, x.calls[1].update)
               == c[id := MergeRequest(c[id], decode(request.body).value)])
  {
    var x := Handler(request, db, isUuid, decode);
    var id := PathParameter(request, "id");
    if isUuid(id) && db.find(ByIdFilter(id, 1)).Success? {
      FindById(c, id, 1, db.find(ByIdFilter(id, 1)).value);
    }
    if x.response.statusCode == StatusNoContent {
      var merged := MergeRequest(c[id], decode(request.body).value);
      UpdateById(c, id, SetFields(merged));
      SetFieldsRestores(c[id], merged);
    }
  }
}
