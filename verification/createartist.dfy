/**
 The create-artist endpoint (POST /artists): decode and validate the body, build the artist
 under a freshly generated id, make sure no artist has that id yet, and store it.
 */
module CreateArtist {
  import opened Wrappers
  import opened Models
  import opened Text
  import opened Query
  import opened Store
  import opened Api

  datatype CreateArtistStatsRequestBody = CreateArtistStatsRequestBody(popularity: Float32)

  datatype CreateArtistRequestBody = CreateArtistRequestBody(
    name: string,
    genres: seq<string>,
    followers: uint32,
    stats: CreateArtistStatsRequestBody)

  /** The statistics carry no constraint. */
  function ValidateArtistStatsRequestBody(stats: CreateArtistStatsRequestBody): (r: Option<ValidationError>)
    ensures r.None?
  {
    None
  }

  /**
   The name is mandatory and must not be blank; after it, no genre may be blank (an empty list
   of genres is fine).
   */
  function ValidateRequestBody(body: CreateArtistRequestBody): (r: Option<ValidationError>)
    ensures r.None? <==> !Blank(body.name) && forall i | 0 <= i < |body.genres| :: !Blank(body.genres[i])
    ensures r == Some(EmptyNameError) <==> Blank(body.name)
    ensures r == Some(EmptyGenreError) <==>
              !Blank(body.name) && exists i | 0 <= i < |body.genres| :: Blank(body.genres[i])
    ensures r.None? || r == Some(EmptyNameError) || r == Some(EmptyGenreError)
  {
    if |TrimSpace(body.name)| == 0 then Some(EmptyNameError)
    else if SomeTrimsEmpty(body.genres) then Some(EmptyGenreError)
    else ValidateArtistStatsRequestBody(body.stats)
  }

  /** Why an id cannot be used for a new artist. */
  datatype ExistenceError = LookupFailed(error: StoreError) | AlreadyExists

  /** The lookup that decides whether an id is taken. */
  function ExistenceFilter(id: string): (f: Filter)
    ensures forall a :: Selects(f, a) <==> a.id == id
    ensures f.limit == 1
  {
    ByIdFilter(id, 1)
  }

  /**
   Succeeds exactly when the lookup of `id` (limit 1) returns no artist; a lookup that returns
   one is a conflict, and a failing lookup's error is passed on unchanged.
   */
  function EnsureArtistDoesNotExist(db: Db, id: string): (r: Outcome<ExistenceError>)
    ensures r.Pass? <==> db.find(ExistenceFilter(id)) == Success([])
    ensures r == Fail(AlreadyExists) <==> db.find(ExistenceFilter(id)).Success? && |db.find(ExistenceFilter(id)).value| > 0
    ensures forall e :: r == Fail(LookupFailed(e)) <==> db.find(ExistenceFilter(id)) == Failure(e)
  {
    match db.find(ExistenceFilter(id))
    case Failure(e) => Fail(LookupFailed(e))
    case Success(items) => if |items| == 0 then Pass else Fail(AlreadyExists)
  }

  /** Against a store reflecting `c`, the check passes exactly when no stored artist has the id. */
  lemma EnsureAgainstCollection(db: Db, c: Collection, id: string)
    requires Reflects(db, c)
    requires db.find(ExistenceFilter(id)).Success?
    ensures EnsureArtistDoesNotExist(db, id).Pass? <==> id !in c
    ensures EnsureArtistDoesNotExist(db, id) == Fail(AlreadyExists) <==> id in c
  {
    FindById(c, id, 1, db.find(ExistenceFilter(id)).value);
  }

  /** The artist to store: the request's fields exactly as sent (untrimmed) under the new id. */
  function NewArtist(id: string, body: CreateArtistRequestBody): (a: ArtistInfo)
    ensures Lookup(a, IdKey) == Some(Str(id))
    ensures Lookup(a, NameKey) == Some(Str(body.name))
    ensures Lookup(a, GenresKey) == Some(StrList(body.genres))
    ensures Lookup(a, FollowersKey) == Some(UInt32(body.followers))
    ensures Lookup(a, PopularityKey) == Some(Float(body.stats.popularity))
  {
    ArtistInfo(id, body.name, body.genres, body.followers, ArtistStats(body.stats.popularity))
  }

  const ArtistAlreadyExists: string := "artist already exists"

  /**
   The endpoint, in its order of checks: a body that does not decode (400) or does not validate
   (400) before the store is touched; then the existence check under the new id `newId`
   (Go's `uuid.New`), any failure of which is a 409; then the insert, whose failure is a 500 and
   whose success is a 200 carrying the stored artist.
   */
  function Handler(request: Request, db: Db, decode: string -> Option<CreateArtistRequestBody>, newId: string): (x: Exchange)
    ensures x.calls == [] <==> decode(request.body).None? || ValidateRequestBody(decode(request.body).value).Some?
    ensures decode(request.body).None? ==> x.response == Response(StatusBadRequest, ErrorMessage(InvalidRequestBody))
    ensures decode(request.body).Some? && ValidateRequestBody(decode(request.body).value).Some? ==>
              x.response == Response(StatusBadRequest, Invalid(ValidateRequestBody(decode(request.body).value).value))
    ensures x.calls != [] ==> x.calls[0] == FindItems(ExistenceFilter(newId)) && |x.calls| <= 2
    ensures x.response.statusCode == StatusConflict <==> x.calls != [] && EnsureArtistDoesNotExist(db, newId).Fail?
    ensures x.response.statusCode == StatusConflict ==> x.response.body == ErrorMessage(ArtistAlreadyExists)
    ensures |x.calls| == 2 <==> x.calls != [] && EnsureArtistDoesNotExist(db, newId).Pass?
    ensures |x.calls| == 2 ==> x.calls[1] == CreateItem(NewArtist(newId, decode(request.body).value))
    ensures x.response.statusCode == StatusOK <==> |x.calls| == 2 && db.create(x.calls[1].item).Pass?
    ensures x.response.statusCode == StatusOK ==> x.response.body == Artist(x.calls[1].item)
    ensures x.response.statusCode == StatusInternalServerError <==> |x.calls| == 2 && db.create(x.calls[1].item).Fail?
    ensures x.response.statusCode == StatusInternalServerError ==> x.response.body == NoBody
    ensures x.response.statusCode in {StatusOK, StatusBadRequest, StatusConflict, StatusInternalServerError}
  {
    match decode(request.body)
    case None => Exchange(Response(StatusBadRequest, ErrorMessage(InvalidRequestBody)), [])
    case Some(body) =>
      match ValidateRequestBody(body)
      case Some(validationError) => Exchange(Response(StatusBadRequest, Invalid(validationError)), [])
      case None =>
        var artist := NewArtist(newId, body);
        var lookup := FindItems(ExistenceFilter(artist.id));
        match EnsureArtistDoesNotExist(db, artist.id)
        case Fail(_) => Exchange(Response(StatusConflict, ErrorMessage(ArtistAlreadyExists)), [lookup])
        case Pass =>
          var calls := [lookup, CreateItem(artist)];
          match db.create(artist)
          case Fail(_) => Exchange(Response(StatusInternalServerError, NoBody), calls)
          case Pass => Exchange(Response(StatusOK, Artist(artist)), calls)
  }

  /**
   Against a store reflecting `c`: a 200 means no artist had the new id before, and the
   artist returned carries the request's fields verbatim; a 409 after a successful lookup
   means the id was taken.
   */
  lemma HandlerAgainstCollection(
    request: Request, db: Db, c: Collection, decode: string -> Option<CreateArtistRequestBody>, newId: string)
    requires Reflects(db, c)
    ensures var x := Handler(request, db, decode, newId);
      && (x.response.statusCode == StatusOK ==>
            && newId !in c
            && x.response.body == Artist(ArtistInfo(newId, decode(request.body).value.name,
                 decode(request.body).value.genres, decode(request.body).value.followers,
                 ArtistStats(decode(request.body).value.stats.popularity))))
      && (x.response.statusCode == StatusConflict && db.find(ExistenceFilter(newId)).Success? ==> newId in c)
  {
    if db.find(ExistenceFilter(newId)).Success? {
      EnsureAgainstCollection(db, c, newId);
    }
  }
}
