/** The by-id endpoint (GET /artists/:id): look the id up, unvalidated, with limit 10. */
module GetArtist {
  import opened Wrappers
  import opened Models
  import opened Query
  import opened Store
  import opened Api

  /** The lookup for the path id, taken verbatim; its limit is 10 although ids are unique. */
  function LookupFilter(request: Request): (f: Filter)
    ensures forall a :: Selects(f, a) <==> a.id == PathParameter(request, "id")
    ensures f.limit == 10
  {
    ByIdFilter(PathParameter(request, "id"), 10)
  }

  /** A failing lookup is a 500, an empty one a 404, otherwise a 200 with the first artist found. */
  function Handler(request: Request, db: Db): (x: Exchange)
    ensures x.calls == [FindItems(LookupFilter(request))]
    ensures x.response.statusCode == StatusInternalServerError <==> db.find(LookupFilter(request)).Failure?
    ensures x.response.statusCode == StatusNotFound <==> db.find(LookupFilter(request)) == Success([])
    ensures x.response.statusCode == StatusOK <==>
              db.find(LookupFilter(request)).Success? && |db.find(LookupFilter(request)).value| > 0
    ensures x.response.statusCode == StatusOK ==> x.response.body == Artist(db.find(LookupFilter(request)).value[0])
    ensures x.response.statusCode in {StatusNotFound, StatusInternalServerError} ==> x.response.body == NoBody
  {
    var filter := LookupFilter(request);
    match db.find(filter)
    case Failure(_) => Exchange(Response(StatusInternalServerError, NoBody), [FindItems(filter)])
    case Success(items) =>
      if |items| == 0 then Exchange(Response(StatusNotFound, NoBody), [FindItems(filter)])
      else Exchange(Response(StatusOK, Artist(items[0])), [FindItems(filter)])
  }

  /**
   Against a store reflecting `c`: once the lookup succeeds, the answer is a 200 carrying the
   stored artist when the id is stored and a 404 when it is not.
   */
  lemma HandlerAgainstCollection(request: Request, db: Db, c: Collection)
    requires Reflects(db, c)
    requires db.find(LookupFilter(request)).Success?
    ensures var x := Handler(request, db);
            var id := PathParameter(request, "id");
      && (x.response.statusCode == StatusOK <==> id in c)
      && (x.response.statusCode == StatusNotFound <==> id !in c)
      && (id in c ==> x.response.body == Artist(c[id]))
  {
    FindById(c, PathParameter(request, "id"), 10, db.find(LookupFilter(request)).value);
  }
}
