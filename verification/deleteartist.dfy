/** The delete endpoint (DELETE /artists/:id): delete by the path id, unvalidated. */
module DeleteArtist {
  import opened Wrappers
  import opened Store
  import opened Api

  /** A failing delete is a 500; nothing deleted is a 204; something deleted is a 202. */
  function Handler(request: Request, db: Db): (x: Exchange)
    ensures x.calls == [DeleteItem(PathParameter(request, "id"))]
    ensures x.response.statusCode == StatusInternalServerError <==> db.delete(PathParameter(request, "id")).Failure?
    ensures x.response.statusCode == StatusNoContent <==> db.delete(PathParameter(request, "id")) == Success(0)
    ensures x.response.statusCode == StatusAccepted <==>
              db.delete(PathParameter(request, "id")).Success? && db.delete(PathParameter(request, "id")).value > 0
    ensures x.response.body == NoBody
  {
    var id := PathParameter(request, "id");
    match db.delete(id)
    case Failure(_) => Exchange(Response(StatusInternalServerError, NoBody), [DeleteItem(id)])
    case Success(count) =>
      if count == 0 then Exchange(Response(StatusNoContent, NoBody), [DeleteItem(id)])
      else Exchange(Response(StatusAccepted, NoBody), [DeleteItem(id)])
  }

  /** Against a store reflecting `c`, a successful delete answers 202 exactly when the id was stored. */
  lemma HandlerAgainstCollection(request: Request, db: Db, c: Collection)
    requires Reflects(db, c)
    requires db.delete(PathParameter(request, "id")).Success?
    ensures Handler(request, db).response.statusCode == StatusAccepted <==> PathParameter(request, "id") in c
    ensures Handler(request, db).response.statusCode == StatusNoContent <==> PathParameter(request, "id") !in c
  {
    assert db.delete(PathParameter(request, "id")).Success?;
  }
}
