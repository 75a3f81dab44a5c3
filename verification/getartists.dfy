/**
 The list endpoint (GET /artists): the `name` and `limit` query parameters become a filter,
 and whatever the store finds is returned.
 */
module GetArtists {
  import opened Wrappers
  import opened Models
  import opened StrConv
  import opened Query
  import opened Store
  import opened Api

  /**
   The filter for the query parameters: an `And` holding the single clause name == `name`
   when that parameter is present and no root (match all) otherwise; the limit is `limit` read
   by Atoi and truncated to 32 bits, or 0 (unrestricted) when absent or not a number.
   */
  function CreateFilterFromQueryParameters(request: Request): (f: Filter)
    ensures var q := request.queryParameters;
      && ("name" !in q ==> f.root.None?)
      && ("name" in q ==> f.root == Some(And([Eq(NameKey, Str(q["name"]))])))
      && (forall a :: Selects(f, a) <==> "name" !in q || a.name == q["name"])
      && ("limit" !in q || Atoi(q["limit"]).None? ==> f.limit == 0)
      && ("limit" in q && Atoi(q["limit"]).Some? ==> (f.limit - Atoi(q["limit"]).value) % TwoTo32 == 0)
  {
    var q := request.queryParameters;
    var limit := if "limit" in q && Atoi(q["limit"]).Some? then ToUint32(Atoi(q["limit"]).value) else 0;
    var clauses := if "name" in q then [Eq(NameKey, Str(q["name"]))] else [];
    var root := if |clauses| > 0 then Some(And(clauses)) else None;
    assert forall a :: root.Some? ==> (Matches(root.value, a) <==> Matches(clauses[0], a));
    Filter(root, limit)
  }

  /** Query parameters other than `name` and `limit`, and the rest of the request, do not affect the filter. */
  lemma OnlyNameAndLimitMatter(request: Request, other: Request)
    requires forall key | key in {"name", "limit"} ::
               (key in request.queryParameters <==> key in other.queryParameters)
               && (key in request.queryParameters ==> request.queryParameters[key] == other.queryParameters[key])
    ensures CreateFilterFromQueryParameters(request) == CreateFilterFromQueryParameters(other)
  {
    assert "name" in {"name", "limit"} && "limit" in {"name", "limit"};
  }

  /**
   A `limit` written in decimal sets the filter's limit to that number when it fits 32 bits,
   and a negative one wraps around modulo 2^32 (so "-1" means 4294967295).
   */
  lemma LimitParameter(request: Request, n: int)
    requires "limit" in request.queryParameters && request.queryParameters["limit"] == Itoa(n)
    ensures 0 <= n < TwoTo32 ==> CreateFilterFromQueryParameters(request).limit == n
    ensures -TwoTo32 <= n < 0 ==> CreateFilterFromQueryParameters(request).limit == n + TwoTo32
    ensures !InInt64(n) ==> CreateFilterFromQueryParameters(request).limit == 0
  {
    if InInt64(n) {
      AtoiItoa(n);
    } else {
      AtoiRejectsOutOfRange(n);
    }
  }

  /** A failing lookup is a 500; otherwise a 200 with every artist found, possibly none. */
  function Handler(request: Request, db: Db): (x: Exchange)
    ensures x.calls == [FindItems(CreateFilterFromQueryParameters(request))]
    ensures x.response.statusCode == StatusInternalServerError <==> db.find(x.calls[0].filter).Failure?
    ensures x.response.statusCode == StatusOK <==> db.find(x.calls[0].filter).Success?
    ensures x.response.statusCode == StatusOK ==> x.response.body == Artists(db.find(x.calls[0].filter).value)
    ensures x.response.statusCode == StatusInternalServerError ==> x.response.body == NoBody
  {
    var filter := CreateFilterFromQueryParameters(request);
    match db.find(filter)
    case Failure(_) => Exchange(Response(StatusInternalServerError, NoBody), [FindItems(filter)])
    case Success(items) => Exchange(Response(StatusOK, Artists(items)), [FindItems(filter)])
  }

  /**
   Against a store reflecting `c`: every artist listed is stored and has the requested name;
   without `name` and `limit` parameters every stored artist is listed.
   */
  lemma HandlerAgainstCollection(request: Request, db: Db, c: Collection)
    requires Reflects(db, c)
    ensures var x := Handler(request, db);
            var q := request.queryParameters;
      && (x.response.statusCode == StatusOK ==>
            forall i | 0 <= i < |x.response.body.artists| ::
              && x.response.body.artists[i] in c.Values
              && ("name" in q ==> x.response.body.artists[i].name == q["name"]))
      && (x.response.statusCode == StatusOK && "name" !in q && "limit" !in q ==>
            forall id | id in c :: exists i | 0 <= i < |x.response.body.artists| :: x.response.body.artists[i] == c[id])
  {
    var x := Handler(request, db);
    var f := CreateFilterFromQueryParameters(request);
    if x.response.statusCode == StatusOK {
      var items := db.find(f).value;
      assert FindAgrees(c, f, items);
      forall i | 0 <= i < |items|
        ensures items[i] in c.Values
      {
        assert c[items[i].id] == items[i];
      }
      if "name" !in request.queryParameters && "limit" !in request.queryParameters {
        forall id | id in c
          ensures exists i | 0 <= i < |items| :: items[i] == c[id]
        {
          assert Selects(f, c[id]);
          var i :| 0 <= i < |items| && items[i].id == id;
          assert items[i] == c[id];
        }
      }
    }
  }
}
