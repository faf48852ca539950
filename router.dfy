/**
 * The request dispatch of the `http.createServer` callback in index.js: a pure
 * function from the collection and a parsed request to the reply and the new
 * collection, and the imperative handler that drives an `AnimeStore`.
 */
module Router {
  import opened Wrappers
  import opened Json
  import opened Store

  /** A query parameter as `url.parse(..., true)` gives it: a string, or an array when the key repeats. */
  datatype QueryValue = Single(s: string) | Repeated(all: seq<string>)

  type Query = map<string, QueryValue>

  /** Truthiness of `parsedUrl.query[k]`: a missing key and the empty string are falsy, arrays are truthy. */
  predicate QueryTruthy(q: Query, k: string) {
    k in q && (q[k].Repeated? || q[k].s != "")
  }

  /** A request after URL parsing and body parsing. `body` is what `JSON.parse` returned; it is ignored by GET and DELETE. */
  datatype Request = Request(verb: string, pathname: string, query: Query, body: Value)

  /** The JSON written with `res.end`: one record, an array of records, or `{error: message}`. */
  datatype Body = Found(record: Record) | Listing(records: seq<Record>) | Error(message: string)

  /** A written response, or an uncaught TypeError escaping the handler (no response is written). */
  datatype Reply = Response(status: int, body: Body) | Thrown

  datatype Outcome = Outcome(reply: Reply, data: seq<Record>)

  const CollectionPath := "/animes"
  const ItemPrefix := "/animes/"
  const AnimeNotFound := "Anime not found."
  const IncompleteData := "Incomplete data. Please provide all required fields."
  const RouteNotFound := "Route not found."
  const RequiredFields := ["nombre", "genero", "año", "autor"]

  predicate StartsWith(s: string, prefix: string) {
    |prefix| <= |s| && s[..|prefix|] == prefix
  }

  /** The text of `rest` before the first occurrence of "/animes/" (all of `rest` when there is none). */
  function Segment(rest: string): (id: string)
    ensures |id| <= |rest| && id == rest[..|id|]
    ensures forall k :: 0 <= k < |id| ==> !StartsWith(rest[k..], ItemPrefix)
    ensures |id| < |rest| ==> StartsWith(rest[|id|..], ItemPrefix)
  {
    if rest == [] || StartsWith(rest, ItemPrefix) then ""
    else
      var tail := Segment(rest[1..]);
      assert forall k :: 1 <= k <= |rest| ==> rest[k..] == rest[1..][k - 1..];
      [rest[0]] + tail
  }

  /** `pathname.split('/animes/')[1]` for a pathname that starts with "/animes/". */
  function PathId(pathname: string): (id: string)
    requires StartsWith(pathname, ItemPrefix)
    ensures var rest := pathname[|ItemPrefix|..];
            && |id| <= |rest| && id == rest[..|id|]
            && (forall k :: 0 <= k < |id| ==> !StartsWith(rest[k..], ItemPrefix))
            && (|id| < |rest| ==> StartsWith(rest[|id|..], ItemPrefix))
  {
    Segment(pathname[|ItemPrefix|..])
  }

  /** The id is everything after "/animes/" when the rest holds no further "/animes/". */
  lemma PathIdOfPlainSegment(x: string)
    requires forall k :: 0 <= k <= |x| ==> !StartsWith(x[k..], ItemPrefix)
    ensures StartsWith(ItemPrefix + x, ItemPrefix) && PathId(ItemPrefix + x) == x
  {
  }

  /** A second "/animes/" in the path ends the id: "/animes/3/animes/4" addresses "3". */
  lemma PathIdStopsAtNextPrefix()
    ensures StartsWith("/animes/3/animes/4", ItemPrefix) && PathId("/animes/3/animes/4") == "3"
  {
    var rest := "3/animes/4";
    assert "/animes/3/animes/4"[|ItemPrefix|..] == rest;
    assert rest[1..] == "/animes/4";
    assert StartsWith(rest[1..], ItemPrefix);
    assert rest[..|ItemPrefix|][0] != ItemPrefix[0];
  }

  /** The outcome of the four-field check `body.nombre && body.genero && body.año && body.autor`. */
  datatype Validation = Complete(fields: Record) | Incomplete | Throws

  /** `null.nombre` throws; any other non-object has no such properties and so fails the check. */
  function Validate(body: Value): (v: Validation)
    ensures v.Throws? <==> body.Null?
    ensures v.Complete? <==> body.Obj? && forall k :: k in RequiredFields ==> FieldTruthy(body.fields, k)
    ensures v.Complete? ==> v.fields == body.fields
  {
    match body
    case Null => Throws
    case Obj(m) =>
      if FieldTruthy(m, "nombre") && FieldTruthy(m, "genero") && FieldTruthy(m, "año") && FieldTruthy(m, "autor")
      then Complete(m) else Incomplete
    case _ => Incomplete
  }

  /** GET /animes: `id` first, then `nombre`, else the whole collection. */
  function Get(s: seq<Record>, q: Query): (r: Reply)
    ensures r.Response? ==> r.status in {200, 404}
    ensures r.Response? && r.status == 404 ==> r.body == Error(AnimeNotFound)
    ensures r.Response? && r.status == 200 ==> r.body.Found? || r.body.Listing?
    ensures r.Thrown? ==> QueryTruthy(q, "nombre") && s != []
  {
    if QueryTruthy(q, "id") then
      match q["id"]
      case Single(id) =>
        (match FindById(s, id)
         case Some(r) => Response(200, Found(r))
         case None => Response(404, Error(AnimeNotFound)))
      // `anime.id === [..]` is false for every record: an array from the query is a fresh object.
      case Repeated(_) => Response(404, Error(AnimeNotFound))
    else if QueryTruthy(q, "nombre") then
      match q["nombre"]
      case Single(name) =>
        (match FindByName(s, name)
         case None => Thrown
         case Some(rs) => if |rs| > 0 then Response(200, Listing(rs)) else Response(404, Error(AnimeNotFound)))
      // The filter callback calls `toLowerCase` on an array: it throws as soon as there is a record to test.
      case Repeated(_) => if s == [] then Response(404, Error(AnimeNotFound)) else Thrown
    else
      Response(200, Listing(s))
  }

  /** POST /animes. */
  function Post(s: seq<Record>, body: Value): (o: Outcome)
    ensures o.reply.Thrown? <==> body.Null?
    ensures o.reply.Response? ==> o.reply.status in {201, 400}
    ensures o.reply.Response? && o.reply.status == 201 ==>
              o.reply.body.Found? && o.data == s + [o.reply.body.record]
    ensures !(o.reply.Response? && o.reply.status == 201) ==> o.data == s
  {
    match Validate(body)
    case Throws => Outcome(Thrown, s)
    case Incomplete => Outcome(Response(400, Error(IncompleteData)), s)
    case Complete(m) =>
      var c := Insert(s, m);
      Outcome(Response(201, Found(c.data[|s|])), c.data)
  }

  /** PUT /animes/{id}. */
  function Put(s: seq<Record>, id: string, body: Value): (o: Outcome)
    ensures o.reply.Thrown? <==> body.Null?
    ensures o.reply.Response? ==> o.reply.status in {200, 400, 404}
    ensures |o.data| == |s|
    ensures !(o.reply.Response? && o.reply.status == 200) ==> o.data == s
    ensures o.reply.Response? && o.reply.status == 404 ==> forall j :: 0 <= j < |s| ==> !HasId(s[j], id)
  {
    match Validate(body)
    case Throws => Outcome(Thrown, s)
    case Incomplete => Outcome(Response(400, Error(IncompleteData)), s)
    case Complete(m) =>
      var c := Update(s, id, m);
      match c.result
      case Some(r) => Outcome(Response(200, Found(r)), c.data)
      case None => Outcome(Response(404, Error(AnimeNotFound)), s)
  }

  /** DELETE /animes/{id}. */
  function Remove(s: seq<Record>, id: string): (o: Outcome)
    ensures o.reply.Response? && o.reply.status in {200, 404}
    ensures o.reply.status == 200 <==> exists j :: 0 <= j < |s| && HasId(s[j], id)
    ensures o.reply.status == 200 ==> |o.data| == |s| - 1
    ensures o.reply.status == 404 ==> o.data == s && o.reply.body == Error(AnimeNotFound)
  {
    var c := Delete(s, id);
    match c.result
    case Some(r) => Outcome(Response(200, Found(r)), c.data)
    case None => Outcome(Response(404, Error(AnimeNotFound)), s)
  }

  /** The request shapes the dispatch recognises, in the order it tests them. */
  predicate KnownRoute(req: Request) {
    || (req.verb == "GET" && req.pathname == CollectionPath)
    || (req.verb == "POST" && req.pathname == CollectionPath)
    || (req.verb == "PUT" && StartsWith(req.pathname, ItemPrefix))
    || (req.verb == "DELETE" && StartsWith(req.pathname, ItemPrefix))
  }

  /** The dispatch of the request callback. */
  function Route(s: seq<Record>, req: Request): (o: Outcome)
    ensures o.reply.Response? ==> o.reply.status in {200, 201, 400, 404}
    ensures o.data != s ==> o.reply.Response? && o.reply.status in {200, 201}
    ensures o.reply.Thrown? ==> req.verb in {"GET", "POST", "PUT"}
  {
    if req.verb == "GET" && req.pathname == CollectionPath then Outcome(Get(s, req.query), s)
    else if req.verb == "POST" && req.pathname == CollectionPath then Post(s, req.body)
    else if req.verb == "PUT" && StartsWith(req.pathname, ItemPrefix) then Put(s, PathId(req.pathname), req.body)
    else if req.verb == "DELETE" && StartsWith(req.pathname, ItemPrefix) then Remove(s, PathId(req.pathname))
    else Outcome(Response(404, Error(RouteNotFound)), s)
  }

  // ---------------------------------------------------------------------------
  // Properties of the dispatch

  /** With a truthy `id` query the reply depends on `id` alone: `nombre` and the body are never consulted. */
  lemma GetIdPrecedence(s: seq<Record>, q1: Query, q2: Query, b1: Value, b2: Value)
    requires QueryTruthy(q1, "id") && "id" in q2 && q2["id"] == q1["id"]
    ensures Route(s, Request("GET", CollectionPath, q1, b1)) == Route(s, Request("GET", CollectionPath, q2, b2))
  {
  }

  /** GET /animes?id=X: 200 with the first record whose id is X, else 404 "Anime not found."; no change. */
  lemma GetById(s: seq<Record>, q: Query, id: string, b: Value)
    requires "id" in q && q["id"] == Single(id) && id != ""
    ensures var o := Route(s, Request("GET", CollectionPath, q, b));
            && o.data == s
            && o.reply.Response?
            && (o.reply.status == 200 <==> exists j :: 0 <= j < |s| && HasId(s[j], id))
            && (o.reply.status == 200 ==> o.reply.body.Found? && FindById(s, id) == Some(o.reply.body.record))
            && (o.reply.status != 200 ==> o.reply == Response(404, Error(AnimeNotFound)))
  {
  }

  /**
   * GET /animes?nombre=X without a truthy `id`: 200 with exactly the matching records,
   * 404 "Anime not found." when none matches, and a TypeError when some record's
   * `nombre` is not a string; no change.
   */
  lemma GetByName(s: seq<Record>, q: Query, name: string, b: Value)
    requires !QueryTruthy(q, "id") && "nombre" in q && q["nombre"] == Single(name) && name != ""
    ensures var o := Route(s, Request("GET", CollectionPath, q, b));
            && o.data == s
            && (o.reply.Thrown? <==> exists i :: 0 <= i < |s| && !NombreIsString(s[i]))
            && (o.reply.Response? ==> (o.reply.status == 200 <==> exists i :: 0 <= i < |s| && NameMatches(s[i], name)))
            && (o.reply.Response? && o.reply.status == 200 ==> o.reply.body == Listing(FindByName(s, name).value))
            && (o.reply.Response? && o.reply.status != 200 ==> o.reply == Response(404, Error(AnimeNotFound)))
  {
  }

  /** GET /animes with neither parameter truthy: 200 and the whole collection. */
  lemma GetAll(s: seq<Record>, q: Query, b: Value)
    requires !QueryTruthy(q, "id") && !QueryTruthy(q, "nombre")
    ensures Route(s, Request("GET", CollectionPath, q, b)) == Outcome(Response(200, Listing(s)), s)
  {
  }

  /** POST /animes with all four fields truthy: 201 with the stored record, appended with the next id. */
  lemma PostCreates(s: seq<Record>, q: Query, body: Value)
    requires body.Obj? && forall k :: k in RequiredFields ==> FieldTruthy(body.fields, k)
    ensures var o := Route(s, Request("POST", CollectionPath, q, body));
            && o.reply.Response? && o.reply.status == 201 && o.reply.body.Found?
            && o.data == s + [o.reply.body.record]
            && HasId(o.reply.body.record, NewId(s))
            && o.reply.body.record.Keys == body.fields.Keys + {"id"}
            && forall k :: k in body.fields && k != "id" ==> o.reply.body.record[k] == body.fields[k]
  {
  }

  /**
   * POST or PUT with a non-null body that is not an object, or an object lacking a
   * truthy required field: 400, store untouched.
   */
  lemma IncompleteBodyRejected(s: seq<Record>, req: Request)
    requires (req.verb == "POST" && req.pathname == CollectionPath)
             || (req.verb == "PUT" && StartsWith(req.pathname, ItemPrefix))
    requires !req.body.Null?
    requires !req.body.Obj? || exists k :: k in RequiredFields && !FieldTruthy(req.body.fields, k)
    ensures Route(s, req) == Outcome(Response(400, Error(IncompleteData)), s)
  {
  }

  /** POST or PUT with the body `null`: reading `null.nombre` throws before the store is touched. */
  lemma NullBodyThrows(s: seq<Record>, req: Request)
    requires (req.verb == "POST" && req.pathname == CollectionPath)
             || (req.verb == "PUT" && StartsWith(req.pathname, ItemPrefix))
    requires req.body.Null?
    ensures Route(s, req) == Outcome(Thrown, s)
  {
  }

  /** PUT /animes/{id} with a complete body: 404 if no record has the id, else 200 with the merged record in its place. */
  lemma PutUpdates(s: seq<Record>, req: Request)
    requires req.verb == "PUT" && StartsWith(req.pathname, ItemPrefix)
    requires req.body.Obj? && forall k :: k in RequiredFields ==> FieldTruthy(req.body.fields, k)
    ensures var id := PathId(req.pathname);
            var o := Route(s, req);
            && ((forall j :: 0 <= j < |s| ==> !HasId(s[j], id)) ==> o == Outcome(Response(404, Error(AnimeNotFound)), s))
            && (FindIndex(s, id).Some? ==>
                  var i := FindIndex(s, id).value;
                  && o.reply == Response(200, Found(Merge(s[i], req.body.fields)))
                  && o.data == s[i := Merge(s[i], req.body.fields)])
  {
  }

  /** DELETE /animes/{id}: 404 if no record has the id, else 200 with the removed record, spliced out. */
  lemma DeleteRemoves(s: seq<Record>, req: Request)
    requires req.verb == "DELETE" && StartsWith(req.pathname, ItemPrefix)
    ensures var id := PathId(req.pathname);
            var o := Route(s, req);
            && ((forall j :: 0 <= j < |s| ==> !HasId(s[j], id)) ==> o == Outcome(Response(404, Error(AnimeNotFound)), s))
            && (FindIndex(s, id).Some? ==>
                  var i := FindIndex(s, id).value;
                  o == Outcome(Response(200, Found(s[i])), s[..i] + s[i + 1..]))
  {
  }

  /** Exactly the unrecognised method/path combinations get 404 "Route not found.", and they change nothing. */
  lemma UnknownRoute(s: seq<Record>, req: Request)
    ensures !KnownRoute(req) <==> Route(s, req).reply == Response(404, Error(RouteNotFound))
    ensures !KnownRoute(req) ==> Route(s, req).data == s
  {
  }

  /** Only a successful POST, PUT or DELETE changes the collection; errors and thrown TypeErrors leave it as it was. */
  lemma OnlySuccessfulWritesChange(s: seq<Record>, req: Request)
    ensures Route(s, req).data != s ==>
              && req.verb in {"POST", "PUT", "DELETE"}
              && Route(s, req).reply.Response?
              && Route(s, req).reply.status in {200, 201}
    ensures req.verb == "GET" ==> Route(s, req).data == s
  {
  }

  /** Creating then fetching by the returned id gives the created record back, when the new id was not already taken. */
  lemma PostThenGetById(s: seq<Record>, q: Query, body: Value, b: Value)
    requires body.Obj? && forall k :: k in RequiredFields ==> FieldTruthy(body.fields, k)
    requires forall j :: 0 <= j < |s| ==> !HasId(s[j], NewId(s))
    ensures var created := Route(s, Request("POST", CollectionPath, q, body));
            var fetched := Route(created.data, Request("GET", CollectionPath, map["id" := Single(NewId(s))], b));
            created.reply.Response? && created.reply.body.Found?
            && fetched.reply == Response(200, created.reply.body)
  {
  }

  /** Deleting the same path twice: 200 then 404, when exactly one record had the id. */
  lemma DeleteTwiceReplies(s: seq<Record>, req: Request)
    requires req.verb == "DELETE" && StartsWith(req.pathname, ItemPrefix)
    requires AtMostOneWithId(s, PathId(req.pathname))
    requires exists j :: 0 <= j < |s| && HasId(s[j], PathId(req.pathname))
    ensures Route(s, req).reply.Response? && Route(s, req).reply.status == 200
    ensures Route(Route(s, req).data, req).reply == Response(404, Error(AnimeNotFound))
  {
  }

  /**
   * Repeated query keys arrive as arrays: a repeated `id` gives 404; a repeated `nombre`
   * without a truthy `id` throws exactly when there is a record to test.
   */
  lemma GetRepeated(s: seq<Record>, q: Query, b: Value)
    ensures "id" in q && q["id"].Repeated? ==>
              Route(s, Request("GET", CollectionPath, q, b)) == Outcome(Response(404, Error(AnimeNotFound)), s)
    ensures !QueryTruthy(q, "id") && "nombre" in q && q["nombre"].Repeated? ==>
              && Route(s, Request("GET", CollectionPath, q, b)).data == s
              && (Route(s, Request("GET", CollectionPath, q, b)).reply.Thrown? <==> s != [])
              && (s == [] ==> Route(s, Request("GET", CollectionPath, q, b)).reply == Response(404, Error(AnimeNotFound)))
  {
  }

  /** A PUT carrying only `genero` is refused with 400: the handler demands all four fields before merging. */
  lemma PartialPutRefused(s: seq<Record>, q: Query)
    ensures Route(s, Request("PUT", "/animes/1", q, Obj(map["genero" := Str("Sci-Fi")])))
            == Outcome(Response(400, Error(IncompleteData)), s)
  {
  }

  /** The request callback, against the store object it mutates. */
  method Serve(store: AnimeStore, req: Request) returns (reply: Reply)
    modifies store
    ensures Outcome(reply, store.animeData) == Route(old(store.animeData), req)
  {
    if req.verb == "GET" && req.pathname == CollectionPath {
      reply := Get(store.animeData, req.query);
    } else if req.verb == "POST" && req.pathname == CollectionPath {
      var v := Validate(req.body);
      match v {
        case Throws => reply := Thrown;
        case Incomplete => reply := Response(400, Error(IncompleteData));
        case Complete(m) =>
          var added := store.AddAnime(m);
          reply := Response(201, Found(added));
      }
    } else if req.verb == "PUT" && StartsWith(req.pathname, ItemPrefix) {
      var id := PathId(req.pathname);
      var v := Validate(req.body);
      match v {
        case Throws => reply := Thrown;
        case Incomplete => reply := Response(400, Error(IncompleteData));
        case Complete(m) =>
          var updated := store.UpdateAnime(id, m);
          if updated.Some? {
            reply := Response(200, Found(updated.value));
          } else {
            reply := Response(404, Error(AnimeNotFound));
          }
      }
    } else if req.verb == "DELETE" && StartsWith(req.pathname, ItemPrefix) {
      var id := PathId(req.pathname);
      var deleted := store.DeleteAnime(id);
      if deleted.Some? {
        reply := Response(200, Found(deleted.value));
      } else {
        reply := Response(404, Error(AnimeNotFound));
      }
    } else {
      reply := Response(404, Error(RouteNotFound));
    }
  }
}
