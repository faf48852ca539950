# Anime CRUD server: record store and request dispatch

This project models the core of a small Node.js HTTP service (`index.js`) that keeps a
list of anime records in memory and serves create/read/update/delete requests on
`/animes`. The model has two parts:

- **Store** (`store.dfy`). The collection `animeData` is a `seq<Record>`, and a record is
  a string-keyed map of JSON values (`json.dfy`). The pure functions `FindById`,
  `FindByName`, `NewId`, `Insert`, `Update` and `Delete` specify the six store functions
  of `index.js`. The class `AnimeStore` holds the collection the server mutates in place.
  Its methods `AddAnime` (push), `UpdateAnime` (assignment at the found index) and
  `DeleteAnime` (splice) are proved to agree with those functions.
- **Router** (`router.dfy`). `Route` is the dispatch of the request callback as a pure
  function of the collection and a parsed request `(verb, pathname, query, body)`. It
  returns the reply and the new collection. `Serve` is the same callback written against an
  `AnimeStore`, and it is proved equal to `Route`.

JavaScript semantics the model spells out:

- **Truthiness.** `""`, `0`, `false`, `null` and a missing property are falsy. Arrays and
  objects are truthy.
- **Strict equality.** `anime.id === id` holds only for the string `id` itself.
- **`toLowerCase`.** It is modelled for ASCII and the Latin-1 capitals.
- **`split`.** `pathname.split('/animes/')[1]` is the text after the first `/animes/`, up
  to the next `/animes/` if there is one.
- **Repeated query keys.** `url.parse(…, true)` turns a repeated key into an array.
- **Uncaught TypeErrors.** The source lets three inputs throw out of the handler, and the
  model returns `Thrown` for each:
  - a `null` body (`null.nombre`);
  - a name search that reaches a stored record whose `nombre` is not a string (for
    example one created with `nombre: 5`, which passes the truthiness check);
  - a repeated `nombre` query when the collection is not empty.

The model follows the code in these points, where its behaviour is easy to misread:

- The route is `/animes` and the fields are `nombre`, `genero`, `año` and `autor`.
- A PUT body that carries `id` overwrites the stored id, because the merge at
  index.js:119 is a plain spread. `UpdateCanRename` exhibits this.
- A PUT needs all four fields, so a partial PUT gets 400. `PartialPutRefused` shows it.
- There is no 405 reply: every unmatched request gets 404 "Route not found.".

## Model

| member | source | states |
|---|---|---|
| Json.LowerChar | index.js:64 | lower-casing maps each ASCII or Latin-1 capital 32 code points up, leaves other characters alone, and never yields a capital |
| Json.Lower | index.js:64 | the lowered name has the same length and no capitals, keeps every non-capital character, and equals the input iff the input has no capitals; `LowerChar` and `LowerIdempotent` state the rest |
| Json.LowerIdempotent | index.js:64 | lower-casing an already lower-cased name changes nothing |
| Decimal.FromNat | index.js:74 | `toString` of a natural number is a non-empty digit string that starts with '0' only for 0 |
| Decimal.ToNatFromNat | index.js:74 | reading the decimal string of n back gives n |
| Decimal.FromNatInjective | index.js:74 | different numbers get different decimal strings |
| Store.FindIndex | index.js:107 | `findIndex` gives the first position whose id is exactly `id`, and gives none exactly when no record has that id |
| Store.FindById | index.js:46-53 | `findAnimeById` returns the first record with that exact id, and returns nothing iff no record has it |
| Store.FindByName | index.js:56-66 | the result is a subsequence of the collection holding each matching record as often as the collection does and nothing else; it is a TypeError iff some record's `nombre` is not a string |
| Store.FindByNameCaseInsensitive | index.js:63-65 | names that lower-case to the same text select the same records |
| Store.FindByNameLowered | index.js:63-65 | searching for the lower-cased name equals searching for the name |
| Store.FindByNameExact | index.js:63-65 | a record is in the result iff it is in the collection and its lower-cased `nombre` equals the lower-cased name |
| Store.NewId | index.js:69-75 | the new id is the canonical decimal string of the collection length plus one |
| Store.Insert | index.js:80-96 | the length grows by one, earlier records are unchanged, and the last record is the body with `id` set to the new id and every other body key kept; that record is returned |
| Store.Merge | index.js:119 | the spread merge has the union of keys, the updated values for keys in the body, and the stored values for the other keys |
| Store.Update | index.js:101-130 | with no matching id the result is null and the collection is unchanged; otherwise only the first match is replaced, by the merge, the length is unchanged, and the new record is returned |
| Store.Delete | index.js:136-163 | with no matching id the result is null and the collection is unchanged; otherwise the first match is returned and removed, and the records after it shift down by one |
| Store.InsertThenFind | index.js:84-95 | when the new id is not already taken, finding by the returned id gives back the inserted record |
| Store.InsertThenDelete | index.js:80-96 | when the new id is not already taken, deleting by it restores the collection and returns the inserted record |
| Store.DeleteTwice | index.js:142-161 | without a duplicate id, a second delete of the same id returns null |
| Store.DeleteKeepsOthers | index.js:150 | the collection after a delete is the old one with exactly the found position spliced out |
| Store.UpdateThenFind | index.js:119-125 | when the body keeps the id, finding by it afterwards gives the updated record |
| Store.UpdateIdempotent | index.js:119 | when the body keeps the id, updating twice with the same body equals updating once |
| Store.UpdateCanDuplicateId | index.js:119 | with ids "1" and "2", a PUT merge of `{id: "2"}` into record "1" leaves two records with id "2", under either id policy |
| Store.UpdateCanRename | index.js:119 | a body with its own `id` renames the stored record, which can then no longer be found by the old id |
| Store.InsertKeepsSequential | index.js:74-89 | if the ids are "1", "2", … in order, they still are after an insert |
| Store.SequentialIsUnique | index.js:74 | sequential ids are pairwise distinct, so the length-based policy cannot collide while the ids stay "1", "2", … in order (only inserts, from a file already in that state) |
| Store.ReissuedIdAfterDelete | index.js:74 | with ids "1" and "2", deleting "1" and then inserting gives two records with id "2" |
| Store.MaxNumericId | index.js:74 | bounds every record's numeric id from above; used by the corrected id policy |
| Store.FreshId | index.js:74 | the corrected id policy yields an id that no record in the collection carries |
| Store.InsertFresh | index.js:80-96 | the corrected insert appends the body under the fresh id, keeping every other body key and value, and leaves every earlier record unchanged |
| Store.InsertFreshKeepsUnique | index.js:80-96 | the corrected insert keeps ids unique |
| Store.DeleteKeepsUnique | index.js:136-163 | deleting keeps ids unique |
| Store.FreshIdAfterDelete | index.js:74 | in the scenario that breaks the original policy, the corrected one issues "3" and the ids stay unique |
| Store.AnimeStore.Load | index.js:23-43 | the collection starts as the parsed file contents, or empty when the file could not be read |
| Store.AnimeStore.AddAnime | index.js:80-96 | sets the id, appends the record in place and returns it, exactly as `Insert` describes |
| Store.AnimeStore.UpdateAnime | index.js:101-130 | assigns the merged record at the found index, or returns null, exactly as `Update` describes |
| Store.AnimeStore.DeleteAnime | index.js:136-163 | splices the found record out and returns it, or returns null, exactly as `Delete` describes |
| Router.Segment | index.js:261 | the segment is the text of the rest of the path before its first "/animes/", or all of it when there is none |
| Router.PathId | index.js:261 | for a path starting with "/animes/", the id is the text after it up to the next "/animes/", or to the end when there is none (index.js:296 does the same) |
| Router.PathIdOfPlainSegment | index.js:261 | for "/animes/" followed by text with no further "/animes/", the id is that text |
| Router.PathIdStopsAtNextPrefix | index.js:296 | "/animes/3/animes/4" addresses id "3" |
| Router.Validate | index.js:246 | a null body throws; the check passes iff the body is an object with all four required fields truthy, and then it yields that object |
| Router.Get | index.js:195-233 | a GET /animes reply is 200 with a record or a list, or 404 "Anime not found.", or a TypeError that needs a truthy `nombre` and a non-empty store; `GetIdPrecedence`, `GetById`, `GetByName`, `GetRepeated` and `GetAll` state which |
| Router.GetIdPrecedence | index.js:201-216 | with a truthy `id` query, the reply depends on `id` alone and never on `nombre` |
| Router.GetById | index.js:202-214 | GET ?id=X gives 200 iff some record has id X, with the first such record; otherwise 404 "Anime not found."; the store is unchanged |
| Router.GetByName | index.js:216-228 | GET ?nombre=X without a truthy id gives 200 iff some record matches, with exactly the name-search result; otherwise 404 "Anime not found."; a TypeError iff some `nombre` is not a string; the store is unchanged |
| Router.GetRepeated | index.js:197-228 | a repeated `id` query gives 404 "Anime not found."; a repeated `nombre` without a truthy `id` throws iff the store is non-empty, and gives that 404 otherwise; the store is unchanged |
| Router.GetAll | index.js:229-233 | with neither parameter truthy, the reply is 200 with the whole collection |
| Router.Post | index.js:234-258 | a POST throws iff the body is `null`, otherwise replies 201 or 400; only a 201 appends, with the returned record; `PostCreates`, `IncompleteBodyRejected` and `NullBodyThrows` state which |
| Router.PostCreates | index.js:234-250 | a complete POST body gives 201 with the stored record, appended at the end under the new id, with exactly the body's keys plus `id` and the body's other values |
| Router.IncompleteBodyRejected | index.js:251-256 | a POST or PUT body that is not null and is either not an object or lacks a truthy required field gives 400 "Incomplete data. Please provide all required fields." and leaves the store untouched |
| Router.NullBodyThrows | index.js:246 | a POST or PUT body of `null` throws a TypeError before the store is touched |
| Router.Put | index.js:259-293 | a PUT throws iff the body is `null`, otherwise replies 200, 400 or 404; the length never changes, only a 200 changes the store, and a 404 means no record has the id; `PutUpdates` states the 200 |
| Router.PutUpdates | index.js:259-293 | a complete PUT gives 404 when no record has the path id; otherwise 200 with the merged record, which replaces the first match |
| Router.Remove | index.js:294-309 | a DELETE replies 200 iff some record has the id, and then the store shrinks by one; otherwise 404 "Anime not found." and no change; `DeleteRemoves` states which record goes |
| Router.DeleteRemoves | index.js:294-309 | DELETE gives 404 when no record has the path id; otherwise 200 with the first match, which is spliced out |
| Router.Route | index.js:189-315 | every written reply is 200, 201, 400 or 404, the store changes only with a 200 or 201, and only GET, POST and PUT can throw; `GetById` to `UnknownRoute` state each branch |
| Router.UnknownRoute | index.js:310-314 | exactly the unrecognised method/path pairs get 404 "Route not found.", and they change nothing |
| Router.OnlySuccessfulWritesChange | index.js:189-315 | the collection changes only on a POST, PUT or DELETE that replies 200 or 201; a GET never changes it |
| Router.PostThenGetById | index.js:234-250 | after a successful POST, GET ?id=<new id> returns the created record, provided that id was not already taken |
| Router.DeleteTwiceReplies | index.js:294-309 | deleting the same path twice gives 200 and then 404 when exactly one record had the id |
| Router.PartialPutRefused | index.js:275-292 | a PUT carrying only `genero` gets 400 and no merge happens |
| Router.Serve | index.js:189-315 | the handler, run against the store object, writes the reply and leaves the collection that `Route` specifies |

## Left out

- Loading the file (index.js:33-43) is asynchronous I/O. The model takes its outcome as the argument of `AnimeStore.Load`: the parsed array, or nothing when the read failed.
- A malformed `anime.json` is not modelled. `JSON.parse` at index.js:40 has no `try`, so it throws out of the `readFile` callback and the server process ends; the collection does not start empty.
- The model assumes the load finishes before the first request. In the source, requests served before the callback at index.js:33 runs act on `[]`, and line 40 then overwrites whatever they did.
- `saveAnimeData` (index.js:167-186) is disk I/O with an unordered callback. It does not affect the in-memory collection or the reply, so the model leaves it out.
- The HTTP transport is not modelled: `http.createServer`, `server.listen`, `res.writeHead`/`res.end`, the `Content-Type` header and the exported server. A reply is a status and a body value.
- `url.parse` is a library call. The pathname and query are inputs, and the pathname is always a string.
- Body chunk accumulation and `JSON.parse` are event-driven I/O and a library call. The body is the already-parsed value, so malformed JSON, which throws in the source, is not modelled.
- `console.log` and `console.error` have no effect on the state or the reply.
- A `Thrown` reply stands for an uncaught TypeError. What the Node.js process does next, which is to terminate, is not modelled.
- Values replace objects. `addAnime` stores the very body object it was given. Nothing mutates that object afterwards, so this aliasing has no visible effect.
- Maps have no key order, so the property order of the JSON the server writes is not modelled.
- The model assumes the loaded file holds an array of objects. Other entries, such as a `null` that would make `anime.id` throw during a search, are not modelled.
- Dafny strings hold Unicode scalar values, so a JavaScript string containing a lone UTF-16 surrogate (for example from `JSON.parse('"\ud800"')`) cannot be represented.
- `toLowerCase` is modelled for ASCII and for the Latin-1 capitals U+00C0 to U+00DE (except U+00D7). Other scripts are left out because their case mapping is large and not needed for the store's behaviour.
- JSON numbers are modelled as mathematical reals, not IEEE doubles, so a literal that overflows to `Infinity` (such as `1e400`) is not represented. Truthiness (`0` and `-0` are falsy) is the same either way.
- The `__proto__` property name, which JavaScript treats specially, is not modelled.

## Findings

| source | as written | input that shows it | evidently intended | confidence | as-written member | corrected member |
|---|---|---|---|---|---|---|
| index.js:74 | a new id is the decimal string of the collection length plus one | ids "1" and "2"; DELETE /animes/1; then POST a complete body: two records now have id "2" | ids of the records present stay unique | high (not executed) | Store.ReissuedIdAfterDelete | Store.InsertFreshKeepsUnique |

The corrected policy, `Store.FreshId`, issues one more than the largest numeric id present.
`Store.InsertFresh` is the insert that uses it. `Store.InsertFreshKeepsUnique` and
`Store.DeleteKeepsUnique` together show that no sequence of inserts and deletes then
duplicates an id. A PUT whose body carries an existing id still duplicates it under the
corrected policy (`Store.UpdateCanDuplicateId`), so the uniqueness proved covers inserts
and deletes only. `Router.Route` and `AnimeStore.AddAnime` keep the source's own policy, so that
the dispatch lemmas describe the server as it is written.
