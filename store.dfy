/**
 * The in-memory anime collection (`animeData` in index.js) and its operations.
 *
 * The pure functions below specify each operation on the collection as a value;
 * the class `AnimeStore` holds the collection the server mutates in place, and
 * its methods are proved to agree with those functions.
 */
module Store {
  import opened Wrappers
  import opened Json
  import opened Decimal

  /** `anime.id === id`: the record's `id` property is exactly the string `id`. */
  predicate HasId(r: Record, id: string) {
    "id" in r && r["id"] == Str(id)
  }

  /** `animeData.findIndex(anime => anime.id === id)`, with `None` for -1. */
  function FindIndex(s: seq<Record>, id: string): (r: Option<nat>)
    ensures r.Some? ==> r.value < |s| && HasId(s[r.value], id)
    ensures r.Some? ==> forall j :: 0 <= j < r.value ==> !HasId(s[j], id)
    ensures r.None? <==> forall j :: 0 <= j < |s| ==> !HasId(s[j], id)
  {
    if s == [] then None
    else if HasId(s[0], id) then Some(0)
    else match FindIndex(s[1..], id)
      case None => None
      case Some(i) => Some(i + 1)
  }

  /** `findAnimeById`: the first record whose id is `id`, or `None` when no record has it. */
  function FindById(s: seq<Record>, id: string): (r: Option<Record>)
    ensures r.None? <==> forall j :: 0 <= j < |s| ==> !HasId(s[j], id)
    ensures r.Some? ==> exists i :: 0 <= i < |s| && s[i] == r.value && HasId(s[i], id)
                                  && forall j :: 0 <= j < i ==> !HasId(s[j], id)
  {
    match FindIndex(s, id)
    case None => None
    case Some(i) => Some(s[i])
  }

  /** `anime.nombre.toLowerCase()` can be evaluated only when `nombre` is a string. */
  predicate NombreIsString(r: Record) {
    "nombre" in r && r["nombre"].Str?
  }

  /** The filter condition of `findAnimesByName`. */
  predicate NameMatches(r: Record, name: string) {
    NombreIsString(r) && Lower(r["nombre"].s) == Lower(name)
  }

  /** `a` is `b` with some elements left out and the rest kept in order. */
  predicate IsSubsequence(a: seq<Record>, b: seq<Record>)
    decreases |b|
  {
    a == [] || (b != [] && ((a[0] == b[0] && IsSubsequence(a[1..], b[1..])) || IsSubsequence(a, b[1..])))
  }

  /**
   * `findAnimesByName`: the records whose lower-cased `nombre` equals the lower-cased
   * `name`, in collection order. `None` stands for the TypeError thrown when some
   * record's `nombre` is not a string (the filter callback calls `toLowerCase` on it).
   */
  function FindByName(s: seq<Record>, name: string): (r: Option<seq<Record>>)
    ensures r.None? <==> exists i :: 0 <= i < |s| && !NombreIsString(s[i])
    ensures r.Some? ==> IsSubsequence(r.value, s)
    ensures r.Some? ==> forall x :: multiset(r.value)[x] == if NameMatches(x, name) then multiset(s)[x] else 0
  {
    if s == [] then Some([])
    else if !NombreIsString(s[0]) then None
    else match FindByName(s[1..], name)
      case None => None
      case Some(rest) =>
        assert s == [s[0]] + s[1..];
        Some(if NameMatches(s[0], name) then [s[0]] + rest else rest)
  }

  /** `generateNewId`: the canonical decimal string of the collection's length plus one. */
  function NewId(s: seq<Record>): (id: string)
    ensures AllDigits(id) && ToNat(id) == |s| + 1
    ensures id[0] != '0'
  {
    ToNatFromNat(|s| + 1);
    FromNat(|s| + 1)
  }

  /** The outcome of a mutating operation: its return value (`None` for `null`) and the new collection. */
  datatype Change = Change(result: Option<Record>, data: seq<Record>)

  /** `addAnime`: assign `id` (overwriting any `id` in the body) and append the record at the end. */
  function Insert(s: seq<Record>, body: Record): (c: Change)
    ensures |c.data| == |s| + 1 && c.data[..|s|] == s
    ensures c.result == Some(c.data[|s|])
    ensures HasId(c.data[|s|], NewId(s))
    ensures c.data[|s|].Keys == body.Keys + {"id"}
    ensures forall k :: k in body && k != "id" ==> c.data[|s|][k] == body[k]
  {
    var rec := body["id" := Str(NewId(s))];
    Change(Some(rec), s + [rec])
  }

  /** `{...stored, ...updated}`: keys of `updated` win, other keys of `stored` stay. */
  function Merge(stored: Record, updated: Record): (m: Record)
    ensures m.Keys == stored.Keys + updated.Keys
    ensures forall k :: k in updated ==> m[k] == updated[k]
    ensures forall k :: k in stored && k !in updated ==> m[k] == stored[k]
  {
    stored + updated
  }

  /** `updateAnime`: merge `u` into the first record with id `id`; `null` and no change when there is none. */
  function Update(s: seq<Record>, id: string, u: Record): (c: Change)
    ensures (forall j :: 0 <= j < |s| ==> !HasId(s[j], id)) ==> c == Change(None, s)
    ensures FindIndex(s, id).Some? ==>
              var i := FindIndex(s, id).value;
              && |c.data| == |s|
              && c.data[i] == Merge(s[i], u)
              && (forall j :: 0 <= j < |s| && j != i ==> c.data[j] == s[j])
              && c.result == Some(c.data[i])
  {
    match FindIndex(s, id)
    case None => Change(None, s)
    case Some(i) => Change(Some(Merge(s[i], u)), s[i := Merge(s[i], u)])
  }

  /** `deleteAnime`: splice out the first record with id `id` and return it; `null` and no change when there is none. */
  function Delete(s: seq<Record>, id: string): (c: Change)
    ensures (forall j :: 0 <= j < |s| ==> !HasId(s[j], id)) ==> c == Change(None, s)
    ensures FindIndex(s, id).Some? ==>
              var i := FindIndex(s, id).value;
              && c.result == Some(s[i])
              && |c.data| == |s| - 1
              && (forall j :: 0 <= j < i ==> c.data[j] == s[j])
              && (forall j :: i <= j < |c.data| ==> c.data[j] == s[j + 1])
  {
    match FindIndex(s, id)
    case None => Change(None, s)
    case Some(i) => Change(Some(s[i]), s[..i] + s[i + 1..])
  }

  // ---------------------------------------------------------------------------
  // Properties of the store operations

  /** Case-variant names select the same records. */
  lemma {:induction false} FindByNameCaseInsensitive(s: seq<Record>, a: string, b: string)
    requires Lower(a) == Lower(b)
    ensures FindByName(s, a) == FindByName(s, b)
  {
    if s != [] && NombreIsString(s[0]) {
      FindByNameCaseInsensitive(s[1..], a, b);
    }
  }

  /** Searching for the lower-cased name is the same as searching for the name. */
  lemma FindByNameLowered(s: seq<Record>, name: string)
    ensures FindByName(s, Lower(name)) == FindByName(s, name)
  {
    LowerIdempotent(name);
    FindByNameCaseInsensitive(s, Lower(name), name);
  }

  /** Every found record matches, and every matching record is found. */
  lemma FindByNameExact(s: seq<Record>, name: string, x: Record)
    requires FindByName(s, name).Some?
    ensures x in FindByName(s, name).value <==> x in s && NameMatches(x, name)
  {
  }

  /** Round trip: a freshly inserted record is found again by the id it was given. */
  lemma InsertThenFind(s: seq<Record>, body: Record)
    requires forall j :: 0 <= j < |s| ==> !HasId(s[j], NewId(s))
    ensures FindById(Insert(s, body).data, NewId(s)) == Insert(s, body).result
  {
  }

  /** Deleting the id an insert just assigned undoes the insert, when that id was fresh. */
  lemma InsertThenDelete(s: seq<Record>, body: Record)
    requires forall j :: 0 <= j < |s| ==> !HasId(s[j], NewId(s))
    ensures Delete(Insert(s, body).data, NewId(s)) == Change(Insert(s, body).result, s)
  {
  }

  /** At most one record carries `id`. */
  predicate AtMostOneWithId(s: seq<Record>, id: string) {
    forall i, j :: 0 <= i < j < |s| && HasId(s[i], id) ==> !HasId(s[j], id)
  }

  /** Deleting the same id twice gives `null` the second time, unless a duplicate was present. */
  lemma DeleteTwice(s: seq<Record>, id: string)
    requires AtMostOneWithId(s, id)
    ensures Delete(Delete(s, id).data, id).result == None
  {
  }

  /** Deletion keeps every other record, in order, with its own id. */
  lemma DeleteKeepsOthers(s: seq<Record>, id: string)
    requires FindIndex(s, id).Some?
    ensures var i := FindIndex(s, id).value;
            Delete(s, id).data == s[..i] + s[i + 1..]
  {
  }

  /** The merge writes the stored id back only when the body leaves `id` alone or repeats it. */
  predicate KeepsId(u: Record, id: string) {
    "id" !in u || u["id"] == Str(id)
  }

  /** After an update that keeps the id, finding by that id returns the updated record. */
  lemma UpdateThenFind(s: seq<Record>, id: string, u: Record)
    requires KeepsId(u, id)
    ensures FindById(Update(s, id, u).data, id) == Update(s, id, u).result
  {
  }

  /** Updating twice with the same body is the same as updating once. */
  lemma UpdateIdempotent(s: seq<Record>, id: string, u: Record)
    requires KeepsId(u, id)
    ensures Update(Update(s, id, u).data, id, u) == Update(s, id, u)
  {
    var c := Update(s, id, u);
    match FindIndex(s, id)
    case None =>
    case Some(i) =>
      assert HasId(c.data[i], id);
      var k := FindIndex(c.data, id);
      assert k.Some?;
      assert k.value == i;
      assert Merge(Merge(s[i], u), u) == Merge(s[i], u);
      assert c.data[i := Merge(c.data[i], u)] == c.data;
  }

  /** A body that carries an `id` renames the stored record: the merge lets `id` through. */
  lemma UpdateCanRename()
    ensures var s := [map["id" := Str("1")]];
            var c := Update(s, "1", map["id" := Str("7")]);
            c.data == [map["id" := Str("7")]] && FindById(c.data, "1") == None
  {
    var s: seq<Record> := [map["id" := Str("1")]];
    var u: Record := map["id" := Str("7")];
    assert HasId(s[0], "1");
    assert Merge(s[0], u) == u;
    var c := Update(s, "1", u);
    assert c.data == [u];
    assert !HasId(c.data[0], "1");
  }

  // ---------------------------------------------------------------------------
  // The id policy

  /** No two records carry the same `id` value. */
  predicate UniqueIds(s: seq<Record>) {
    forall i, j :: 0 <= i < j < |s| && "id" in s[i] && "id" in s[j] ==> s[i]["id"] != s[j]["id"]
  }

  /** The ids are "1", "2", ... in collection order: the state inserts alone produce. */
  predicate SequentialIds(s: seq<Record>) {
    forall i :: 0 <= i < |s| ==> HasId(s[i], FromNat(i + 1))
  }

  /** Inserting keeps the ids sequential. */
  lemma InsertKeepsSequential(s: seq<Record>, body: Record)
    requires SequentialIds(s)
    ensures SequentialIds(Insert(s, body).data)
  {
  }

  /**
   * Sequential ids are unique, so the length-based policy never collides while the ids
   * stay "1", "2", ... in order (only inserts, from a file already in that state).
   */
  lemma SequentialIsUnique(s: seq<Record>)
    requires SequentialIds(s)
    ensures UniqueIds(s)
  {
    forall i, j | 0 <= i < j < |s| && "id" in s[i] && "id" in s[j] ensures s[i]["id"] != s[j]["id"] {
      FromNatInjective(i + 1, j + 1);
    }
  }

  /**
   * The id policy as written reissues a live id: with ids "1" and "2", deleting "1"
   * and inserting gives a second record with id "2".
   */
  lemma ReissuedIdAfterDelete(body: Record)
    ensures var s := [map["id" := Str("1")], map["id" := Str("2")]];
            var after := Insert(Delete(s, "1").data, body).data;
            |after| == 2 && HasId(after[0], "2") && HasId(after[1], "2") && !UniqueIds(after)
  {
  }

  /** The number an id denotes when it is a string of digits, else 0. */
  function NumericId(r: Record): (n: nat) {
    if "id" in r && r["id"].Str? && AllDigits(r["id"].s) then ToNat(r["id"].s) else 0
  }

  /** The largest numeric id in the collection (0 when there is none). */
  function MaxNumericId(s: seq<Record>): (m: nat)
    ensures forall i :: 0 <= i < |s| ==> NumericId(s[i]) <= m
  {
    if s == [] then 0
    else
      var rest := MaxNumericId(s[1..]);
      assert forall i :: 1 <= i < |s| ==> s[i] == s[1..][i - 1];
      if NumericId(s[0]) > rest then NumericId(s[0]) else rest
  }

  /** Corrected id policy: one more than the largest numeric id present. */
  function FreshId(s: seq<Record>): (id: string)
    ensures forall j :: 0 <= j < |s| ==> !HasId(s[j], id)
  {
    var id := FromNat(MaxNumericId(s) + 1);
    ToNatFromNat(MaxNumericId(s) + 1);
    assert forall j :: 0 <= j < |s| && HasId(s[j], id) ==> NumericId(s[j]) == MaxNumericId(s) + 1;
    id
  }

  /** `addAnime` with the corrected id policy. */
  function InsertFresh(s: seq<Record>, body: Record): (c: Change)
    ensures |c.data| == |s| + 1 && c.data[..|s|] == s
    ensures c.result == Some(c.data[|s|])
    ensures HasId(c.data[|s|], FreshId(s))
    ensures c.data[|s|].Keys == body.Keys + {"id"}
    ensures forall k :: k in body && k != "id" ==> c.data[|s|][k] == body[k]
  {
    var rec := body["id" := Str(FreshId(s))];
    Change(Some(rec), s + [rec])
  }

  /** The corrected policy keeps ids unique across any insert. */
  lemma InsertFreshKeepsUnique(s: seq<Record>, body: Record)
    requires UniqueIds(s)
    ensures UniqueIds(InsertFresh(s, body).data)
  {
  }

  /** Deleting keeps ids unique, so with the corrected policy no sequence of inserts and deletes duplicates an id. */
  lemma DeleteKeepsUnique(s: seq<Record>, id: string)
    requires UniqueIds(s)
    ensures UniqueIds(Delete(s, id).data)
  {
  }

  /** With the corrected policy the scenario above issues "3", not a second "2". */
  lemma FreshIdAfterDelete(body: Record)
    ensures var s := [map["id" := Str("1")], map["id" := Str("2")]];
            var after := InsertFresh(Delete(s, "1").data, body).data;
            |after| == 2 && HasId(after[0], "2") && HasId(after[1], "3") && UniqueIds(after)
  {
  }

  /**
   * An update whose body carries another record's id duplicates it, under either id
   * policy: the uniqueness above covers inserts and deletes only.
   */
  lemma UpdateCanDuplicateId()
    ensures var s := [map["id" := Str("1")], map["id" := Str("2")]];
            !UniqueIds(Update(s, "1", map["id" := Str("2")]).data)
  {
    var s: seq<Record> := [map["id" := Str("1")], map["id" := Str("2")]];
    var u: Record := map["id" := Str("2")];
    assert HasId(s[0], "1");
    assert Merge(s[0], u) == u;
    var d := Update(s, "1", u).data;
    assert d[0]["id"] == d[1]["id"];
  }

  // ---------------------------------------------------------------------------
  // The collection the server mutates in place

  class AnimeStore {
    var animeData: seq<Record>

    /** Start-up load: the parsed file contents, or the empty collection when the file could not be read. */
    constructor Load(contents: Option<seq<Record>>)
      ensures animeData == if contents.Some? then contents.value else []
    {
      animeData := if contents.Some? then contents.value else [];
    }

    /** `addAnime`: stamps the new id on the body and pushes it. */
    method AddAnime(newAnime: Record) returns (added: Record)
      modifies this
      ensures Change(Some(added), animeData) == Insert(old(animeData), newAnime)
    {
      added := newAnime["id" := Str(NewId(animeData))];
      animeData := animeData + [added];
    }

    /** `updateAnime`: assigns the merged record at the found index. */
    method UpdateAnime(id: string, updatedAnime: Record) returns (updated: Option<Record>)
      modifies this
      ensures Change(updated, animeData) == Update(old(animeData), id, updatedAnime)
    {
      var index := FindIndex(animeData, id);
      if index.Some? {
        var i := index.value;
        animeData := animeData[i := Merge(animeData[i], updatedAnime)];
        updated := Some(animeData[i]);
      } else {
        updated := None;
      }
    }

    /** `deleteAnime`: splices the found record out and returns it. */
    method DeleteAnime(id: string) returns (deleted: Option<Record>)
      modifies this
      ensures Change(deleted, animeData) == Delete(old(animeData), id)
    {
      var index := FindIndex(animeData, id);
      if index.Some? {
        var i := index.value;
        deleted := Some(animeData[i]);
        animeData := animeData[..i] + animeData[i + 1..];
      } else {
        deleted := None;
      }
    }
  }
}
