/**
  `databases`: list, get, create and update over the per-collection document
  lists. Each operation seeds its collection on first touch, and the seed it
  uses depends on the operation: listing uses the collection's own seed,
  getting seeds only `profiles`, creating and updating seed `[]`.
  None of them reads or writes the session.
 */
module Databases {
  import opened Js
  import opened ArrayOps
  import opened Storage
  import opened Seeds
  import opened Queries

  /** `{ documents, total }`. */
  datatype Listing = Listing(documents: seq<Doc>, total: int)

  /** `{ code: 404 }`, thrown by `getDocument`. */
  const NotFound: Thrown := Thrown(Some(404), None)

  /** `new Error('Not found')`, thrown by `updateDocument`. */
  const UpdateNotFound: Thrown := Thrown(None, Some("Not found"))

  /** The `create` id argument that asks for a generated id. */
  const GenerateId: string := "unique"

  /** The storage after `getStorage(cargo_${col}, seed)`: unchanged if the
      collection was touched before, otherwise holding `seed` under its key. */
  predicate SeededFrom(st: Store, col: string, seed: seq<Doc>, after: Store)
  {
    && after.session == st.session
    && (CollectionKey(col) in st.kv ==> after == st)
    && (CollectionKey(col) !in st.kv ==> after.kv == st.kv[CollectionKey(col) := seed])
  }

  /** Index `i` holds the first document of `docs` with id `id`. */
  predicate FirstWithId(docs: seq<Doc>, id: string, i: int)
  {
    0 <= i < |docs| && HasId(docs[i], id) && forall j :: 0 <= j < i ==> !HasId(docs[j], id)
  }

  /** `docs.findIndex(d => d.$id === id)`. */
  function IndexOfId(docs: seq<Doc>, id: string): (i: int)
    ensures i == -1 <==> forall j :: 0 <= j < |docs| ==> !HasId(docs[j], id)
    ensures i != -1 ==> FirstWithId(docs, id, i)
  {
    FindIndex(docs, d => HasId(d, id))
  }

  /** `listDocuments(db, col, queries)`. */
  function ListDocuments(st: Store, seeds: Seeds, col: string, queries: seq<Query>): (r: Step<Listing>)
    ensures SeededFrom(st, col, ListSeed(seeds, col), r.after)
    ensures CollectionKey(col) in r.after.kv
    ensures r.out.documents == Filter(Current(r.after, col), d => Admits(queries, d))
    ensures r.out.total == |r.out.documents|
  {
    var (data, kv) := GetStorage(st.kv, CollectionKey(col), ListSeed(seeds, col));
    var documents := Evaluate(data, queries);
    Step(Listing(documents, |documents|), st.(kv := kv))
  }

  /** `getDocument(db, col, id)`: the first document with that id, or 404. */
  function GetDocument(st: Store, seeds: Seeds, col: string, id: string): (r: Step<Result<Doc>>)
    ensures SeededFrom(st, col, GetSeed(seeds, col), r.after)
    ensures CollectionKey(col) in r.after.kv
    ensures r.out.Err? <==> forall i :: 0 <= i < |Current(r.after, col)| ==> !HasId(Current(r.after, col)[i], id)
    ensures r.out.Err? ==> r.out.error == NotFound
    ensures r.out.Ok? ==> var i := IndexOfId(Current(r.after, col), id);
                          FirstWithId(Current(r.after, col), id, i) && r.out.value == Current(r.after, col)[i]
  {
    var (data, kv) := GetStorage(st.kv, CollectionKey(col), GetSeed(seeds, col));
    var after := st.(kv := kv);
    var index := IndexOfId(data, id);
    assert data == Current(after, col);
    if index == -1 then Step(Err(NotFound), after)
    else Step(Ok(data[index]), after)
  }

  /** The new document of `createDocument`: `{ $id, ...data }`, where `$id`
      is `freshId` when the id argument is `'unique'` and the argument
      itself otherwise. */
  function NewDocument(id: string, data: Doc, freshId: string): (r: Doc)
    ensures r.Keys == data.Keys + {"$id"}
    ensures forall k :: k in data ==> r[k] == data[k]
    ensures "$id" !in data ==> r["$id"] == Str(if id == GenerateId then freshId else id)
  {
    Spread(map["$id" := Str(if id == GenerateId then freshId else id)], data)
  }

  /** `createDocument(db, col, id, data)`, with `freshId` standing for what
      `ID.unique()` would return. No check for an existing id. */
  function CreateDocument(st: Store, col: string, id: string, data: Doc, freshId: string): (r: Step<Doc>)
    ensures r.after.session == st.session
    ensures r.after.kv.Keys == st.kv.Keys + {CollectionKey(col)}
    ensures forall k :: k in st.kv && k != CollectionKey(col) ==> r.after.kv[k] == st.kv[k]
    ensures Current(r.after, col) == [r.out] + StoredOrEmpty(st, col)
    ensures r.out == NewDocument(id, data, freshId)
  {
    var (current, kv) := GetStorage(st.kv, CollectionKey(col), []);
    var newDoc := NewDocument(id, data, freshId);
    Step(newDoc, st.(kv := SetStorage(kv, CollectionKey(col), [newDoc] + current)))
  }

  /** `updateDocument(db, col, id, patch)`: overlays `patch` on the first
      document with that id; throws `Not found` when there is none, after
      having seeded the collection with `[]`. */
  function UpdateDocument(st: Store, col: string, id: string, patch: Doc): (r: Step<Result<Doc>>)
    ensures r.after.session == st.session
    ensures CollectionKey(col) in r.after.kv
    ensures r.out.Err? <==> forall i :: 0 <= i < |StoredOrEmpty(st, col)| ==> !HasId(StoredOrEmpty(st, col)[i], id)
    ensures r.out.Err? ==> r.out.error == UpdateNotFound && SeededFrom(st, col, [], r.after)
    ensures r.out.Ok? ==>
              var before, stored := StoredOrEmpty(st, col), Current(r.after, col);
              && |stored| == |before|
              && var i := IndexOfId(before, id);
                 && FirstWithId(before, id, i)
                 && stored[i] == Spread(before[i], patch)
                 && r.out.value == stored[i]
                 && forall j :: 0 <= j < |before| && j != i ==> stored[j] == before[j]
    ensures r.out.Ok? ==> r.after.kv.Keys == st.kv.Keys + {CollectionKey(col)} &&
                          forall k :: k in st.kv && k != CollectionKey(col) ==> r.after.kv[k] == st.kv[k]
  {
    var (current, kv) := GetStorage(st.kv, CollectionKey(col), []);
    var index := IndexOfId(current, id);
    assert current == StoredOrEmpty(st, col);
    if index == -1 then
      Step(Err(UpdateNotFound), st.(kv := kv))
    else
      var merged := Spread(current[index], patch);
      var updated := current[index := merged];
      Step(Ok(updated[index]), st.(kv := SetStorage(kv, CollectionKey(col), updated)))
  }

  /** Listing seeds at most once: a second listing, with any queries, writes
      nothing, and with the same queries returns the same documents. */
  lemma ListSeedsOnce(st: Store, seeds: Seeds, col: string, q1: seq<Query>, q2: seq<Query>)
    ensures var first := ListDocuments(st, seeds, col, q1);
            var second := ListDocuments(first.after, seeds, col, q2);
            && second.after == first.after
            && (q1 == q2 ==> second.out == first.out)
  {
  }

  /** Queries the store ignores (orderings and limits on keys other than
      `driverId` and `role`) can be inserted anywhere without changing the
      listing or the storage. */
  lemma ListIgnoresOrderAndLimit(st: Store, seeds: Seeds, col: string,
                                 a: seq<Query>, extra: seq<Query>, b: seq<Query>)
    requires forall i :: 0 <= i < |extra| ==> Ignored(extra[i])
    ensures ListDocuments(st, seeds, col, a + extra + b) == ListDocuments(st, seeds, col, a + b)
  {
    var data := GetStorage(st.kv, CollectionKey(col), ListSeed(seeds, col)).0;
    EvaluateIgnores(data, a, extra, b);
  }

  /** A created document heads its collection, so it is the first with its
      own id, whatever older documents share that id. */
  lemma CreatedIsFirstWithId(st: Store, col: string, id: string, data: Doc, freshId: string, x: string)
    requires HasId(NewDocument(id, data, freshId), x)
    ensures var created := CreateDocument(st, col, id, data, freshId);
            IndexOfId(Current(created.after, col), x) == 0
  {
    var created := CreateDocument(st, col, id, data, freshId);
    assert FirstWithId(Current(created.after, col), x, 0);
  }

  /** A created document is what `getDocument` then returns for its id, even
      when an older document has the same id, and the lookup writes nothing. */
  lemma CreateThenGet(st: Store, seeds: Seeds, col: string, id: string, data: Doc, freshId: string, x: string)
    requires HasId(NewDocument(id, data, freshId), x)
    ensures var created := CreateDocument(st, col, id, data, freshId);
            GetDocument(created.after, seeds, col, x) == Step(Ok(created.out), created.after)
  {
    CreatedIsFirstWithId(st, col, id, data, freshId, x);
  }

  /** After a successful update that does not rewrite `$id`, `getDocument`
      returns the merged document. */
  lemma UpdateThenGet(st: Store, seeds: Seeds, col: string, id: string, patch: Doc)
    requires "$id" !in patch
    requires UpdateDocument(st, col, id, patch).out.Ok?
    ensures var updated := UpdateDocument(st, col, id, patch);
            GetDocument(updated.after, seeds, col, id) == Step(Ok(updated.out.value), updated.after)
  {
    var updated := UpdateDocument(st, col, id, patch);
    var before, after := StoredOrEmpty(st, col), Current(updated.after, col);
    var i := IndexOfId(before, id);
    assert HasId(after[i], id);
    forall j | 0 <= j < i ensures !HasId(after[j], id) {
      assert after[j] == before[j];
    }
    assert IndexOfId(after, id) == i;
  }
}
