/**
 * The PGVector repository adapter
 * (src/infrastructure/adapters/pgvector_repository.py) over an abstract
 * store. The store maps each collection name to the rows of that collection
 * in insertion order; a row is the framework document that was embedded (its
 * vector and generated id are not modelled). Each operation returns the new
 * store together with its Python return value. The adapter works on one
 * collection, the configured `pg_vector_collection_name`, passed here as
 * `collection`.
 */
module PgVector {
  import opened Optional
  import opened Entities
  import Text
  import RepositoryPort

  type Store = map<string, seq<LangchainDocument>>

  /** A store after an operation, with the operation's return value. */
  datatype StoreResult<+T> = StoreResult(store: Store, value: T)

  /** The rows of a collection; a collection that does not exist has none. */
  function Rows(store: Store, collection: string): seq<LangchainDocument> {
    if collection in store then store[collection] else []
  }

  /** The repository's contents as the port sees them: one chunk per row. */
  function View(store: Store, collection: string): (v: seq<DocumentChunk>)
    ensures |v| == |Rows(store, collection)|
    ensures forall i :: 0 <= i < |v| ==> v[i] == ToChunk(Rows(store, collection)[i])
  {
    var rows := Rows(store, collection);
    seq(|rows|, i requires 0 <= i < |rows| => ToChunk(rows[i]))
  }

  /** Every collection other than `collection` is the same in both stores. */
  ghost predicate OthersUnchanged(before: Store, after: Store, collection: string) {
    forall name :: name != collection ==>
      && (name in before <==> name in after)
      && (name in before ==> before[name] == after[name])
  }

  /** The list comprehension that turns chunks into framework documents:
      one per chunk, same content and metadata, same order. */
  function ToRows(chunks: seq<DocumentChunk>): (rows: seq<LangchainDocument>)
    ensures |rows| == |chunks|
    ensures forall i :: 0 <= i < |rows| ==>
      rows[i].pageContent == chunks[i].content && rows[i].metadata == chunks[i].metadata
  {
    seq(|chunks|, i requires 0 <= i < |chunks| => ToLangchain(chunks[i]))
  }

  /** `add_documents(chunks, clear_existing)`. With `clear_existing` the
      collection is dropped and recreated holding exactly the new rows (rows
      from every source are gone); otherwise the new rows are appended. Either
      way the number of chunks is returned and no other collection changes. */
  function AddDocuments(
    store: Store, collection: string, chunks: seq<DocumentChunk>,
    clearExisting: bool := RepositoryPort.DefaultClearExisting): (r: StoreResult<int>)
    ensures r.value == |chunks|
    ensures collection in r.store
    ensures clearExisting ==> r.store[collection] == ToRows(chunks)
    ensures !clearExisting ==> r.store[collection] == Rows(store, collection) + ToRows(chunks)
    ensures OthersUnchanged(store, r.store, collection)
  {
    var rows := ToRows(chunks);
    if clearExisting then
      StoreResult(store[collection := rows], |chunks|)
    else
      StoreResult(store[collection := Rows(store, collection) + rows], |chunks|)
  }

  /** The store's choice of nearest neighbours for one query, as row indices in
      rank order: distinct rows of the collection, at most `k` of them. The
      ranking itself (embedding and cosine distance) is the store's business. */
  predicate IsSelection(hits: seq<nat>, rowCount: nat, k: nat) {
    && |hits| <= k
    && (forall i :: 0 <= i < |hits| ==> hits[i] < rowCount)
    && (forall i, j :: 0 <= i < j < |hits| ==> hits[i] != hits[j])
  }

  /** `search(query, k)`: each hit becomes one chunk with the row's content
      and metadata, in the store's order. */
  function Search(
    store: Store, collection: string, query: string, hits: seq<nat>,
    k: nat := RepositoryPort.DefaultK as nat): (found: seq<DocumentChunk>)
    requires IsSelection(hits, |Rows(store, collection)|, k)
    ensures |found| == |hits| <= k
    ensures forall i :: 0 <= i < |found| ==>
      && found[i].content == Rows(store, collection)[hits[i]].pageContent
      && found[i].metadata == Rows(store, collection)[hits[i]].metadata
  {
    var rows := Rows(store, collection);
    seq(|hits|, i requires 0 <= i < |hits| => ToChunk(rows[hits[i]]))
  }

  /** The text PostgreSQL's `->>` operator yields for a JSON value; JSON null
      yields SQL NULL, which equals nothing. */
  function JsonText(v: Value): Option<string> {
    match v
    case Str(s) => Some(s)
    case Int(i) => Some(Text.IntToString(i))
    case Bool(b) => Some(if b then "true" else "false")
    case Null => None
  }

  /** The row filter of the DELETE statement: `cmetadata->>'source_file' = :source_file`. */
  predicate Matches(row: LangchainDocument, source: string) {
    SourceFileKey in row.metadata && JsonText(row.metadata[SourceFileKey]) == Some(source)
  }

  /** The number of rows from `source`. */
  function CountMatching(rows: seq<LangchainDocument>, source: string): nat {
    if |rows| == 0 then 0
    else (if Matches(rows[0], source) then 1 else 0) + CountMatching(rows[1..], source)
  }

  /** The rows a DELETE of `source` leaves, in their original order, taken
      one row at a time. */
  function Filter(rows: seq<LangchainDocument>, source: string): seq<LangchainDocument> {
    if |rows| == 0 then []
    else (if Matches(rows[0], source) then [] else [rows[0]]) + Filter(rows[1..], source)
  }

  /** The filter removes every copy of a matching row, keeps every copy of
      any other row, and removes one row per match. */
  lemma {:induction false} FilterCounts(rows: seq<LangchainDocument>, source: string)
    ensures |Filter(rows, source)| + CountMatching(rows, source) == |rows|
    ensures forall d :: multiset(Filter(rows, source))[d] ==
                          if Matches(d, source) then 0 else multiset(rows)[d]
    ensures forall d :: d in Filter(rows, source) ==> d in rows && !Matches(d, source)
    ensures forall d :: d in rows && !Matches(d, source) ==> d in Filter(rows, source)
    decreases |rows|
  {
    if |rows| > 0 {
      FilterCounts(rows[1..], source);
      assert rows == [rows[0]] + rows[1..];
    }
    var kept := Filter(rows, source);
    forall d | d in kept
      ensures d in rows && !Matches(d, source)
    {
      assert d in multiset(kept);
    }
    forall d | d in rows && !Matches(d, source)
      ensures d in kept
    {
      assert d in multiset(rows);
    }
  }

  /** The rows a DELETE of `source` leaves, in their original order: no copy
      of a matching row, every copy of every other row, and one row fewer for
      every match. */
  function Keep(rows: seq<LangchainDocument>, source: string): (kept: seq<LangchainDocument>)
    ensures |kept| + CountMatching(rows, source) == |rows|
    ensures forall d :: d in kept ==> d in rows && !Matches(d, source)
    ensures forall d :: d in rows && !Matches(d, source) ==> d in kept
    ensures forall d :: multiset(kept)[d] == if Matches(d, source) then 0 else multiset(rows)[d]
  {
    FilterCounts(rows, source);
    Filter(rows, source)
  }

  /** `delete_by_source(source_file)`. When the collection does not exist the
      store is untouched and 0 is returned. Otherwise exactly the rows of the
      collection whose `source_file` matches are removed, in place, and their
      number is returned; rows without `source_file` and rows of other
      collections are untouched. */
  function DeleteBySource(store: Store, collection: string, source: string): (r: StoreResult<int>)
    ensures collection !in store ==> r == StoreResult(store, 0)
    ensures r.value == CountMatching(Rows(store, collection), source)
    ensures forall d :: d in Rows(r.store, collection) ==> d in Rows(store, collection) && !Matches(d, source)
    ensures forall d :: d in Rows(store, collection) && !Matches(d, source) ==> d in Rows(r.store, collection)
    ensures forall d ::
              multiset(Rows(r.store, collection))[d] ==
              if Matches(d, source) then 0 else multiset(Rows(store, collection))[d]
    ensures |Rows(r.store, collection)| == |Rows(store, collection)| - r.value
    ensures collection in r.store <==> collection in store
    ensures OthersUnchanged(store, r.store, collection)
  {
    if collection !in store then StoreResult(store, 0)
    else
      var rows := store[collection];
      var kept := Keep(rows, source);
      StoreResult(store[collection := kept], |rows| - |kept|)
  }

  /** A sequence with no matching row is left whole. */
  lemma KeepNoMatch(rows: seq<LangchainDocument>, source: string)
    requires forall i :: 0 <= i < |rows| ==> !Matches(rows[i], source)
    ensures Keep(rows, source) == rows
  {
    FilterNoMatch(rows, source);
  }

  /** The row-by-row filter leaves a sequence with no matching row whole. */
  lemma {:induction false} FilterNoMatch(rows: seq<LangchainDocument>, source: string)
    requires forall i :: 0 <= i < |rows| ==> !Matches(rows[i], source)
    ensures Filter(rows, source) == rows
    decreases |rows|
  {
    if |rows| > 0 {
      FilterNoMatch(rows[1..], source);
      assert rows == [rows[0]] + rows[1..];
    }
  }

  /** Filtering distributes over concatenation. */
  lemma KeepAppend(a: seq<LangchainDocument>, b: seq<LangchainDocument>, source: string)
    ensures Keep(a + b, source) == Keep(a, source) + Keep(b, source)
  {
    FilterAppend(a, b, source);
  }

  /** The row-by-row filter distributes over concatenation. */
  lemma {:induction false} FilterAppend(a: seq<LangchainDocument>, b: seq<LangchainDocument>, source: string)
    ensures Filter(a + b, source) == Filter(a, source) + Filter(b, source)
    decreases |a|
  {
    if |a| > 0 {
      assert (a + b)[0] == a[0];
      assert (a + b)[1..] == a[1..] + b;
      FilterAppend(a[1..], b, source);
    } else {
      assert a + b == b;
    }
  }

  /** Counting matches distributes over concatenation. */
  lemma {:induction false} CountMatchingAppend(a: seq<LangchainDocument>, b: seq<LangchainDocument>, source: string)
    ensures CountMatching(a + b, source) == CountMatching(a, source) + CountMatching(b, source)
    decreases |a|
  {
    if |a| > 0 {
      assert (a + b)[0] == a[0];
      assert (a + b)[1..] == a[1..] + b;
      CountMatchingAppend(a[1..], b, source);
    } else {
      assert a + b == b;
    }
  }

  /** A sequence whose every row matches is removed entirely. */
  lemma KeepAllMatch(rows: seq<LangchainDocument>, source: string)
    requires forall i :: 0 <= i < |rows| ==> Matches(rows[i], source)
    ensures Keep(rows, source) == [] && CountMatching(rows, source) == |rows|
  {
    FilterAllMatch(rows, source);
  }

  /** The row-by-row filter removes a sequence whose every row matches, and
      counts every row. */
  lemma {:induction false} FilterAllMatch(rows: seq<LangchainDocument>, source: string)
    requires forall i :: 0 <= i < |rows| ==> Matches(rows[i], source)
    ensures Filter(rows, source) == [] && CountMatching(rows, source) == |rows|
    decreases |rows|
  {
    if |rows| > 0 {
      FilterAllMatch(rows[1..], source);
    }
  }

  /** Deleting the same source twice: the second call removes nothing and
      leaves the store as the first call left it. */
  lemma DeleteBySourceIdempotent(store: Store, collection: string, source: string)
    ensures var first := DeleteBySource(store, collection, source);
      DeleteBySource(first.store, collection, source) == StoreResult(first.store, 0)
  {
    var first := DeleteBySource(store, collection, source);
    if collection in store {
      var kept := first.store[collection];
      assert kept == Keep(store[collection], source);
      assert forall i :: 0 <= i < |kept| ==> kept[i] in kept;
      DeleteNothing(first.store, collection, source);
    }
  }

  /** A collection holding nothing from `source` is left as it is. */
  lemma DeleteNothing(store: Store, collection: string, source: string)
    requires collection in store
    requires forall i :: 0 <= i < |store[collection]| ==> !Matches(store[collection][i], source)
    ensures DeleteBySource(store, collection, source) == StoreResult(store, 0)
  {
    KeepNoMatch(store[collection], source);
    assert store[collection := store[collection]] == store;
  }

  /** Filtering rows with no match followed by rows that all match keeps
      exactly the first part. */
  lemma KeepMatchingSuffix(head: seq<LangchainDocument>, tail: seq<LangchainDocument>, source: string)
    requires forall i :: 0 <= i < |head| ==> !Matches(head[i], source)
    requires forall i :: 0 <= i < |tail| ==> Matches(tail[i], source)
    ensures Keep(head + tail, source) == head
    ensures CountMatching(head + tail, source) == |tail|
  {
    KeepAppend(head, tail, source);
    CountMatchingAppend(head, tail, source);
    KeepNoMatch(head, source);
    KeepAllMatch(tail, source);
  }

  /** Deletion undoes an append: if the collection held nothing from `source`
      and every appended chunk is from `source`, deleting `source` restores
      the store and reports exactly the number of chunks appended. */
  lemma AppendThenDelete(store: Store, collection: string, chunks: seq<DocumentChunk>, source: string)
    requires collection in store
    requires forall i :: 0 <= i < |store[collection]| ==> !Matches(store[collection][i], source)
    requires forall i :: 0 <= i < |chunks| ==> Matches(ToLangchain(chunks[i]), source)
    ensures var added := AddDocuments(store, collection, chunks, false);
      DeleteBySource(added.store, collection, source) == StoreResult(store, |chunks|)
  {
    var added := AddDocuments(store, collection, chunks, false);
    var rows := ToRows(chunks);
    assert forall i :: 0 <= i < |rows| ==> Matches(rows[i], source) by {
      forall i | 0 <= i < |rows|
        ensures Matches(rows[i], source)
      {
        assert rows[i] == ToLangchain(chunks[i]);
      }
    }
    KeepMatchingSuffix(store[collection], rows, source);
    assert added.store == store[collection := store[collection] + rows];
    DeleteSuffix(store, collection, rows, source);
  }

  /** Deleting from a collection whose rows are the old rows followed by
      rows that all match gives back the old store. */
  lemma DeleteSuffix(store: Store, collection: string, rows: seq<LangchainDocument>, source: string)
    requires collection in store
    requires Keep(store[collection] + rows, source) == store[collection]
    requires CountMatching(store[collection] + rows, source) == |rows|
    ensures DeleteBySource(store[collection := store[collection] + rows], collection, source)
      == StoreResult(store, |rows|)
  {
    var added := store[collection := store[collection] + rows];
    assert added[collection := store[collection]] == store;
  }

  /** Port conformance of `add_documents`. */
  lemma AddDocumentsMeetsPort(store: Store, collection: string, chunks: seq<DocumentChunk>, clearExisting: bool)
    ensures var r := AddDocuments(store, collection, chunks, clearExisting);
      RepositoryPort.AddDocumentsContract(
        View(store, collection), chunks, clearExisting, View(r.store, collection), r.value)
  {
    var r := AddDocuments(store, collection, chunks, clearExisting);
    var expected := (if clearExisting then [] else View(store, collection)) + chunks;
    var after := View(r.store, collection);
    assert |after| == |expected|;
    forall i | 0 <= i < |after|
      ensures after[i] == expected[i]
    {
    }
  }

  /** Port conformance of `search`. */
  lemma SearchMeetsPort(store: Store, collection: string, query: string, hits: seq<nat>, k: nat)
    requires IsSelection(hits, |Rows(store, collection)|, k)
    ensures RepositoryPort.SearchContract(View(store, collection), k, Search(store, collection, query, hits, k))
  {
    var found := Search(store, collection, query, hits, k);
    var v := View(store, collection);
    forall i | 0 <= i < |found|
      ensures found[i] in v
    {
      assert found[i] == v[hits[i]];
    }
  }

  /** A chunk the port calls "from `source`" is matched by the DELETE filter,
      and one from no or another file is not. */
  lemma FilterAgreesWithPort(d: LangchainDocument, source: string)
    ensures RepositoryPort.FromSource(ToChunk(d), source) ==> Matches(d, source)
    ensures RepositoryPort.FromOtherSource(ToChunk(d), source) ==> !Matches(d, source)
  {
  }

  /** Port conformance of `delete_by_source`. */
  lemma DeleteBySourceMeetsPort(store: Store, collection: string, source: string)
    ensures var r := DeleteBySource(store, collection, source);
      RepositoryPort.DeleteBySourceContract(
        View(store, collection), source, View(r.store, collection), r.value)
  {
    var r := DeleteBySource(store, collection, source);
    var before := View(store, collection);
    var after := View(r.store, collection);
    DeleteViewCounts(store, collection, source);
    forall c | c in after
      ensures c in before && !RepositoryPort.FromSource(c, source)
      ensures multiset(after)[c] <= multiset(before)[c]
    {
      assert multiset(after)[c] > 0;
      FilterAgreesWithPort(ToLangchain(c), source);
    }
    forall c | c in before && RepositoryPort.FromOtherSource(c, source)
      ensures c in after && multiset(after)[c] == multiset(before)[c]
    {
      assert multiset(before)[c] > 0;
      FilterAgreesWithPort(ToLangchain(c), source);
    }
  }

  /** On the port's view, a delete removes every copy of a matching chunk and
      keeps every copy of any other. */
  lemma DeleteViewCounts(store: Store, collection: string, source: string)
    ensures var r := DeleteBySource(store, collection, source);
      && |View(r.store, collection)| == |View(store, collection)| - r.value
      && forall c :: multiset(View(r.store, collection))[c] ==
                       if Matches(ToLangchain(c), source) then 0 else multiset(View(store, collection))[c]
  {
    var r := DeleteBySource(store, collection, source);
    ViewCounts(store, collection);
    ViewCounts(r.store, collection);
  }

  /** Each chunk of the port's view occurs as often as its row does. */
  lemma ViewCounts(store: Store, collection: string)
    ensures forall c :: multiset(View(store, collection))[c] == multiset(Rows(store, collection))[ToLangchain(c)]
  {
    ChunkCounts(Rows(store, collection), View(store, collection));
  }

  /** Converting rows to chunks one by one keeps the number of copies of each. */
  lemma {:induction false} ChunkCounts(rows: seq<LangchainDocument>, chunks: seq<DocumentChunk>)
    requires |chunks| == |rows|
    requires forall i :: 0 <= i < |rows| ==> chunks[i] == ToChunk(rows[i])
    ensures forall c :: multiset(chunks)[c] == multiset(rows)[ToLangchain(c)]
    decreases |rows|
  {
    if |rows| > 0 {
      ChunkCounts(rows[1..], chunks[1..]);
      assert rows == [rows[0]] + rows[1..];
      assert chunks == [chunks[0]] + chunks[1..];
      forall c
        ensures multiset(chunks)[c] == multiset(rows)[ToLangchain(c)]
      {
        assert chunks[0] == c <==> rows[0] == ToLangchain(c);
      }
    }
  }

  /** Deletion is complete: once `source` is deleted, no search over the
      collection can return a chunk from it. */
  lemma SearchAfterDelete(store: Store, collection: string, source: string, query: string, hits: seq<nat>, k: nat)
    requires var r := DeleteBySource(store, collection, source);
      IsSelection(hits, |Rows(r.store, collection)|, k)
    ensures var r := DeleteBySource(store, collection, source);
      forall c :: c in Search(r.store, collection, query, hits, k) ==> !Matches(ToLangchain(c), source)
  {
    var r := DeleteBySource(store, collection, source);
    var found := Search(r.store, collection, query, hits, k);
    var rows := Rows(r.store, collection);
    forall c | c in found
      ensures !Matches(ToLangchain(c), source)
    {
      var i :| 0 <= i < |found| && found[i] == c;
      assert ToLangchain(c) == rows[hits[i]];
      assert rows[hits[i]] in rows;
    }
  }
}
