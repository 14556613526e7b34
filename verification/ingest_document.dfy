/**
 * The ingestion use case (src/application/use_cases/ingest_document.py):
 * name the source, load the PDF's pages, split them into chunks, stamp every
 * chunk with its provenance, hand the chunks to the repository in one call,
 * and return the document.
 *
 * The PDF loader, the text splitter and the repository's `add_documents` are
 * collaborators whose code is not part of this model: each is a function
 * parameter that either returns a value or raises an error. The run records
 * every `add_documents` call it makes.
 */
module IngestDocument {
  import opened Optional
  import opened Exceptions
  import opened Entities
  import Text
  import PgVector

  /** One call of the repository's `add_documents`. */
  datatype AddCall = AddCall(chunks: seq<DocumentChunk>, clearExisting: bool)

  /** The outcome of `execute` and the repository calls it made. */
  datatype IngestRun = IngestRun(result: Result<Document>, calls: seq<AddCall>)

  /** `pdf_path.split("/")[-1]`: the file-name part of a path. */
  function FileName(pdfPath: string): (name: string)
    ensures Text.IsTailAfterLast(pdfPath, '/', name)
  {
    Text.SplitLast(pdfPath, '/');
    Text.Last(Text.Split(pdfPath, '/'))
  }

  /** The source name: the caller's when given (even if empty), else the file name. */
  function SourceName(pdfPath: string, sourceName: Option<string>): (name: string)
    ensures sourceName.Some? ==> name == sourceName.value
    ensures sourceName.None? ==> Text.IsTailAfterLast(pdfPath, '/', name)
  {
    match sourceName
    case Some(given) => given
    case None => FileName(pdfPath)
  }

  /** One splitter output turned into a chunk: content as is, metadata copied
      with `source_file` set to the source name. */
  function Stamp(part: LangchainDocument, name: string): (c: DocumentChunk)
    ensures c.content == part.pageContent
    ensures c.SourceFile() == Str(name)
    ensures c.metadata.Keys == part.metadata.Keys + {SourceFileKey}
    ensures forall key :: key in part.metadata && key != SourceFileKey ==>
      c.metadata[key] == part.metadata[key]
  {
    DocumentChunk(part.pageContent, part.metadata[SourceFileKey := Str(name)])
  }

  /** The conversion loop over the splitter's output: one chunk per part, in order. */
  function StampAll(parts: seq<LangchainDocument>, name: string): (chunks: seq<DocumentChunk>)
    ensures |chunks| == |parts|
    ensures forall i :: 0 <= i < |chunks| ==> chunks[i] == Stamp(parts[i], name)
  {
    seq(|parts|, i requires 0 <= i < |parts| => Stamp(parts[i], name))
  }

  /** The `except` clauses: InvalidDocumentError is re-raised unchanged, any
      other error becomes an IngestionError caused by it. */
  function Reraise(pdfPath: string, e: Error): (r: Error)
    ensures e.kind == InvalidDocument ==> r == e
    ensures e.kind != InvalidDocument ==>
      r.kind == Ingestion && r.cause == Some(e)
      && r.message == "Failed to ingest '" + pdfPath + "': " + e.message
  {
    if e.kind == InvalidDocument then e
    else Error(Ingestion, "Failed to ingest '" + pdfPath + "': " + e.message, Some(e))
  }

  /** `execute(pdf_path, source_name, clear_existing)`. */
  function Ingest(
    pdfPath: string, sourceName: Option<string>, clearExisting: bool,
    load: string -> Result<seq<LangchainDocument>>,
    split: seq<LangchainDocument> -> Result<seq<LangchainDocument>>,
    add: (seq<DocumentChunk>, bool) -> Option<Error>): (run: IngestRun)
    ensures |run.calls| <= 1
    ensures run.result.Ok? ==>
      && run.result.value.name == SourceName(pdfPath, sourceName)
      && run.calls == [AddCall(run.result.value.chunks, clearExisting)]
    ensures load(pdfPath).Ok? && |load(pdfPath).value| == 0 ==>
      && run.calls == []
      && run.result == Err(Error(InvalidDocument,
                                 "PDF '" + SourceName(pdfPath, sourceName) + "' is empty", None))
    ensures run.result.Err? ==> run.result.error.kind in {InvalidDocument, Ingestion}
    ensures run.result.Err? && run.result.error.kind == Ingestion ==>
      run.result.error.cause.Some? && run.result.error.cause.value.kind != InvalidDocument
    ensures load(pdfPath).Ok? && |load(pdfPath).value| > 0 && split(load(pdfPath).value).Ok? ==>
      var chunks := StampAll(split(load(pdfPath).value).value, SourceName(pdfPath, sourceName));
      && run.calls == [AddCall(chunks, clearExisting)]
      && (add(chunks, clearExisting).Some? ==>
            run.result == Err(Reraise(pdfPath, add(chunks, clearExisting).value)))
  {
    var name := SourceName(pdfPath, sourceName);
    match load(pdfPath)
    case Err(e) => IngestRun(Err(Reraise(pdfPath, e)), [])
    case Ok(pages) =>
      if |pages| == 0 then
        IngestRun(Err(Reraise(pdfPath, Error(InvalidDocument, "PDF '" + name + "' is empty", None))), [])
      else
        match split(pages)
        case Err(e) => IngestRun(Err(Reraise(pdfPath, e)), [])
        case Ok(parts) =>
          var chunks := StampAll(parts, name);
          var call := AddCall(chunks, clearExisting);
          match add(chunks, clearExisting)
          case Some(e) => IngestRun(Err(Reraise(pdfPath, e)), [call])
          case None => IngestRun(Ok(Document(name, chunks)), [call])
  }

  /** The successful run: when the PDF has pages and the splitter and the
      repository succeed, the document holds the splitter's parts, one stamped
      chunk per part in order (so content and every other metadata key are
      kept), with `source_file` set on every one. */
  lemma IngestSuccess(
    pdfPath: string, sourceName: Option<string>, clearExisting: bool,
    load: string -> Result<seq<LangchainDocument>>,
    split: seq<LangchainDocument> -> Result<seq<LangchainDocument>>,
    add: (seq<DocumentChunk>, bool) -> Option<Error>)
    requires load(pdfPath).Ok? && |load(pdfPath).value| > 0
    requires split(load(pdfPath).value).Ok?
    requires add(StampAll(split(load(pdfPath).value).value, SourceName(pdfPath, sourceName)), clearExisting).None?
    ensures var run := Ingest(pdfPath, sourceName, clearExisting, load, split, add);
      var parts := split(load(pdfPath).value).value;
      var name := SourceName(pdfPath, sourceName);
      && run.result.Ok?
      && run.result.value.chunks == StampAll(parts, name)
      && run.result.value.ChunkCount() == |parts|
      && (forall i :: 0 <= i < |parts| ==>
            && run.result.value.chunks[i].content == parts[i].pageContent
            && run.result.value.chunks[i].SourceFile() == Str(name))
      && run.calls == [AddCall(run.result.value.chunks, clearExisting)]
  {
  }

  /** The error taxonomy is two-way: an error from any collaborator comes out
      unchanged if it is an InvalidDocumentError and wrapped as an
      IngestionError caused by it otherwise. */
  lemma IngestErrorTaxonomy(
    pdfPath: string, sourceName: Option<string>, clearExisting: bool,
    load: string -> Result<seq<LangchainDocument>>,
    split: seq<LangchainDocument> -> Result<seq<LangchainDocument>>,
    add: (seq<DocumentChunk>, bool) -> Option<Error>,
    e: Error)
    requires
      || load(pdfPath) == Err(e)
      || (load(pdfPath).Ok? && |load(pdfPath).value| > 0 && split(load(pdfPath).value) == Err(e))
    ensures var run := Ingest(pdfPath, sourceName, clearExisting, load, split, add);
      && run.calls == []
      && run.result == Err(Reraise(pdfPath, e))
  {
  }

  /** A failing `add_documents` is raised through the same two-way rule as
      the other collaborators' errors, after exactly one call with the
      stamped chunks. */
  lemma IngestAddFailure(
    pdfPath: string, sourceName: Option<string>, clearExisting: bool,
    load: string -> Result<seq<LangchainDocument>>,
    split: seq<LangchainDocument> -> Result<seq<LangchainDocument>>,
    add: (seq<DocumentChunk>, bool) -> Option<Error>,
    e: Error)
    requires load(pdfPath).Ok? && |load(pdfPath).value| > 0
    requires split(load(pdfPath).value).Ok?
    requires add(StampAll(split(load(pdfPath).value).value, SourceName(pdfPath, sourceName)), clearExisting) == Some(e)
    ensures var chunks := StampAll(split(load(pdfPath).value).value, SourceName(pdfPath, sourceName));
      Ingest(pdfPath, sourceName, clearExisting, load, split, add)
        == IngestRun(Err(Reraise(pdfPath, e)), [AddCall(chunks, clearExisting)])
  {
  }

  /** Every chunk of a successful ingestion records its provenance. */
  lemma Provenance(
    pdfPath: string, sourceName: string, clearExisting: bool,
    load: string -> Result<seq<LangchainDocument>>,
    split: seq<LangchainDocument> -> Result<seq<LangchainDocument>>,
    add: (seq<DocumentChunk>, bool) -> Option<Error>)
    ensures var run := Ingest(pdfPath, Some(sourceName), clearExisting, load, split, add);
      run.result.Ok? ==>
        forall c :: c in run.result.value.chunks ==> c.SourceFile() == Str(sourceName)
  {
  }

  /** The store after the calls of a run, applied in order on the configured collection. */
  function Persist(store: PgVector.Store, collection: string, calls: seq<AddCall>): PgVector.Store
    decreases |calls|
  {
    if |calls| == 0 then store
    else Persist(PgVector.AddDocuments(store, collection, calls[0].chunks, calls[0].clearExisting).store,
                 collection, calls[1..])
  }

  /** Replacing ingestion into the PGVector store: after a successful run with
      `clear_existing`, the collection holds exactly the document's chunks. */
  lemma ReplaceLeavesOnlyDocument(
    store: PgVector.Store, collection: string,
    pdfPath: string, sourceName: Option<string>,
    load: string -> Result<seq<LangchainDocument>>,
    split: seq<LangchainDocument> -> Result<seq<LangchainDocument>>,
    add: (seq<DocumentChunk>, bool) -> Option<Error>)
    ensures var run := Ingest(pdfPath, sourceName, true, load, split, add);
      run.result.Ok? ==>
        PgVector.View(Persist(store, collection, run.calls), collection) == run.result.value.chunks
  {
    var run := Ingest(pdfPath, sourceName, true, load, split, add);
    if run.result.Ok? {
      var chunks := run.result.value.chunks;
      var after := PgVector.AddDocuments(store, collection, chunks, true).store;
      assert run.calls[1..] == [];
      assert Persist(store, collection, run.calls) == after;
      PgVector.AddDocumentsMeetsPort(store, collection, chunks, true);
    }
  }

  /** Ingesting the same document twice with `clear_existing` leaves the
      collection exactly as one such ingestion does: no duplicates and no
      residue of the first pass. */
  lemma ReplaceIsIdempotent(
    store: PgVector.Store, collection: string,
    pdfPath: string, sourceName: Option<string>,
    load: string -> Result<seq<LangchainDocument>>,
    split: seq<LangchainDocument> -> Result<seq<LangchainDocument>>,
    add: (seq<DocumentChunk>, bool) -> Option<Error>)
    ensures var run := Ingest(pdfPath, sourceName, true, load, split, add);
      var once := Persist(store, collection, run.calls);
      var twice := Persist(once, collection, run.calls);
      run.result.Ok? ==> PgVector.View(twice, collection) == PgVector.View(once, collection)
  {
    var run := Ingest(pdfPath, sourceName, true, load, split, add);
    if run.result.Ok? {
      var once := Persist(store, collection, run.calls);
      ReplaceLeavesOnlyDocument(store, collection, pdfPath, sourceName, load, split, add);
      ReplaceLeavesOnlyDocument(once, collection, pdfPath, sourceName, load, split, add);
    }
  }

  /** Appending ingestion followed by `delete_by_source` of the same name
      restores the store, when the collection held nothing from that source:
      the deletion counts exactly the document's chunks. */
  lemma AppendThenDeleteSource(
    store: PgVector.Store, collection: string,
    pdfPath: string, sourceName: string,
    load: string -> Result<seq<LangchainDocument>>,
    split: seq<LangchainDocument> -> Result<seq<LangchainDocument>>,
    add: (seq<DocumentChunk>, bool) -> Option<Error>)
    requires collection in store
    requires forall i :: 0 <= i < |store[collection]| ==> !PgVector.Matches(store[collection][i], sourceName)
    ensures var run := Ingest(pdfPath, Some(sourceName), false, load, split, add);
      run.result.Ok? ==>
        PgVector.DeleteBySource(Persist(store, collection, run.calls), collection, sourceName)
          == PgVector.StoreResult(store, run.result.value.ChunkCount())
  {
    var run := Ingest(pdfPath, Some(sourceName), false, load, split, add);
    if run.result.Ok? {
      var chunks := run.result.value.chunks;
      assert run.calls[1..] == [];
      assert Persist(store, collection, run.calls)
        == PgVector.AddDocuments(store, collection, chunks, false).store;
      forall i | 0 <= i < |chunks|
        ensures PgVector.Matches(ToLangchain(chunks[i]), sourceName)
      {
        assert chunks[i].SourceFile() == Str(sourceName);
      }
      PgVector.AppendThenDelete(store, collection, chunks, sourceName);
    }
  }
}
