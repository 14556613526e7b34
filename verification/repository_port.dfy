/**
 * The repository port (src/domain/ports/repository.py): what every document
 * repository promises its callers, stated over the repository's contents as
 * the ordered sequence of chunks it holds. Each operation's contract is a
 * predicate relating the contents before a call, the call's arguments, the
 * contents after it and its return value; an adapter meets the port when its
 * operations satisfy these predicates for all inputs.
 */
module RepositoryPort {
  import opened Entities

  /** Default number of results of `search`. */
  const DefaultK: int := 10

  /** Default of `add_documents`' `clear_existing`: append. */
  const DefaultClearExisting: bool := false

  /** `add_documents(chunks, clear_existing)`: existing documents are cleared
      first when asked, the chunks are added, and their number is returned. */
  predicate AddDocumentsContract(
    before: seq<DocumentChunk>, chunks: seq<DocumentChunk>, clearExisting: bool,
    after: seq<DocumentChunk>, count: int)
  {
    && count == |chunks|
    && after == (if clearExisting then [] else before) + chunks
  }

  /** `search(query, k)`: at most `k` chunks, each one held by the repository. */
  predicate SearchContract(stored: seq<DocumentChunk>, k: int, found: seq<DocumentChunk>) {
    && |found| <= k
    && forall i :: 0 <= i < |found| ==> found[i] in stored
  }

  /** A chunk whose recorded provenance is the file `source`. */
  predicate FromSource(c: DocumentChunk, source: string) {
    c.SourceFile() == Str(source)
  }

  /** A chunk recorded as coming from no file, or from a file other than `source`. */
  predicate FromOtherSource(c: DocumentChunk, source: string) {
    c.SourceFile() == Null || (c.SourceFile().Str? && c.SourceFile().s != source)
  }

  /** `delete_by_source(source)`: no chunk from `source` remains, chunks from
      other sources stay, nothing new appears, and the number removed is
      returned. Identical chunks are distinct records, so the promise is
      stated on the number of copies of each chunk: none from `source` (no
      such chunk is in `after`), every copy from another source, and never
      more copies than before. */
  predicate DeleteBySourceContract(
    before: seq<DocumentChunk>, source: string, after: seq<DocumentChunk>, count: int)
  {
    && count == |before| - |after|
    && (forall c :: c in after ==> c in before && !FromSource(c, source))
    && (forall c :: c in before && FromOtherSource(c, source) ==> c in after)
    && (forall c :: c in after ==> multiset(after)[c] <= multiset(before)[c])
    && (forall c :: c in before && FromOtherSource(c, source) ==> multiset(after)[c] == multiset(before)[c])
  }
}
