/**
 * Domain entities (src/domain/entities/document.py): a chunk of text with its
 * metadata, a document as the ordered chunks one ingestion produced, and the
 * result of one question.
 */
module Entities {

  /** A metadata value: the JSON scalars the PDF loader, the splitter and the
      ingestion use case put into a chunk's metadata. */
  datatype Value = Str(s: string) | Int(i: int) | Bool(b: bool) | Null

  /** A metadata dictionary. Key order is not observable by the core. */
  type Metadata = map<string, Value>

  const SourceFileKey: string := "source_file"
  const PageKey: string := "page"

  /** `metadata.get(key)`: Python's `None` (here `Null`) when the key is absent. */
  function Get(metadata: Metadata, key: string): (v: Value)
    ensures key in metadata ==> v == metadata[key]
    ensures key !in metadata ==> v == Null
  {
    if key in metadata then metadata[key] else Null
  }

  datatype DocumentChunk = DocumentChunk(content: string, metadata: Metadata) {

    /** The provenance recorded by ingestion, or `Null` when there is none. */
    function SourceFile(): Value {
      Get(metadata, SourceFileKey)
    }

    /** The origin page index the loader recorded, or `Null` when there is none. */
    function PageNumber(): Value {
      Get(metadata, PageKey)
    }
  }

  /** `DocumentChunk(content)`: a chunk built without metadata has neither a
      source file nor a page number. */
  function NewChunk(content: string): (c: DocumentChunk)
    ensures c.content == content
    ensures c.SourceFile() == Null && c.PageNumber() == Null
  {
    DocumentChunk(content, map[])
  }

  /** The accessors read exactly the `source_file` and `page` entries. */
  lemma ChunkAccessors(c: DocumentChunk)
    ensures SourceFileKey in c.metadata ==> c.SourceFile() == c.metadata[SourceFileKey]
    ensures SourceFileKey !in c.metadata ==> c.SourceFile() == Null
    ensures PageKey in c.metadata ==> c.PageNumber() == c.metadata[PageKey]
    ensures PageKey !in c.metadata ==> c.PageNumber() == Null
  {
  }

  datatype Document = Document(name: string, chunks: seq<DocumentChunk>) {

    function ChunkCount(): (n: nat)
      ensures n == |chunks|
    {
      |chunks|
    }
  }

  /** `Document(name)`: a document built without chunks has none. */
  function NewDocument(name: string): (d: Document)
    ensures d.name == name && d.ChunkCount() == 0
  {
    Document(name, [])
  }

  datatype SearchResult = SearchResult(query: string, answer: string, sources: seq<DocumentChunk>)

  /** `SearchResult(query, answer, sources=[])`: the fields are kept as given,
      and the sources default to none. */
  function NewSearchResult(query: string, answer: string, sources: seq<DocumentChunk> := []): (r: SearchResult)
    ensures r.query == query && r.answer == answer && r.sources == sources
  {
    SearchResult(query, answer, sources)
  }

  /** The document record of the text-processing framework the loader, the
      splitter and the vector store exchange: page text plus metadata. */
  datatype LangchainDocument = LangchainDocument(pageContent: string, metadata: Metadata)

  /** The one-to-one conversions between framework documents and chunks. */
  function ToChunk(d: LangchainDocument): (c: DocumentChunk)
    ensures c.content == d.pageContent && c.metadata == d.metadata
  {
    DocumentChunk(d.pageContent, d.metadata)
  }

  function ToLangchain(c: DocumentChunk): (d: LangchainDocument)
    ensures ToChunk(d) == c
  {
    LangchainDocument(c.content, c.metadata)
  }
}
