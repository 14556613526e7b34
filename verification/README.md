# RAG orchestration core in Dafny

This project models the domain and orchestration core of a small
retrieval-augmented question-answering application over PDF documents. The
core has the following parts:

- **Domain entities.** A `DocumentChunk` is content plus metadata, with the
  accessors `source_file` and `page_number`. A `Document` is a name plus its
  chunks, with `chunk_count`. A `SearchResult` holds the query, the answer and
  the sources.
- **Repository port and PGVector adapter.** The port defines `add_documents`,
  `search` and `delete_by_source`. The adapter runs them over an abstract
  store. The store maps a collection name to its rows in insertion order, and
  each row is a framework document (content plus metadata).
- **Ingestion use case.** It derives the source name, rejects a PDF with no
  pages, splits it, stamps `source_file` on every chunk, and calls
  `add_documents` once. An `InvalidDocumentError` passes through unchanged;
  any other error is wrapped as an `IngestionError`.
- **Search use case.** `format_docs` builds the tagged context. The prompt
  template has two slots. The chain asks the language model, `execute` pairs
  the chain's answer with a separate repository search, every failure becomes
  a `SearchError`, and `search_sync` returns only the answer.
- **Provider factory.** A cache with three optional slots: embeddings, llm
  and repository. It selects on the provider tag, raises
  `ProviderNotConfiguredError` for a missing key or an unknown tag, and clears
  all slots on `reset`.
- **Settings.** The defaults and field domains, and the rewrite of
  `postgresql://` to `postgresql+psycopg://` in the SQLAlchemy URL.

The exception classes form one datatype (`Exceptions.Error`). Each error
carries its kind, its message and the exception it was raised from. A Python
method that can raise returns `Result<T>`.

The use cases call collaborators whose code is not part of this model. These
are the PDF loader, the text splitter, the repository port's operations, the
chain's retriever and the language model. Each one is a function parameter
that returns a value or raises an error. The two stateful objects, the vector
store and the factory cache, are immutable values. Every operation on them
returns its result together with the new state. The model has no I/O, clock
or network.

The repository port is a contract over the repository's contents, viewed as
the ordered sequence of chunks it holds. Each operation's contract is a
predicate in module `RepositoryPort`, and the PGVector adapter is proved to
satisfy each one for all inputs.

Some of the code's behaviour is easy to misread. The model follows the code on these points:

- `SearchResult.sources` comes from a second, separate `repository.search`
  call. It is not the context the answer was generated from.
- `delete_by_source` compares `cmetadata->>'source_file'`, the JSON text
  rendering of the value, with the argument. So an integer `source_file` of
  5 is deleted by the argument `"5"`, and a JSON null is never deleted.
- `InvalidDocumentError` is raised only for an empty page list. A loader
  failure becomes an `IngestionError`, unless the loader itself raised an
  `InvalidDocumentError`.
- The default source name is `pdf_path.split("/")[-1]`. Only `/` separates
  path components.
- The factory cache has no lock.
- The search use case wraps every exception, including one that is already a
  `SearchError`.

## Model

| member | source | states |
|---|---|---|
| Entities.NewChunk | src/domain/entities/document.py:13-24 | a chunk built without metadata keeps its content and has neither a source file nor a page number (both None) |
| Entities.ChunkAccessors | src/domain/entities/document.py:16-24 | `source_file` is `metadata["source_file"]` and `page_number` is `metadata["page"]` when present, None otherwise |
| Entities.Document.ChunkCount | src/domain/entities/document.py:34-37 | `chunk_count` is the number of chunks |
| Entities.NewDocument | src/domain/entities/document.py:31-32 | a document built without chunks has `chunk_count == 0` and keeps its name |
| Entities.NewSearchResult | src/domain/entities/document.py:44-46 | query, answer and sources are kept as given; sources default to empty |
| Entities.ToLangchain | src/infrastructure/adapters/pgvector_repository.py:37-43 | converting a chunk to a framework document and back gives the same chunk |
| PgVector.ToRows | src/infrastructure/adapters/pgvector_repository.py:37-43 | one row per chunk, same content and metadata, same order |
| PgVector.AddDocuments | src/infrastructure/adapters/pgvector_repository.py:30-58 | returns `len(chunks)` in both modes; replace mode leaves the collection holding exactly the new rows; append mode keeps existing rows and appends; other collections unchanged |
| PgVector.AddDocumentsMeetsPort | src/domain/ports/repository.py:15-28 | the adapter's `add_documents` meets the port: existing chunks cleared first when asked, chunks added, their number returned |
| PgVector.Search | src/infrastructure/adapters/pgvector_repository.py:60-69 | each store hit becomes one chunk with the row's content and metadata, in the store's order; at most k |
| PgVector.SearchMeetsPort | src/domain/ports/repository.py:33-42 | the adapter's `search` meets the port: at most k chunks, each held by the repository |
| PgVector.Keep | src/infrastructure/adapters/pgvector_repository.py:88-93 | the DELETE leaves no copy of a matching row and every copy of every other row (counted per row value, so duplicate rows are kept as often as they occurred), and removes one row per match |
| PgVector.DeleteBySource | src/infrastructure/adapters/pgvector_repository.py:71-98 | a missing collection gives 0 and an unchanged store; otherwise every copy of a matching row of the configured collection is removed and every copy of any other row stays; the returned count is the number of rows removed; other collections untouched |
| PgVector.DeleteViewCounts | src/infrastructure/adapters/pgvector_repository.py:88-98 | on the chunks the port sees, a delete removes every copy of a matching chunk, keeps every copy of any other, and shrinks the collection by the returned count |
| PgVector.DeleteBySourceIdempotent | src/infrastructure/adapters/pgvector_repository.py:88-98 | a second delete of the same source returns 0 and changes nothing |
| PgVector.DeleteNothing | src/infrastructure/adapters/pgvector_repository.py:88-98 | deleting a source the collection holds no row from returns 0 and leaves the store as it was |
| PgVector.KeepAppend | src/infrastructure/adapters/pgvector_repository.py:88-93 | the DELETE filter distributes over concatenated row sequences |
| PgVector.CountMatchingAppend | src/infrastructure/adapters/pgvector_repository.py:88-98 | the number of rows the DELETE removes distributes over concatenated row sequences |
| PgVector.AppendThenDelete | src/infrastructure/adapters/pgvector_repository.py:54-98 | deleting a source after appending only chunks from it (into a collection holding none) restores the store and counts exactly the appended chunks |
| PgVector.FilterAgreesWithPort | src/infrastructure/adapters/pgvector_repository.py:88-93 | a chunk from the given file matches the DELETE filter; one from no file or another file does not |
| PgVector.DeleteBySourceMeetsPort | src/domain/ports/repository.py:47-55 | the adapter's `delete_by_source` meets the port: nothing from the source remains, every copy of a chunk from another source stays, no chunk gains copies, the number removed is returned |
| PgVector.SearchAfterDelete | src/infrastructure/adapters/pgvector_repository.py:60-98 | after deleting a source, no search returns a chunk from it |
| Config.Defaults | src/config/settings.py:21-41 | provider "openai" (a valid tag), collection "document_chunks", no keys, chunk_size 1000, chunk_overlap 150, retriever_k 10, llm_timeout 60 |
| Config.SqlAlchemyUrl | src/config/settings.py:43-51 | a `postgresql://` URL becomes `postgresql+psycopg://` plus the unchanged remainder, 8 characters longer; any other URL is unchanged |
| Config.SqlAlchemyUrlInverse | src/config/settings.py:49-50 | the rewrite loses nothing: the original URL is recovered from the rewritten one |
| Config.SqlAlchemyUrlIdempotent | src/config/settings.py:49-51 | rewriting a rewritten URL changes nothing |
| Text.FindFrom | src/config/settings.py:50 | `find` returns the first occurrence at or after the start, or none when there is none |
| Text.ReplaceFirst | src/config/settings.py:50 | `replace(old, new, 1)` on a string starting with `old` replaces that prefix; with no occurrence the string is unchanged |
| ProviderFactory.SelectProvider | src/infrastructure/factories/provider_factory.py:33-42 | succeeds exactly when the tag is "openai" or "google" and that provider's key is set and non-empty; otherwise ProviderNotConfiguredError, "Unknown provider: tag" for other tags |
| ProviderFactory.GetEmbeddings | src/infrastructure/factories/provider_factory.py:26-44 | a cached adapter is returned regardless of settings; otherwise the selected provider's adapter, built with its key, is cached and returned; on error the cache is unchanged |
| ProviderFactory.GetLlm | src/infrastructure/factories/provider_factory.py:47-65 | same as embeddings on the llm slot; the adapter takes the configured timeout |
| ProviderFactory.GetRepository | src/infrastructure/factories/provider_factory.py:68-76 | a cached repository is returned as is; otherwise it is built over the result of get_embeddings with the configured collection and rewritten URL, setting both slots; if embeddings fail their error is raised and the repository slot stays empty; with working embeddings the call succeeds exactly when the vector store can be constructed, and a construction error is raised as it is with the embeddings left cached |
| ProviderFactory.Reset | src/infrastructure/factories/provider_factory.py:79-83 | all three slots become empty |
| ProviderFactory.OperationsKeepCoherent | src/infrastructure/factories/provider_factory.py:67-83 | every operation keeps the invariant that a cached repository is built over the cached embeddings |
| ProviderFactory.EmbeddingsCached | src/infrastructure/factories/provider_factory.py:28-29 | after success, repeated calls return the identical adapter whatever the settings |
| ProviderFactory.LlmCached | src/infrastructure/factories/provider_factory.py:49-50 | after success, repeated calls return the identical adapter whatever the settings |
| ProviderFactory.RepositoryCached | src/infrastructure/factories/provider_factory.py:70-71 | after success, repeated calls return the identical repository |
| ProviderFactory.ValidatedSettingsOnlyLackKeys | src/infrastructure/factories/provider_factory.py:33-42 | with a tag in its declared domain the only failures are missing keys |
| ProviderFactory.ProviderSwapNeedsReset | src/infrastructure/factories/provider_factory.py:79-83 | a provider switch is ignored while cached and takes effect after reset |
| Text.SplitLast | src/application/use_cases/ingest_document.py:51 | the last part of `split("/")` has no `/`, ends the path, and is the whole path or follows a `/` |
| Text.JoinSplit | src/application/use_cases/ingest_document.py:51 | joining the parts of a split with the separator gives back the string |
| IngestDocument.FileName | src/application/use_cases/ingest_document.py:50-51 | the default source name is the text after the last `/`, or the whole path when it has none |
| IngestDocument.SourceName | src/application/use_cases/ingest_document.py:50-51 | an explicit source name is kept as given; otherwise the file name |
| IngestDocument.Stamp | src/application/use_cases/ingest_document.py:65-71 | content unchanged, `source_file` set to the source name (overriding), all other metadata kept, no other key added |
| IngestDocument.StampAll | src/application/use_cases/ingest_document.py:64-71 | one stamped chunk per splitter output, in order |
| IngestDocument.Reraise | src/application/use_cases/ingest_document.py:78-81 | InvalidDocumentError passes unchanged; any other error becomes IngestionError "Failed to ingest 'path': msg" caused by it |
| IngestDocument.Ingest | src/application/use_cases/ingest_document.py:27-81 | at most one add_documents call; on success exactly one, with the returned chunks and the caller's clear_existing; empty pages give InvalidDocumentError and no call; every error is InvalidDocumentError or an IngestionError wrapping a non-InvalidDocument cause; once the splitter succeeds, add_documents is called once with the stamped chunks, and its failure is re-raised through the two-way rule |
| IngestDocument.IngestSuccess | src/application/use_cases/ingest_document.py:57-76 | a successful run returns a document whose chunks are the splitter outputs stamped in order (content and all other metadata kept), all with the source name, and `chunk_count` equal to the number of outputs |
| IngestDocument.IngestAddFailure | src/application/use_cases/ingest_document.py:73-81 | a failing add_documents, after its one call with the stamped chunks, is re-raised unchanged if InvalidDocumentError and otherwise as IngestionError caused by it |
| IngestDocument.IngestErrorTaxonomy | src/application/use_cases/ingest_document.py:53-81 | a loader or splitter error is reraised through the two-way rule and no repository call is made |
| IngestDocument.Provenance | src/application/use_cases/ingest_document.py:66-67 | with an explicit source name X, every returned chunk has `source_file == X` |
| IngestDocument.ReplaceLeavesOnlyDocument | src/application/use_cases/ingest_document.py:74-76 | a successful replacing ingestion leaves the collection holding exactly the document's chunks |
| IngestDocument.ReplaceIsIdempotent | src/application/use_cases/ingest_document.py:74 | ingesting the same document twice with clear_existing leaves the same collection as once |
| IngestDocument.AppendThenDeleteSource | src/application/use_cases/ingest_document.py:66-74 | appending a document and then deleting its source restores the store and deletes exactly `chunk_count` rows |
| SearchDocuments.RenderDefined | src/application/use_cases/search_documents.py:50 | a template formats exactly when all its placeholders have values |
| SearchDocuments.PromptSlots | src/application/use_cases/search_documents.py:17-35 | the prompt template has exactly two placeholders: contexto, then pergunta |
| SearchDocuments.RenderTwoSlots | src/application/use_cases/search_documents.py:50 | a template of two placeholders between three literal texts formats to those texts with the placeholders' values in between |
| SearchDocuments.Prompt | src/application/use_cases/search_documents.py:59-64 | the formatted context fills `contexto` and the raw query fills `pergunta`, verbatim, between the template's fixed texts |
| SearchDocuments.Blocks | src/application/use_cases/search_documents.py:53-57 | one block per document, block i holds document i's content between `<documento_id=i>` tags |
| SearchDocuments.FormatDocs | src/application/use_cases/search_documents.py:53-57 | no documents give ""; one document gives its block |
| SearchDocuments.FormatDocsAppend | src/application/use_cases/search_documents.py:54-57 | one more document appends a newline and its block, numbered by its position |
| SearchDocuments.FormatDocsIsContextOf | src/application/use_cases/search_documents.py:53-57 | format_docs equals the block-by-block definition on every input |
| Text.ParseNatToString | src/application/use_cases/search_documents.py:55 | the decimal rendering of a block index reads back as that index |
| SearchDocuments.OpeningTagsDistinct | src/application/use_cases/search_documents.py:55 | different positions get different opening tags |
| SearchDocuments.RunChain | src/application/use_cases/search_documents.py:47-69 | a retriever error comes out unchanged; otherwise the model's outcome on the prompt made of the fixed texts around the formatted retrieved documents and the query |
| SearchDocuments.SearchFailed | src/application/use_cases/search_documents.py:97-98 | every error becomes a SearchError "Search failed: msg" caused by it |
| SearchDocuments.Execute | src/application/use_cases/search_documents.py:71-98 | succeeds exactly when the search, the retriever and the model succeed; then query kept, sources are the search's output with retriever_k, answer is the model's output on the prompt built from the retriever's output with retriever_k; a failure of the search, the retriever or the model is raised as a SearchError caused by that failure |
| SearchDocuments.SearchSync | src/application/use_cases/search_documents.py:100-112 | returns execute's answer, or execute's error unchanged |

## Left out

- The PDF loader and the text splitter are library code. They are function parameters here, so nothing about chunk size, overlap or separators is modelled or proved.
- Similarity ranking and embeddings are not modelled: no vectors, no distance, no row ids. The store's choice of hits for a query is an input (`hits`). The model only requires that the hits are distinct rows of the collection and at most k of them.
- PgVector.Search: takes `k` as a natural number. A negative `k` would be passed to the database as a negative limit, and that case is not modelled. A missing collection is treated as an empty one.
- Database and network failures inside the adapter's three operations are not modelled. In the model those operations always return. In the use cases, where the repository is a parameter, such failures are modelled as raised errors.
- Creating the collection when the vector store is constructed is not modelled; the factory's repository and the store are separate models. The construction's failure is the `storeError` input of `GetRepository`.
- `get_retriever` returns a library object. The chain's retriever is a function parameter of the search use case.
- The canned refusal answer is only an instruction inside the prompt text. No code enforces it, so it cannot be proved.
- The LLM and embedding adapters are network wrappers. They appear only as the provider variant and the settings they are built from. Temperature is not modelled.
- The chain is built when the search use case is constructed. Failures of that construction are not modelled.
- Loading settings from the environment, and the settings cache, are not modelled. Field validation of the provider tag is the predicate `Config.Validated`.
- The factory has no synchronisation, so there is no concurrency to model.
- Metadata values are strings, integers, booleans and null. Floats and nested values are not modelled, and neither is key order.
- The messages of errors raised by libraries are inputs; only the use cases' own messages are modelled.
- `DocumentNotFoundError` is declared but never raised by the core.
- These parts of the repository are not part of this model: the web and CLI front ends, user authentication, the database schema scripts, the response DTOs and the launcher.
