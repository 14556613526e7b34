/**
 * The provider factory (src/infrastructure/factories/provider_factory.py):
 * a process-wide cache with three optional slots, filled on first successful
 * use from the settings of that moment and cleared by `reset`. Every
 * operation takes the cache and the current settings and returns its result
 * together with the new cache.
 *
 * An adapter is represented by its provider variant and the settings it was
 * built from; this is what makes a cached adapter distinguishable from one
 * that current settings would build.
 */
module ProviderFactory {
  import opened Optional
  import opened Exceptions
  import Config

  /** The closed set of backends. */
  datatype Provider = OpenAIProvider | GoogleProvider

  datatype EmbeddingsAdapter =
    | OpenAIEmbeddingsAdapter(model: string, apiKey: string)
    | GoogleEmbeddingsAdapter(model: string, apiKey: string)
  {
    function Provider(): Provider {
      if OpenAIEmbeddingsAdapter? then OpenAIProvider else GoogleProvider
    }
  }

  datatype LlmAdapter =
    | OpenAILlmAdapter(model: string, apiKey: string, timeout: int)
    | GoogleLlmAdapter(model: string, apiKey: string, timeout: int)
  {
    function Provider(): Provider {
      if OpenAILlmAdapter? then OpenAIProvider else GoogleProvider
    }
  }

  /** A repository adapter: built over an embeddings adapter, bound to the
      configured collection and connection URL. */
  datatype RepositoryAdapter = PGVectorRepository(
    embeddings: EmbeddingsAdapter, collectionName: string, connection: string)

  datatype Cache = Cache(
    embeddings: Option<EmbeddingsAdapter>,
    llm: Option<LlmAdapter>,
    repository: Option<RepositoryAdapter>)

  /** The invariant every reachable cache keeps: a cached repository is built
      over the cached embeddings. */
  predicate Coherent(cache: Cache) {
    cache.repository.Some? ==> cache.embeddings == Some(cache.repository.value.embeddings)
  }

  /** The cache as the process starts, and as `reset` leaves it. */
  const EmptyCache: Cache := Cache(None, None, None)

  /** The result of one factory call and the cache it leaves. */
  datatype Step<+T> = Step(result: Result<T>, cache: Cache)

  /** The provider the settings select, when its key is set. */
  predicate Selects(settings: Config.Settings, p: Provider) {
    match p
    case OpenAIProvider => settings.llmProvider == Config.OpenAI && Config.IsSet(settings.openaiApiKey)
    case GoogleProvider => settings.llmProvider == Config.Google && Config.IsSet(settings.googleApiKey)
  }

  /** The selection both getters make: the provider named by the tag, if its
      key is set; otherwise the error naming what is missing. */
  function SelectProvider(settings: Config.Settings): (r: Result<Provider>)
    ensures r.Ok? <==> Selects(settings, OpenAIProvider) || Selects(settings, GoogleProvider)
    ensures r.Ok? ==> Selects(settings, r.value)
    ensures r.Err? ==> r.error.kind == ProviderNotConfigured && r.error.cause.None?
    ensures r.Err? && !Config.IsKnownProvider(settings.llmProvider) ==>
      r.error.message == "Unknown provider: " + settings.llmProvider
  {
    if settings.llmProvider == Config.OpenAI then
      if !Config.IsSet(settings.openaiApiKey) then
        Err(Error(ProviderNotConfigured, "OpenAI API key not configured", None))
      else Ok(OpenAIProvider)
    else if settings.llmProvider == Config.Google then
      if !Config.IsSet(settings.googleApiKey) then
        Err(Error(ProviderNotConfigured, "Google API key not configured", None))
      else Ok(GoogleProvider)
    else
      Err(Error(ProviderNotConfigured, "Unknown provider: " + settings.llmProvider, None))
  }

  /** The key of the selected provider. */
  function KeyOf(settings: Config.Settings, p: Provider): string {
    match p
    case OpenAIProvider => settings.openaiApiKey.GetOr("")
    case GoogleProvider => settings.googleApiKey.GetOr("")
  }

  /** `get_embeddings`. A filled slot is returned as is, whatever the settings
      now say. Otherwise the adapter of the selected provider is built from
      the current settings and cached; a missing key or an unknown tag raises
      ProviderNotConfiguredError and leaves the cache as it was. */
  function GetEmbeddings(cache: Cache, settings: Config.Settings): (step: Step<EmbeddingsAdapter>)
    ensures cache.embeddings.Some? ==> step == Step(Ok(cache.embeddings.value), cache)
    ensures cache.embeddings.None? ==>
      (step.result.Ok? <==> Selects(settings, OpenAIProvider) || Selects(settings, GoogleProvider))
    ensures cache.embeddings.None? && step.result.Ok? ==>
      && Selects(settings, step.result.value.Provider())
      && step.result.value.apiKey == KeyOf(settings, step.result.value.Provider())
      && step.cache == cache.(embeddings := Some(step.result.value))
    ensures step.result.Err? ==> step.result.error.kind == ProviderNotConfigured && step.cache == cache
  {
    if cache.embeddings.Some? then Step(Ok(cache.embeddings.value), cache)
    else
      match SelectProvider(settings)
      case Err(e) => Step(Err(e), cache)
      case Ok(p) =>
        var adapter := match p
          case OpenAIProvider =>
            OpenAIEmbeddingsAdapter(settings.openaiEmbeddingModel, KeyOf(settings, p))
          case GoogleProvider =>
            GoogleEmbeddingsAdapter(settings.googleEmbeddingModel, KeyOf(settings, p));
        Step(Ok(adapter), cache.(embeddings := Some(adapter)))
  }

  /** `get_llm`: the same selection and caching as `get_embeddings`, on the
      llm slot; the adapter also takes the configured timeout. */
  function GetLlm(cache: Cache, settings: Config.Settings): (step: Step<LlmAdapter>)
    ensures cache.llm.Some? ==> step == Step(Ok(cache.llm.value), cache)
    ensures cache.llm.None? ==>
      (step.result.Ok? <==> Selects(settings, OpenAIProvider) || Selects(settings, GoogleProvider))
    ensures cache.llm.None? && step.result.Ok? ==>
      && Selects(settings, step.result.value.Provider())
      && step.result.value.apiKey == KeyOf(settings, step.result.value.Provider())
      && step.result.value.timeout == settings.llmTimeout
      && step.cache == cache.(llm := Some(step.result.value))
    ensures step.result.Err? ==> step.result.error.kind == ProviderNotConfigured && step.cache == cache
  {
    if cache.llm.Some? then Step(Ok(cache.llm.value), cache)
    else
      match SelectProvider(settings)
      case Err(e) => Step(Err(e), cache)
      case Ok(p) =>
        var adapter := match p
          case OpenAIProvider =>
            OpenAILlmAdapter(settings.openaiChatModel, KeyOf(settings, p), settings.llmTimeout)
          case GoogleProvider =>
            GoogleLlmAdapter(settings.googleChatModel, KeyOf(settings, p), settings.llmTimeout);
        Step(Ok(adapter), cache.(llm := Some(adapter)))
  }

  /** `get_repository`. A filled slot is returned as is. Otherwise the
      embeddings are obtained through `get_embeddings` (and cached by it), and
      the repository is built over them, on the configured collection and the
      rewritten database URL. `storeError` is the failure, if any, of
      constructing the vector store (it connects to the database): with
      working embeddings the call succeeds exactly when there is none, and
      otherwise that error is raised as it is, with the embeddings already
      cached and the repository slot left empty. */
  function GetRepository(cache: Cache, settings: Config.Settings, storeError: Option<Error>): (step: Step<RepositoryAdapter>)
    ensures cache.repository.Some? ==> step == Step(Ok(cache.repository.value), cache)
    ensures step.result.Ok? ==>
      && step.cache.repository == Some(step.result.value)
      && step.cache.llm == cache.llm
    ensures cache.repository.None? && step.result.Ok? ==>
      && step.cache.embeddings == Some(step.result.value.embeddings)
      && GetEmbeddings(cache, settings).result == Ok(step.result.value.embeddings)
      && step.result.value.collectionName == settings.pgVectorCollectionName
      && step.result.value.connection == Config.SqlAlchemyUrl(settings.databaseUrl)
    ensures step.result.Err? ==> step.cache.repository == cache.repository && step.cache.llm == cache.llm
    ensures cache.repository.None? && GetEmbeddings(cache, settings).result.Err? ==>
      step == Step(Err(GetEmbeddings(cache, settings).result.error), cache)
    ensures cache.repository.None? && GetEmbeddings(cache, settings).result.Ok? ==>
      (step.result.Ok? <==> storeError.None?)
    ensures cache.repository.None? && GetEmbeddings(cache, settings).result.Ok? && storeError.Some? ==>
      step == Step(Err(storeError.value), GetEmbeddings(cache, settings).cache)
  {
    if cache.repository.Some? then Step(Ok(cache.repository.value), cache)
    else
      var e := GetEmbeddings(cache, settings);
      match e.result
      case Err(err) => Step(Err(err), e.cache)
      case Ok(embeddings) =>
        match storeError
        case Some(err) => Step(Err(err), e.cache)
        case None =>
          var repository := PGVectorRepository(
            embeddings, settings.pgVectorCollectionName, Config.SqlAlchemyUrl(settings.databaseUrl));
          Step(Ok(repository), e.cache.(repository := Some(repository)))
  }

  /** `reset`: every slot is emptied. */
  function Reset(cache: Cache): (r: Cache)
    ensures r.embeddings.None? && r.llm.None? && r.repository.None?
  {
    EmptyCache
  }

  /** Every operation keeps the cache coherent, and the empty cache is. */
  lemma OperationsKeepCoherent(cache: Cache, settings: Config.Settings, storeError: Option<Error>)
    requires Coherent(cache)
    ensures Coherent(GetEmbeddings(cache, settings).cache)
    ensures Coherent(GetLlm(cache, settings).cache)
    ensures Coherent(GetRepository(cache, settings, storeError).cache)
    ensures Coherent(Reset(cache))
  {
  }

  /** After a successful `get_embeddings`, a later call returns the identical
      adapter and leaves the cache alone, even if the settings have changed. */
  lemma EmbeddingsCached(cache: Cache, settings: Config.Settings, later: Config.Settings)
    requires GetEmbeddings(cache, settings).result.Ok?
    ensures var first := GetEmbeddings(cache, settings);
      GetEmbeddings(first.cache, later) == Step(first.result, first.cache)
  {
  }

  /** The same for `get_llm`. */
  lemma LlmCached(cache: Cache, settings: Config.Settings, later: Config.Settings)
    requires GetLlm(cache, settings).result.Ok?
    ensures var first := GetLlm(cache, settings);
      GetLlm(first.cache, later) == Step(first.result, first.cache)
  {
  }

  /** The same for `get_repository`: once built, the repository is returned
      again whatever the settings or the database now do. */
  lemma RepositoryCached(cache: Cache, settings: Config.Settings, storeError: Option<Error>,
                         later: Config.Settings, laterError: Option<Error>)
    requires GetRepository(cache, settings, storeError).result.Ok?
    ensures var first := GetRepository(cache, settings, storeError);
      GetRepository(first.cache, later, laterError) == Step(first.result, first.cache)
  {
  }

  /** With validated settings the "unknown provider" branch is unreachable:
      every failure is a missing key. */
  lemma ValidatedSettingsOnlyLackKeys(cache: Cache, settings: Config.Settings)
    requires Config.Validated(settings)
    ensures GetEmbeddings(cache, settings).result.Err? ==>
      GetEmbeddings(cache, settings).result.error.message in
        {"OpenAI API key not configured", "Google API key not configured"}
  {
  }

  /** Swapping providers takes a reset: with the OpenAI embeddings cached, a
      switch of the settings to Google still yields the OpenAI adapter, and
      after `reset` the same call yields the Google one. */
  lemma ProviderSwapNeedsReset(cache: Cache, before: Config.Settings, after: Config.Settings)
    requires cache.embeddings.None?
    requires Selects(before, OpenAIProvider) && Selects(after, GoogleProvider)
    ensures var first := GetEmbeddings(cache, before);
      && GetEmbeddings(first.cache, after).result.value.Provider() == OpenAIProvider
      && GetEmbeddings(Reset(first.cache), after).result.value.Provider() == GoogleProvider
  {
  }
}
