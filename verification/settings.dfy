/**
 * Configuration (src/config/settings.py): the settings record with its
 * defaults and field domains, and the rewrite of the database URL into the
 * form the SQL toolkit's psycopg 3 driver expects.
 */
module Config {
  import opened Optional
  import Text

  const OpenAI: string := "openai"
  const Google: string := "google"

  /** The declared domain of `llm_provider`: `Literal["openai", "google"]`. */
  predicate IsKnownProvider(tag: string) {
    tag == OpenAI || tag == Google
  }

  datatype Settings = Settings(
    llmProvider: string,
    databaseUrl: string,
    pgVectorCollectionName: string,
    openaiApiKey: Option<string>,
    openaiEmbeddingModel: string,
    openaiChatModel: string,
    googleApiKey: Option<string>,
    googleEmbeddingModel: string,
    googleChatModel: string,
    chunkSize: int,
    chunkOverlap: int,
    retrieverK: int,
    llmTimeout: int)

  /** Settings that passed field validation: the provider tag is in its domain. */
  predicate Validated(s: Settings) {
    IsKnownProvider(s.llmProvider)
  }

  /** Python truthiness of an optional key: absent and empty both count as missing. */
  predicate IsSet(key: Option<string>) {
    key.Some? && key.value != ""
  }

  /** The settings when only the required `database_url` is given. */
  function Defaults(databaseUrl: string): (s: Settings)
    ensures Validated(s) && s.llmProvider == OpenAI
    ensures s.databaseUrl == databaseUrl
    ensures s.pgVectorCollectionName == "document_chunks"
    ensures s.openaiApiKey == None && s.googleApiKey == None
    ensures s.chunkSize == 1000 && s.chunkOverlap == 150
    ensures s.retrieverK == 10 && s.llmTimeout == 60
  {
    Settings(
      llmProvider := OpenAI,
      databaseUrl := databaseUrl,
      pgVectorCollectionName := "document_chunks",
      openaiApiKey := None,
      openaiEmbeddingModel := "text-embedding-3-small",
      openaiChatModel := "gpt-4o-mini",
      googleApiKey := None,
      googleEmbeddingModel := "models/embedding-001",
      googleChatModel := "gemini-2.5-flash-lite",
      chunkSize := 1000,
      chunkOverlap := 150,
      retrieverK := 10,
      llmTimeout := 60)
  }

  const PostgresScheme: string := "postgresql://"
  const PsycopgScheme: string := "postgresql+psycopg://"

  /** `sqlalchemy_database_url`: a `postgresql://` URL gets the driver-qualified
      scheme `postgresql+psycopg://` in front of its unchanged remainder, which
      makes it 8 characters longer; any other URL is returned unchanged. */
  function SqlAlchemyUrl(url: string): (r: string)
    ensures Text.StartsWith(url, PostgresScheme) ==>
      && Text.StartsWith(r, PsycopgScheme)
      && r[|PsycopgScheme|..] == url[|PostgresScheme|..]
      && |r| == |url| + 8
    ensures !Text.StartsWith(url, PostgresScheme) ==> r == url
  {
    if Text.StartsWith(url, PostgresScheme) then
      Text.ReplaceFirst(url, PostgresScheme, PsycopgScheme)
    else
      url
  }

  /** The rewrite is invertible on the URLs it changes: putting the plain
      scheme back in front of the remainder gives the original URL. */
  lemma SqlAlchemyUrlInverse(url: string)
    requires Text.StartsWith(url, PostgresScheme)
    ensures PostgresScheme + SqlAlchemyUrl(url)[|PsycopgScheme|..] == url
  {
    assert url == url[..|PostgresScheme|] + url[|PostgresScheme|..];
  }

  /** Rewriting an already rewritten URL changes nothing. */
  lemma SqlAlchemyUrlIdempotent(url: string)
    ensures SqlAlchemyUrl(SqlAlchemyUrl(url)) == SqlAlchemyUrl(url)
  {
    var r := SqlAlchemyUrl(url);
    if Text.StartsWith(url, PostgresScheme) {
      assert r[10] == PsycopgScheme[10] == '+';
      assert PostgresScheme[10] == ':';
      assert !Text.StartsWith(r, PostgresScheme);
    }
  }
}
