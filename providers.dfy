/**
 * Provider configuration: the provider name and the optional API key fix the
 * embedding client and the chat model once, at construction.
 */
module Providers {
  import opened Wrappers

  const OpenAIChatModel := "gpt-4o-mini"
  const OpenAITemperature := 0
  const GoogleEmbeddingModel := "models/embedding-001"
  const GoogleChatModel := "gemini-pro"

  /** The constructor's default arguments. */
  const DefaultProvider := "openai"
  const DefaultModelName := "llama3"

  /** The embedding client, with the arguments it is constructed with. */
  datatype Embeddings =
    | OpenAIEmbeddings(apiKey: string)
    | GoogleEmbeddings(model: string, googleApiKey: string)
    | OllamaEmbeddings(model: string)

  /** The chat model, with the arguments it is constructed with. */
  datatype ChatModel =
    | ChatOpenAI(model: string, temperature: int, apiKey: string)
    | ChatGoogle(model: string, googleApiKey: string)
    | ChatOllama(model: string)

  datatype Clients = Clients(embeddings: Embeddings, llm: ChatModel)

  /** The `ValueError`s the constructor raises. */
  datatype ConfigError = MissingApiKey(service: string) | UnsupportedProvider
  {
    function Message(): string
    {
      match this
      case MissingApiKey(service) => "API Key required for " + service
      case UnsupportedProvider => "Unsupported provider"
    }
  }

  /** Python's `not api_key`: both `None` and the empty string count as missing. */
  predicate KeyMissing(apiKey: Option<string>)
  {
    apiKey == None || apiKey == Some("")
  }

  /** The providers that need an API key. */
  predicate NeedsKey(provider: string)
  {
    provider == "openai" || provider == "google"
  }

  predicate Supported(provider: string)
  {
    NeedsKey(provider) || provider == "ollama"
  }

  /**
   * Reference definition of a well-formed configuration: both clients belong
   * to the named provider; the remote ones carry the caller's (non-empty)
   * key and the fixed model names, the local ones the caller's model name.
   */
  predicate Consistent(provider: string, apiKey: Option<string>, modelName: string, c: Clients)
  {
    match c.embeddings
    case OpenAIEmbeddings(key) =>
      provider == "openai" && apiKey == Some(key) && key != "" &&
      c.llm == ChatOpenAI(OpenAIChatModel, OpenAITemperature, key)
    case GoogleEmbeddings(model, key) =>
      provider == "google" && apiKey == Some(key) && key != "" &&
      model == GoogleEmbeddingModel && c.llm == ChatGoogle(GoogleChatModel, key)
    case OllamaEmbeddings(model) =>
      provider == "ollama" && model == modelName && c.llm == ChatOllama(modelName)
  }

  /**
   * The validation in the constructor: the remote providers fail without a
   * key, `ollama` needs none, and any other name is unsupported.
   */
  function Configure(provider: string, apiKey: Option<string>, modelName: string): (r: Result<Clients, ConfigError>)
    ensures r.Ok? <==> provider == "ollama" || (NeedsKey(provider) && !KeyMissing(apiKey))
    ensures r == Err(UnsupportedProvider) <==> !Supported(provider)
    ensures r.Err? && r.error.MissingApiKey? <==> NeedsKey(provider) && KeyMissing(apiKey)
    ensures r.Err? && r.error.MissingApiKey? ==>
      r.error.Message() == "API Key required for " + (if provider == "openai" then "OpenAI" else "Google")
    ensures r.Ok? ==> Consistent(provider, apiKey, modelName, r.value)
    ensures forall c :: Consistent(provider, apiKey, modelName, c) ==> r == Ok(c)
  {
    if provider == "openai" then
      if KeyMissing(apiKey) then Err(MissingApiKey("OpenAI"))
      else Ok(Clients(OpenAIEmbeddings(apiKey.value), ChatOpenAI(OpenAIChatModel, OpenAITemperature, apiKey.value)))
    else if provider == "google" then
      if KeyMissing(apiKey) then Err(MissingApiKey("Google"))
      else Ok(Clients(GoogleEmbeddings(GoogleEmbeddingModel, apiKey.value), ChatGoogle(GoogleChatModel, apiKey.value)))
    else if provider == "ollama" then
      Ok(Clients(OllamaEmbeddings(modelName), ChatOllama(modelName)))
    else
      Err(UnsupportedProvider)
  }

  /** `RAGEngine()` with every argument defaulted: no key, so OpenAI validation fails. */
  lemma DefaultsNeedKey()
    ensures Configure(DefaultProvider, None, DefaultModelName) == Err(MissingApiKey("OpenAI"))
    ensures Configure(DefaultProvider, None, DefaultModelName).error.Message() == "API Key required for OpenAI"
  {
  }

  /** With only a non-empty key given, the defaults select OpenAI with that key; the model name is unused. */
  lemma DefaultsWithKey(key: string)
    requires key != ""
    ensures Configure(DefaultProvider, Some(key), DefaultModelName) ==
            Ok(Clients(OpenAIEmbeddings(key), ChatOpenAI(OpenAIChatModel, OpenAITemperature, key)))
  {
  }
}
