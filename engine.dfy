/**
 * The RAGEngine object: its provider fields, fixed at construction, and the
 * vector store, which only a fully successful directory ingestion replaces.
 */
module Engine {
  import opened Wrappers
  import opened Providers
  import opened Ingestion

  const EmptyKnowledgeBaseMessage := "Knowledge Base is empty. Please load documents."

  /**
   * The retrieval QA chain ("stuff" strategy) over the store's retriever: a
   * collaborator. `Err` carries the text of an exception raised while the
   * chain is built or run, which `ask` does not catch.
   */
  type Answerer = (ChatModel, VectorStore, string) -> Result<string, string>

  class RAGEngine {
    var provider: string
    var apiKey: Option<string>
    var modelName: string
    var embeddings: Embeddings
    var llm: ChatModel
    var vectorStore: Option<VectorStore>

    /**
     * The clients are the ones validation produced from the provider fields,
     * and a store, once there is one, was embedded by this engine's client.
     */
    ghost predicate Valid()
      reads this
    {
      Configure(provider, apiKey, modelName) == Ok(Clients(embeddings, llm)) &&
      (vectorStore.Some? ==> vectorStore.value.embeddings == embeddings)
    }

    /** The field setup once validation has produced the clients; no store yet. */
    constructor (provider: string, apiKey: Option<string>, modelName: string, clients: Clients)
      requires Configure(provider, apiKey, modelName) == Ok(clients)
      ensures Valid()
      ensures this.provider == provider && this.apiKey == apiKey && this.modelName == modelName
      ensures embeddings == clients.embeddings && llm == clients.llm
      ensures vectorStore == None
    {
      this.provider := provider;
      this.apiKey := apiKey;
      this.modelName := modelName;
      embeddings := clients.embeddings;
      llm := clients.llm;
      vectorStore := None;
    }

    /**
     * `RAGEngine(api_key, provider, model_name)`: either the error the
     * constructor raises, or a fresh engine with an empty knowledge base.
     */
    static method Create(provider: string, apiKey: Option<string>, modelName: string)
      returns (r: Result<RAGEngine, ConfigError>)
      ensures r.Err? <==> Configure(provider, apiKey, modelName).Err?
      ensures r.Err? ==> r.error == Configure(provider, apiKey, modelName).error
      ensures r.Ok? ==> fresh(r.value) && r.value.Valid() && r.value.vectorStore == None
      ensures r.Ok? ==>
        r.value.provider == provider && r.value.apiKey == apiKey && r.value.modelName == modelName
    {
      var config := Configure(provider, apiKey, modelName);
      match config
      case Err(e) => r := Err(e);
      case Ok(clients) =>
        var engine := new RAGEngine(provider, apiKey, modelName, clients);
        r := Ok(engine);
    }

    /**
     * `ingest_directory(directory_path)`. Whether the path exists and what the
     * walk finds are inputs; loading, splitting and store building are
     * collaborators. The store is replaced only when both splitting and
     * building succeed; every other path leaves it as it was.
     */
    method IngestDirectory(directoryPath: string, pathExists: bool, walk: seq<WalkEntry>,
                           load: Loader, split: Splitter, build: StoreBuilder)
      returns (message: string)
      requires Valid()
      modifies this`vectorStore
      ensures Valid()
      ensures message == Render(IngestOutcome(directoryPath, pathExists, walk, load, split, build,
                                              embeddings, old(vectorStore)).0)
      ensures vectorStore == IngestOutcome(directoryPath, pathExists, walk, load, split, build,
                                           embeddings, old(vectorStore)).1
    {
      if !pathExists {
        return Render(DirectoryNotFound(directoryPath));
      }
      var allDocuments, filesProcessed := CollectDocuments(walk, load);
      ScanIsReference(Outcomes(Flatten(walk), load));
      if allDocuments == [] {
        return Render(NoDocuments);
      }
      match split(allDocuments)
      case SplitFailed(e) =>
        message := Render(StoreError(e));
      case Split(texts) =>
        match build(texts, embeddings)
        case BuildFailed(e) =>
          message := Render(StoreError(e));
        case Built =>
          vectorStore := Some(VectorStore(texts, embeddings));
          message := Render(Ingested(|texts|, filesProcessed));
    }

    /**
     * `ask(query)`: without a store the fixed empty-knowledge-base message,
     * and the chain is not consulted; otherwise the chain's answer over the
     * current store. An exception from the chain propagates to the caller,
     * as the `Err` of the result.
     */
    method Ask(query: string, qa: Answerer) returns (answer: Result<string, string>)
      ensures vectorStore == None ==> answer == Ok(EmptyKnowledgeBaseMessage)
      ensures vectorStore.Some? ==> answer == qa(llm, vectorStore.value, query)
      ensures answer.Err? <==> vectorStore.Some? && qa(llm, vectorStore.value, query).Err?
    {
      if vectorStore == None {
        return Ok(EmptyKnowledgeBaseMessage);
      }
      answer := qa(llm, vectorStore.value, query);
    }
  }

  /**
   * A caller that constructs an engine and asks at once: a valid configuration
   * gives the empty-knowledge-base message, an invalid one the constructor's
   * error, whatever the chain would have answered.
   */
  method AskBeforeIngest(provider: string, apiKey: Option<string>, modelName: string, query: string, qa: Answerer)
    returns (r: Result<string, ConfigError>)
    ensures r.Ok? <==> Configure(provider, apiKey, modelName).Ok?
    ensures r.Ok? ==> r.value == EmptyKnowledgeBaseMessage
    ensures r.Err? ==> r.error == Configure(provider, apiKey, modelName).error
  {
    var created := RAGEngine.Create(provider, apiKey, modelName);
    match created
    case Err(e) => r := Err(e);
    case Ok(engine) =>
      var answer := engine.Ask(query, qa);
      r := Ok(answer.value);
  }
}
