# RAG engine control logic, modelled in Dafny

This project models the control logic of `RAGEngine` in `rag_engine.py`, the
orchestrator of a retrieval-augmented question-answering chatbot, and proves
properties of it. The engine:

- validates a provider name and an optional API key at construction;
- ingests a knowledge-base directory. It walks the files, picks a loader by
  file extension, tolerates per-file load failures, and replaces the vector
  store only when splitting and store building both succeed;
- answers questions only once a vector store exists.

Document parsing, text splitting, embeddings, the Chroma store and the LLM
chain live in langchain. Here they are collaborators, passed in as function
parameters:

- `load(file, kind)`: the loader's result, or the error it raised;
- `split(documents)`: the chunks, or an error;
- `build(chunks, embeddings)`: success, or an error;
- `qa(llm, store, query)`: the answer, or the text of the exception the chain
  raised.

Two facts about the filesystem are inputs too: whether the path exists, and
the sequence of `(root, file names)` entries the walk yields.

Files:

- `wrappers.dfy`: `Option` and `Result`.
- `text.dfy`: ASCII lower-casing, Python's `endswith`, a case-insensitive
  suffix reference, and decimal numerals with their round trip.
- `file_types.dfy`: the extension dispatch (`Classify`).
- `providers.dfy`: provider/key validation (`Configure`) and the client
  configurations it fixes.
- `ingestion.dfy`:
  - the walk and the per-file try block (`TryLoad`);
  - the nested loops (`ScanDirectory`, `CollectDocuments`), proved against a
    fold (`Scan`) and against independent head-recursive references
    (`Successes`, `LoadedDocuments`);
  - the outcome of one ingestion (`IngestOutcome`) and its message (`Render`).
- `engine.dfy`: the class `RAGEngine`, with fields `provider`, `apiKey`,
  `modelName`, `embeddings`, `llm` and `vectorStore`. Its invariant `Valid()`
  ties the clients to validation, and any store to the engine's embedding
  client.

The model follows what the code does, in particular:

- `ingest_directory` reports every outcome as a message string, not as a
  typed error.
- `ask` lets an exception from building or running the QA chain propagate;
  the model returns it as the `Err` of `Ask`'s result.
- Construction checks nothing about a local model being available.

## Model

| member | source | states |
|---|---|---|
| `Providers.Configure` | rag_engine.py:15-34 | `openai` and `google` fail with a missing-key error exactly when the key is `None` or empty, and the message names the service. `ollama` always succeeds. Any other name fails with "Unsupported provider". A successful result is the one consistent client configuration: fixed remote model names, temperature 0, the caller's key or model name. |
| `Engine.RAGEngine.constructor` | rag_engine.py:16-36 | Once validation has produced the clients, the fields hold the inputs and those clients, and there is no vector store. |
| `Engine.RAGEngine.Create` | rag_engine.py:15-36 | The result is an error exactly when validation fails, and then it is validation's error. Otherwise it is a fresh engine holding the inputs, satisfying the invariant, with no vector store. |
| `Text.LowerEndsWith` | rag_engine.py:56-60 | Lower-casing the name and then testing the suffix is the same as a case-insensitive suffix test. |
| `FileTypes.Classify` | rag_engine.py:56-65 | A name gets a loader kind exactly when it ends, ignoring letter case, with that kind's extension (`.txt`, `.md`, `.csv`). Every other name gets none. |
| `FileTypes.ExtensionsExclusive` | rag_engine.py:60-65 | No name matches two of the extensions, so the order of the three tests cannot change which loader is chosen. |
| `FileTypes.ClassifyWithExtension` | rag_engine.py:56-65 | Any stem followed by a recognised extension, in any letter case, goes to that extension's loader. |
| `Ingestion.TryLoad` | rag_engine.py:58-72 | An unrecognised file is skipped. A recognised one succeeds exactly when its loader returns, and then yields that loader's documents; otherwise the raised error is caught. |
| `Ingestion.ScanDirectory` | rag_engine.py:54-72 | The inner loop over one directory's files continues the scan of the files before it. The accumulators end equal to the fold over all files so far. |
| `Ingestion.CollectDocuments` | rag_engine.py:42-72 | After the walk, `all_documents` is the in-order concatenation of the documents of the successfully loaded files, and `files_processed` is the number of those files. |
| `Ingestion.ScanIsReference` | rag_engine.py:58-70 | The loop's fold equals the independent references: concatenated documents, and the count of files that are recognised and load without raising. |
| `Ingestion.FailedFileIsIgnored` | rag_engine.py:58-72 | A skipped or failing file changes nothing: the scan with it equals the scan without it, so later files are still processed and it is not counted. |
| `Ingestion.SkippedOutcomeIsIgnored` | rag_engine.py:67-72 | The same on per-file outcomes: an outcome other than success can be removed from anywhere in the sequence without changing the scan. |
| `Ingestion.FilesPartition` | rag_engine.py:58-72 | Every file is exactly one of counted, failed or skipped. So N recognised files of which M fail give a count of N - M. |
| `Ingestion.NothingLoadedNoDocuments` | rag_engine.py:67-75 | When no file loads successfully there are no documents, so ingestion reports "No valid documents". |
| `Ingestion.IngestOutcome` | rag_engine.py:38-84 | A missing path gives "Directory not found", and the store is unchanged. When the loaded documents are empty, "No valid documents" is reported with the store unchanged. That covers the case where no file loads, and also files that load but yield no documents. When splitting raises, or building raises after splitting succeeds, the report is a store error carrying that exception's text, with the store unchanged. The store changes only on success. Success happens exactly when the path exists, documents were found, and splitting and building both succeeded. The new store then holds exactly the chunks and the engine's embeddings. The report gives the chunk count and the number of files processed. |
| `Ingestion.RenderCountsInjective` | rag_engine.py:82 | The success message determines both numbers it reports. |
| `Ingestion.RenderInjective` | rag_engine.py:40-84 | Distinct outcomes give distinct messages: the case, the path, the error text and the counts can all be read back from the string. |
| `Text.DecimalRoundTrip` | rag_engine.py:82 | The decimal rendering of a count reads back as the same count. |
| `Engine.RAGEngine.IngestDirectory` | rag_engine.py:38-84 | Keeps the invariant and may change only `vectorStore`. Its message and new store are exactly those of `IngestOutcome`, taken over its own embedding client and its previous store. |
| `Engine.RAGEngine.Ask` | rag_engine.py:86-91 | With no store the answer is exactly "Knowledge Base is empty. Please load documents." Otherwise it is the chain's result over the engine's model and current store. The result is an error exactly when there is a store and the chain raises. |
| `Engine.AskBeforeIngest` | rag_engine.py:36-88 | Constructing an engine and asking at once gives validation's error, or the empty-knowledge-base message whatever the chain would answer. |

| `Ingestion.Render` | rag_engine.py:38-84 | The four messages the method returns, word for word. `RenderInjective` states what they mean: distinct reports give distinct messages. |
| `Providers.ConfigError.Message` | rag_engine.py:20-34 | The texts of the constructor's `ValueError`s. `Configure`'s contract states which one each failing input gets. |
| `Ingestion.Outcome` | rag_engine.py:58-72 | One file's pass through the try block: skipped, loaded with its documents, or the caught error. `TryLoad`'s contract states its meaning. |
| `Ingestion.Visit` | rag_engine.py:67-72 | The loop body's effect on the two accumulators. `ScanIsReference` and the two `...IsIgnored` lemmas state what it means over a whole walk. |
| `Ingestion.Scan` | rag_engine.py:54-72 | The accumulators after the nested loops, as a left fold of `Visit`. `ScanIsReference` ties it to the independent references. |
| `Text.Lower` | rag_engine.py:56 | `file.lower()` keeps the length, and lower-cases each character where it stands (ASCII only, see below). |
| `Text.EndsWith` | rag_engine.py:60-65 | `str.endswith`: the last characters of the name are the suffix. `LowerEndsWith` relates it to the case-insensitive reference. |
| `Text.NatToString` | rag_engine.py:82 | The `{len(texts)}` and `{files_processed}` renderings: at least one digit, all digits, no leading zero. `DecimalRoundTrip` reads the count back. |
| `Providers.DefaultsNeedKey` | rag_engine.py:15-22 | `RAGEngine()` with every argument defaulted fails with "API Key required for OpenAI". |
| `Providers.DefaultsWithKey` | rag_engine.py:15-25 | With only a non-empty key given, the defaults select the OpenAI clients with that key, and the default model name is unused. |

## Left out

- Document loading: `TextLoader`, `UnstructuredMarkdownLoader` and `CSVLoader` are langchain code. Each loader's result is an input, `load(file, kind)`.
- Text splitting: `RecursiveCharacterTextSplitter`, with chunk size 1000 and overlap 200, is library code. Its result is an input, `split(documents)`, so chunk size and overlap are not modelled.
- Embeddings, the Chroma store and similarity search are foreign calls over floating-point vectors. The model records only which embedding client a store was built with, and that a successful build holds exactly the new chunks. Whether chromadb's default collection keeps chunks from earlier builds in the same process is library behaviour and is not modelled.
- The retrieval QA chain and LLM generation are network calls, modelled as the function parameter `qa`. An exception from building or running the chain propagates out of `ask`. The model represents it as `qa`'s `Err` and does not model which exceptions occur.
- Filesystem access: `os.path.exists` and `os.walk` become a boolean and a given sequence of walk entries. Traversal order is whatever that sequence says. `os.path.join` is left to the loader, which receives the root and the file name.
- `print` of load errors: the error is caught and dropped; the log line is output only.
- The loop over `patterns`: it only executes `pass`.
- Unicode case folding: `Lower` folds ASCII letters only. For the three ASCII suffixes this gives the same classification as Python's `str.lower`. The only non-ASCII characters that lower-case into ASCII are the Kelvin sign, which becomes `k`, and the dotted capital I. Neither produces a character of `.txt`, `.md` or `.csv` at the end of a name.
- Engine.RAGEngine.Ask: models the guard `not self.vector_store` as "no store". The truth value of a built store object is defined by the vector-store library. If that library makes a store holding no chunks false (for example through a length method), `ask` would also answer with the empty-knowledge-base message for such a store, and the model does not capture that case.
- `app.py` (Streamlit UI, session state) and `debug_kb.py` (a debugging script) are not part of this model. The `ingest_file` method that `app.py` calls does not exist in `rag_engine.py`, so single-file ingestion is absent too.
- `Engine.RAGEngine.IngestDirectory` requires `Valid()`. Every engine that `Create` returns satisfies it.
