# Document ingestion routes and OpenAI provider: a Dafny model

This project models two parts of a document-ingestion backend written in Python.

1. **The process route.** It resolves one asset or every FILE asset of a project. It fails on an unknown file id or an empty asset set. It optionally deletes the project's existing chunks. Then, for each asset, it reads the file, chunks it and bulk-inserts one `DataChunk` row per chunk, numbered from 1, counting inserted rows and processed files. The same file holds the project-list route and the upload route's validation branch.
2. **The OpenAI provider.** It holds model configuration and setters. It normalises text (truncate, then strip). It builds prompt messages. Its `generate_text` and `embed_text` check a guard, call the backend, and inspect the shape of the response.

The database, the file store, the chunker and the vendor SDK are replaced as follows:

- The asset registry is a sequence of `Asset` rows.
- The chunk collection is a `ChunkStore` object. It holds a sequence of rows and a ghost log of the writes issued against it.
- File reading and the chunker are uninterpreted functions, bundled in `Processor`.
- Each backend call is a function from the request to an optional response object.

Modules:

- `Options`: the `Option` type.
- `DbSchemes`: the project, asset, chunk and chunker-document records.
- `ChunkModel`: the chunk collection. It has delete-by-project and insert-many, plus lemmas about selecting one project's chunks.
- `DataRoutes`: the routes.
  - `ProcessEndpoint` and its loop `ProcessFiles` are imperative methods, proved against the functional specification `Process` and `Loop`.
  - The promises of the route are lemmas about `Process`.
- `PyStr`: Python's `s[:n]`, `str.isspace` and `str.strip()`.
- `Providers`: the `OpenAIProvider` class.

Two behaviours of the code are modelled as written, although a reader might expect otherwise:

- When a chunker result is empty, the request fails. Rows inserted earlier in the same request stay, and so does the reset.
- `generate_text` does not append the prompt. It raises `TypeError` first (see Findings).

## Model

| member | source | states |
|---|---|---|
| `DataRoutes.ProcessEndpoint` | src/routes/data.py:97-214 | The response, the new chunk collection and the writes issued are those of the specification `Process`. Writes are at most one delete of the project, issued first, followed only by inserts. |
| `DataRoutes.ProcessFiles` | src/routes/data.py:166-212 | The per-asset loop. It updates `nb_records`/`nb_file`, and its invariants tie the accumulators and the store to the batches inserted so far. Its response, new rows and writes are those of `Loop`. |
| `DataRoutes.GetAssetRecord` | src/routes/data.py:122-124 | The single-asset lookup is scoped to the project. A found record belongs to the project and carries the file id as its name. None means no such record exists in the registry. |
| `DataRoutes.ProjectFiles` | src/routes/data.py:137-146 | All-assets mode yields exactly the FILE assets of the project, each as an (asset id, stored name) entry. |
| `DataRoutes.ResolvedIdsDistinct` | src/routes/data.py:132-146 | With unique record ids, the resolved entries have pairwise distinct asset ids, so the dictionary loses no asset. |
| `DataRoutes.ProjectFilesDistinct` | src/routes/data.py:143-146 | The dictionary comprehension over all FILE assets has distinct keys when record ids are unique. |
| `DataRoutes.FileIdErrorIff` | src/routes/data.py:122-130 | FILE_ID_ERROR exactly when a truthy file id is given and no asset of the project is stored under it. |
| `DataRoutes.NoFilesErrorIff` | src/routes/data.py:135-154 | NO_FILES_ERROR exactly when no file id is given and the project has no FILE asset. |
| `DataRoutes.EarlyFailureLeavesStore` | src/routes/data.py:122-161 | After FILE_ID_ERROR or NO_FILES_ERROR, the chunk collection is unchanged and no write is issued, even when `do_reset` is true. |
| `DataRoutes.ResetIff` | src/routes/data.py:148-164 | The reset happens exactly when `do_reset` is true and at least one asset was resolved. |
| `DataRoutes.ResolveAssets` | src/routes/data.py:121-146 | With a truthy file id, resolution fails exactly when no asset of the project is stored under that name. Otherwise it gives one entry for that project asset, keyed by its record id. Without a file id, it gives the entries (id, name) of exactly the project's FILE assets. |
| `DataRoutes.BuildRecords` | src/routes/data.py:194-203 | One row per chunker document. Each row has that document's text and metadata, `chunk_order` equal to its position plus one, and the project's and the asset's ids. |
| `DataRoutes.LoopBatch` | src/routes/data.py:174-205 | Every inserted batch belongs to one readable resolved asset. It has one row per chunker document, in chunker order, with `chunk_order` 1..N, the project's id and that asset's id. |
| `DataRoutes.LoopCoversReadable` | src/routes/data.py:174-205 | In a loop that does not abort, every readable resolved asset gets its own batch. The batch sits at that asset's rank among the readable assets. |
| `DataRoutes.LoopSuccessCount` | src/routes/data.py:174-206 | In a loop that does not abort, the number of batches equals the number of readable assets. Unreadable assets are skipped and not counted. With `LoopCoversReadable`, this means exactly one batch per readable asset. |
| `DataRoutes.LoopFailsIff` | src/routes/data.py:180-192 | The loop aborts exactly when some resolved asset is readable but its chunker result is None or empty. |
| `DataRoutes.FailedLoopKeepsEarlierBatches` | src/routes/data.py:187-205 | An aborted loop keeps its earlier inserts. Its batches are those of a complete run over the assets before the failing one. |
| `DataRoutes.ProcessSuccessCounters` | src/routes/data.py:168-212 | On success, `inserted_chunks` is the sum of the per-asset insert counts. `processed_files` is the number of resolved assets with readable content, which is at most the number of resolved assets. |
| `DataRoutes.ProcessingFailedKeepsWrites` | src/routes/data.py:161-192 | PROCESSING_FAILED rolls nothing back. The reset stays as requested, and the batches inserted before the failing asset remain. |
| `DataRoutes.RunRowsOfProject` | src/routes/data.py:194-205 | Every row a run inserts carries the project's id. |
| `DataRoutes.ResetLeavesOnlyThisRun` | src/routes/data.py:161-205 | After a reset run, the project's chunks are exactly the rows inserted by this run. No chunk of an earlier generation survives. |
| `DataRoutes.OtherProjectsUntouched` | src/routes/data.py:161-205 | The chunks of every other project are exactly as before, in the same order. |
| `DataRoutes.NoResetKeepsChunks` | src/routes/data.py:161-205 | Without a reset, nothing is removed. The old rows are a prefix of the new collection. |
| `DataRoutes.ProjectsEndpoint` | src/routes/data.py:225-239 | NO_PROJECTS_ERROR exactly for a missing or empty result. Otherwise the `project_id`s, one per project in result order. |
| `DataRoutes.UploadValidationAsWritten` | src/routes/data.py:45-53 | As written, the upload goes on to the write exactly for a valid file. A rejection carries the literal text "result_signal". |
| `DataRoutes.UploadSignalLost` | src/routes/data.py:45-53 | As written, every validation signal other than the literal text "result_signal" is replaced by that text. |
| `DataRoutes.UploadValidation` | src/routes/data.py:45-53 | As intended, an invalid file is answered with the validator's own signal, and the write goes ahead only for a valid file. |
| `ChunkModel.ChunkStore.DeleteChunksByProjectId` | src/routes/data.py:161-164 | The new rows are the old rows minus the project's. It returns the number deleted and logs one delete. |
| `ChunkModel.ChunkStore.InsertManyChunks` | src/routes/data.py:205 | The batch is appended. It returns the batch's length and logs one insert. |
| `ChunkModel.ChunksOfWithoutProject` | src/routes/data.py:161-164 | Deleting a project's chunks removes all of them and leaves every other project's chunks exactly as they were. |
| `PyStr.SliceTo` | src/stores/llm/providers/OpenAIProvider.py:42 | `s[:n]` is a prefix of `s` of length min(n, len) for n >= 0, and of length max(0, len + n) for negative n. |
| `PyStr.LStrip` | src/stores/llm/providers/OpenAIProvider.py:42 | The result is a suffix of `s`. Everything dropped is whitespace, and the result does not start with whitespace. |
| `PyStr.RStrip` | src/stores/llm/providers/OpenAIProvider.py:42 | The result is a prefix of `s`. Everything dropped is whitespace, and the result does not end with whitespace. |
| `PyStr.Strip` | src/stores/llm/providers/OpenAIProvider.py:42 | The result has no surrounding whitespace. It is a slice of the input with only whitespace around it. |
| `PyStr.StripOfStripped` | src/stores/llm/providers/OpenAIProvider.py:42 | A text without surrounding whitespace is its own strip. |
| `Providers.OpenAIProvider.constructor` | src/stores/llm/providers/OpenAIProvider.py:8-27 | A new provider keeps its configuration and defaults (1000 characters, 1000 tokens), and has no generation model, embedding model or embedding size set. |
| `Providers.OpenAIProvider.SetGenerationModel` | src/stores/llm/providers/OpenAIProvider.py:33-34 | Only `generation_model_id` changes. |
| `Providers.OpenAIProvider.SetEmbeddingModel` | src/stores/llm/providers/OpenAIProvider.py:36-38 | Only `embedding_model_id` and `embedding_size` change. |
| `Providers.OpenAIProvider.ProcessText` | src/stores/llm/providers/OpenAIProvider.py:41-42 | The result is no longer than the input and, for a non-negative limit, no longer than `default_input_max_charachters`. It has no surrounding whitespace, and it is the truncated text with only whitespace removed. |
| `Providers.ProcessTextIdempotent` | src/stores/llm/providers/OpenAIProvider.py:41-42 | Normalising twice equals normalising once, for a non-negative limit. |
| `Providers.ProcessTextNegativeLimit` | src/stores/llm/providers/OpenAIProvider.py:41-42 | With a negative limit, Python's slice counts from the end, and normalising is not idempotent. |
| `Providers.OpenAIProvider.ConstructPrompt` | src/stores/llm/providers/OpenAIProvider.py:97-101 | The message has the given role. Its content is the normalised prompt: stripped and within the length limit. |
| `Providers.OpenAIProvider.EffectiveMaxTokens` | src/stores/llm/providers/OpenAIProvider.py:53 | An absent `max_output_token` becomes `default_generation_max_output_tokens`. A given one, 0 included, is kept. |
| `Providers.OpenAIProvider.GenerateTextAsWritten` | src/stores/llm/providers/OpenAIProvider.py:45-56 | None without a client or a set generation model. Otherwise it always raises TypeError. |
| `Providers.ConfiguredGenerationRaises` | src/stores/llm/providers/OpenAIProvider.py:56 | As written, a configured provider never sends a prompt, whatever the prompt and history. |
| `Providers.OpenAIProvider.GenerateText` | src/stores/llm/providers/OpenAIProvider.py:45-69 | Without a client or model, it returns None and leaves the history unchanged. Otherwise it appends the user prompt message, sends the whole history with the effective token budget, and returns the reply of the response. |
| `Providers.ReplyOf` | src/stores/llm/providers/OpenAIProvider.py:65-69 | A reply exists exactly when the response has a first choice with a message, and it is that message. |
| `Providers.OpenAIProvider.EmbedText` | src/stores/llm/providers/OpenAIProvider.py:75-93 | None without a client or a set embedding model. Otherwise the unprocessed text goes to the backend. The result is None when the response is missing, has no data or has an empty first embedding, and is `data[0].embedding` otherwise. |
| `Providers.EmbeddingOf` | src/stores/llm/providers/OpenAIProvider.py:89-93 | A vector exists exactly when the response has a first item with a non-empty embedding, and it is that embedding. |

## Left out

- FastAPI routing, `JSONResponse`, HTTP status codes and settings injection. Responses are the datatypes `ProcessResponse` and `ProjectsResponse`, and signal strings are their constructors.
- `get_project_or_create_one` and `get_project_by_user`. The project model is not part of this model. The process route takes the resolved `Project`, and the projects route takes the query result.
- `DataRoutes.GetAssetRecord`: the asset model is not part of this model. The lookup matches the stored name (`asset_name`, which the upload sets to the generated file id) within the project, and takes the first match.
- Record ids are taken to be unique primary keys. The dictionary `{record.id: record.asset_name}` is then the filtered sequence in query order (`ResolvedIdsDistinct`).
- `insert_many_chunks` and `delete_chunks_by_project_id` follow their names. The insert returns the number of rows given.
- Only the validation branch of the upload route is modelled. The following are left out: the file streaming and `os.path.getsize` (file I/O), and the asset registration (a database insert, src/routes/data.py:80-87). An invalid file is rejected before the file is written and before the asset is registered. The project record may already have been created by `get_project_or_create_one` (src/routes/data.py:37-40), which runs before validation.
- `ProcessController.get_file_content` and `process_file_content` are not part of this model. They are uninterpreted functions, and no windowing or overlap semantics are assumed.
- The OpenAI SDK calls are foreign network calls. Each is a function from the request to an optional response object. `hasClient` stands for the truthiness of the constructed client.
- The temperature arguments and defaults are floating point and not modelled. Embedding vectors are `seq<real>` and are only passed through.
- Logging.
- Concurrency between simultaneous requests. The code has no locking, and the model is sequential.
- The shared mutable default `chat_history=[]` of `generate_text`. Callers pass an explicit `ChatHistory` object, so sharing of the default list across calls is not modelled.
- `document_type` of `embed_text` is unused by the code and is accepted and ignored.

## Findings

| source | as written | input that shows it | evidently intended | confidence | as-written member | corrected member |
|---|---|---|---|---|---|---|
| src/routes/data.py:51 | a rejected upload answers with the literal text "result_signal" | `is_valid` false with any signal other than "result_signal" | answer with the validator's `result_signal` value | high; not executed | `DataRoutes.UploadValidationAsWritten`, `DataRoutes.UploadSignalLost` | `DataRoutes.UploadValidation` |
| src/stores/llm/providers/OpenAIProvider.py:56 | `costruct_prompt(prompt=prompt)` omits the required `role`, so TypeError is raised before the history is appended to or the backend called | a provider with a client and a non-empty generation model, any prompt | append `costruct_prompt(prompt, role=USER)` to the history and call the backend | high; not executed | `Providers.OpenAIProvider.GenerateTextAsWritten` | `Providers.OpenAIProvider.GenerateText` |
