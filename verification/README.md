# Document and agent service: a Dafny model

This project models the core of a FastAPI service. The service accepts PDF
uploads and keeps a status record for each one in Redis. It chunks and
embeds each document into a per-document FAISS store, in a background task,
and searches that store. It keeps versioned stores under a JSON registry.
It answers agent queries through a Redis response cache and records calls
and feedback. It also parses the agent's LLM output into a next step and
builds presentation prompts from templates.

Each module follows one source file:

| module | source file | form |
|---|---|---|
| `RedisCache` | src/cache/redis_manager.py | class `RedisManager`; the Redis keyspace is one value (`Keyspace`) held in a field |
| `Calls`, `Feedback` | src/services/call_service.py, src/services/feedback_service.py | classes over a shared `RedisManager` |
| `Documents` | src/services/document_service.py | class `DocumentService` plus the record functions it is specified by |
| `Pdf` | src/services/pdf_processor.py | class `PdfProcessor`; the status writes of one run are the function `Writes` |
| `VectorStore` | src/services/vector_store.py | class `VectorStoreService` |
| `StoreManager` | src/services/vector_store_manager.py | class `VectorStoreManager`; its registry and its loops are proved against functions of the state |
| `DocumentRoutes` | src/routes/documents.py | class `DocumentsRouter`; an HTTP response is `Answer(body)` or `HttpError(code, detail)` |
| `AgentRoute` | src/routes/agent.py | class `AgentRouter`; the agent is a stand-in that records its queries |
| `OutputParser` | src/agents/base_agent.py | pure functions; the regular-expression search is modelled as the engine performs it |
| `Prompts` | src/services/prompt_engineering.py | pure functions; templates are lists of text pieces and named slots |

There are also four supporting modules:

- `Common`: `Option`, `Result`, string search, `split` and `strip`.
- `Clock`: the `%Y%m%d_%H%M%S` and ISO time formats.
- `Records`: the JSON records that Redis lists hold.
- `FileStore`: the file system as two maps.
  - `files` maps paths to regular files.
  - `indexes` maps paths to directories holding a saved FAISS index.
  - `Background` holds the queue of background tasks.

The model follows the code as written, including these easily missed behaviours:

- The registry search (`search_documents`) does not filter by document status.
- `process_pdf` writes the error status and then raises again. Only the background wrapper swallows the failure.
- A document's status is a free string, and any update is accepted.
- A new record starts with `chunk_count` 0.
- A PDF that yields no chunks fails when its store is built: FAISS's `from_texts` raises `IndexError` on an empty list, so the run ends on "error".
- `update_document_store` with an empty text list raises the same `IndexError`, so nothing is saved or registered.
- `add_texts` whose texts give no splits at all fails in faiss's `add`: the empty batch becomes a one-dimensional array whose shape does not unpack into rows and width. The error text is that of faiss releases whose `add` unpacks the shape, since the dependencies are unpinned. The store is left as it was.
- A missing store makes the PDF search fail with the text "Error searching document: " twice. The route adds its own prefix to the processor's message.

## Model

| member | source | states |
|---|---|---|
| Common.FindFrom | src/agents/base_agent.py:17-21 | The position found is the first occurrence of the separator at or after the start, and None means there is no occurrence there |
| Common.LastCut | src/agents/base_agent.py:17-21 | `split(sep)[-1]` starts right after an occurrence of the separator (or at the start), and no occurrence begins at or after that point |
| Common.Strip | src/agents/base_agent.py:19 | `strip()` gives the text with its leading and trailing whitespace cut off: a slice of it with only whitespace before and after, no whitespace at either end, empty exactly when the text is all whitespace, never longer |
| Common.StripIdempotent | src/agents/base_agent.py:19 | Stripping twice is stripping once |
| Common.JoinInjective | src/services/pdf_processor.py:32 | Joining a directory with two file names gives the same path only for the same name |
| Clock.Digits | src/services/document_service.py:23 | A zero-padded field has exactly its width, all digits |
| Clock.DigitsRoundTrip | src/services/vector_store_manager.py:176-179 | Reading back a zero-padded field gives the number written |
| Clock.Compact | src/services/vector_store_manager.py:65 | `%Y%m%d_%H%M%S` is 15 characters: 8 digits, an underscore, 6 digits |
| Clock.CompactRoundTrip | src/services/vector_store_manager.py:176-179 | `strptime(strftime(t))` gives back `t` for every valid time |
| Clock.CompactInjective | src/services/vector_store_manager.py:65-66 | Two times give the same stamp exactly when they are equal |
| Clock.IsoFormat | src/services/document_service.py:28 | `isoformat()` has its separators at fixed places |
| RedisCache.ResponseKeyInjective | src/cache/redis_manager.py:34 | Two queries share a `response:` key exactly when they are equal |
| RedisCache.CacheRoundTrip | src/cache/redis_manager.py:29-55 | A cached answer is read back as long as its TTL has not run out, and not after |
| RedisCache.CacheOtherQuery | src/cache/redis_manager.py:29-55 | Caching one query's answer leaves every other query's cached answer as it was |
| RedisCache.RecentEntries | src/cache/redis_manager.py:79 | `lrange(key, 0, limit-1)` gives the first `limit` entries, the whole list for 0, and drops from the end for a negative limit |
| RedisCache.NewestFirst | src/cache/redis_manager.py:57-83 | After an `lpush` the new record is the first one a read returns, followed by the older ones |
| RedisCache.RedisManager.Connect | src/cache/redis_manager.py:11-21 | Connecting leaves the manager connected and the data unchanged, and fails only when the server is unreachable on a first connect |
| RedisCache.RedisManager.Disconnect | src/cache/redis_manager.py:23-27 | Disconnecting drops the client and keeps the data |
| RedisCache.RedisManager.GetCachedResponse | src/cache/redis_manager.py:29-40 | Not connected raises; a failed read gives None; otherwise the live answer cached for the query |
| RedisCache.RedisManager.CacheResponse | src/cache/redis_manager.py:42-55 | Not connected raises; otherwise the answer is set under the query's key with the TTL, unless the write fails, which is swallowed |
| RedisCache.RedisManager.StoreCall | src/cache/redis_manager.py:57-71 | Not connected raises; otherwise the call record (time, query, response) is pushed to the front of `calls`, and a failed write changes nothing |
| RedisCache.RedisManager.GetCalls | src/cache/redis_manager.py:73-83 | The newest `limit` call records, or an empty list when the read fails |
| RedisCache.RedisManager.StoreFeedback | src/cache/redis_manager.py:85-94 | It succeeds exactly when connected and the write works, and then the feedback is at the front of its list; otherwise it fails with the missing-client error or with the Redis error raised again, and nothing changes |
| RedisCache.RedisManager.GetFeedback | src/cache/redis_manager.py:96-105 | The newest `limit` feedback records, or an empty list when the read fails |
| Calls.CallService.AddCall | src/services/call_service.py:12-23 | It succeeds exactly when connected, and then the record of query, response and time is first in `agent_calls`; nothing changes otherwise |
| Calls.CallService.GetCalls | src/services/call_service.py:25-32 | The first `limit` records, newest first (all of them for 0), or the missing-client error |
| Feedback.FeedbackService.AddFeedback | src/services/feedback_service.py:18-30 | It succeeds exactly when connected, and then the feedback record is first in `agent_feedback` |
| Feedback.FeedbackService.GetFeedback | src/services/feedback_service.py:32-38 | The first `limit` feedback records, newest first, or the missing-client error |
| Feedback.FeedbackReadBack | src/services/feedback_service.py:18-38 | Feedback just added is the first record read back, and the read returns at most `limit` records |
| Documents.DocId | src/services/document_service.py:23 | The id is "doc_", the 15-character stamp, "_" and the file name |
| Documents.DocIdCollision | src/services/document_service.py:23 | Two uploads get the same id exactly when they have the same second and the same file name |
| Documents.Initial | src/services/document_service.py:25-32 | A new record is "processing" with chunk count 0 and no model or error |
| Documents.Override | src/services/document_service.py:58-63 | An optional field takes the given value when one is given and keeps the stored one otherwise |
| Documents.Merge | src/services/document_service.py:51-63 | An update sets the status, keeps id, file name and time, and a field is present afterwards exactly when it was stored or given |
| Documents.MergeIdempotent | src/services/document_service.py:51-63 | Applying the same update twice is applying it once |
| Documents.MergeTwice | src/services/document_service.py:51-63 | Two updates in a row act as one update whose given fields are the later ones over the earlier ones |
| Documents.ApplyUpdate | src/services/document_service.py:42-69 | An update touches only its own record, and a missing record stays missing |
| Documents.ApplyAllFrame | src/services/document_service.py:42-69 | A series of updates to one document leaves every other record and the key set unchanged |
| Documents.ApplyAllLast | src/services/document_service.py:42-69 | After a series of updates the status is the last one written, and the record keeps its file name and time |
| Documents.Lookup | src/services/document_service.py:71-78 | A record is found exactly when its key is present, and it comes back with the key as its id |
| Documents.DocumentService.LogDocumentStart | src/services/document_service.py:21-40 | When connected it returns the new id and stores the initial record under it; otherwise it fails and changes nothing |
| Documents.DocumentService.UpdateDocumentStatus | src/services/document_service.py:42-69 | When connected the record is merged with the update (or left missing); otherwise it fails and changes nothing |
| Documents.DocumentService.GetDocumentStatus | src/services/document_service.py:71-78 | The stored record under the id, None when absent, or the missing-client error |
| Documents.DocumentService.GetAllDocuments | src/services/document_service.py:80-90 | One record per stored document, each with its key as its id, no id twice, every stored id present |
| Documents.DocumentService.DeleteDocumentAsWritten | src/services/document_service.py:92-94 | As written it always raises `AttributeError`, because the manager has no `ensure_connected` |
| Documents.DocumentService.DeleteDocument | src/services/document_service.py:92-94 | As intended, when connected the record is gone afterwards and every other record is kept |
| Pdf.ChunkMetadata | src/services/pdf_processor.py:46-50 | Each chunk is stored with exactly its source (default ""), its page (default 0) and the document id |
| Pdf.ChunkTexts | src/services/pdf_processor.py:44 | One text per chunk, in order |
| Pdf.ChunkMetadatas | src/services/pdf_processor.py:46-50 | One metadata per chunk, in order, the one `ChunkMetadata` gives |
| Pdf.ChunkIndex | src/services/pdf_processor.py:43-54 | The saved store holds one entry per chunk, with its text and its metadata |
| Pdf.Writes | src/services/pdf_processor.py:73-116 | One processing run writes one to three status updates |
| Pdf.WritesOrder | src/services/pdf_processor.py:73-116 | "completed" is written exactly when the store was saved, and then last; every other run ends on "error"; a longer run first writes "chunking_complete" then "embedding" |
| Pdf.FinalRecord | src/services/pdf_processor.py:73-116 | After a run the record's status, chunk count, model and error are those of the last write |
| Pdf.StoreError | src/services/pdf_processor.py:37-56 | Storing succeeds exactly when there is no embedder fault, there is at least one chunk (FAISS raises `IndexError` on none) and no regular file is at the store path; an embedder fault is the error raised |
| Pdf.RunOf | src/services/pdf_processor.py:58-116 | A run stores the index exactly when loading, embedding and saving all succeed; a PDF with no chunks never completes |
| Pdf.Formatted | src/services/pdf_processor.py:138-146 | One result per hit, with its content, metadata and score |
| Pdf.PdfProcessor.SaveFile | src/services/pdf_processor.py:30-35 | The upload is written to `uploads/<filename>`, unless a directory is there |
| Pdf.PdfProcessor.StoreEmbeddings | src/services/pdf_processor.py:37-56 | The store for the document is saved under `vector_store/<doc_id>` with one entry per chunk, unless there are no chunks or saving fails |
| Pdf.PdfProcessor.ProcessPdf | src/services/pdf_processor.py:58-116 | The record receives exactly the status writes of the run; the store is saved exactly when the run succeeds; a failure is raised again |
| Pdf.PdfProcessor.SearchDocument | src/services/pdf_processor.py:118-149 | A missing store, a failed load and a failed search each give their error; otherwise the hits, formatted, in order |
| VectorStore.AlignedLength | src/services/vector_store.py:36-41 | The per-split metadata list is as long as the list of splits |
| VectorStore.SplitOrigin | src/services/vector_store.py:36-41 | The j-th split of the i-th text is paired with the i-th text's metadata |
| VectorStore.MetadataArg | src/services/vector_store.py:36-47 | Metadata is passed only when given and non-empty, and then it has one entry per split |
| VectorStore.VectorStoreService.InitializeStore | src/services/vector_store.py:18-28 | An existing store is loaded, and a regular file at the store path fails with faiss's could-not-open message; otherwise a store holding the initial text is created and saved, unless the embedder fails |
| VectorStore.VectorStoreService.AddTexts | src/services/vector_store.py:30-49 | Too few metadatas raise `IndexError`; an embedder fault or a batch with no splits leaves the store as it was; otherwise the splits are appended with their texts' metadata and the store is saved |
| StoreManager.LoadRegistry | src/services/vector_store_manager.py:28-46 | A readable registry file is used as it is; a missing or unreadable one gives the empty registry |
| StoreManager.Put | src/services/vector_store_manager.py:86-92 | Registering a document sets its entry, keeps the insertion order, and appends a new id at the end |
| StoreManager.Remove | src/services/vector_store_manager.py:159-160 | Removing an entry leaves the registry valid with exactly the other entries, in their order |
| StoreManager.BaseMetadata | src/services/vector_store_manager.py:70-72 | The caller's metadata, with the document id and stamp written over it, and no other keys |
| StoreManager.VersionPathsDiffer | src/services/vector_store_manager.py:65-66 | Stores saved at different seconds get different directories |
| StoreManager.LivePaths | src/services/vector_store_manager.py:110-117 | No more paths than stores looked at, and every path listed exists on disk |
| StoreManager.LiveStores | src/services/vector_store_manager.py:110-117 | A path is searched exactly when it is the store path of a registered document and exists on disk |
| StoreManager.SortByScore | src/services/vector_store_manager.py:142 | The results are sorted by ascending score (distance), as a permutation of the input |
| StoreManager.InsertByScoreSorted | src/services/vector_store_manager.py:142 | Inserting a hit into a sorted list keeps it sorted |
| StoreManager.SortByScoreStable | src/services/vector_store_manager.py:142 | Hits with equal scores keep their relative order |
| StoreManager.PyPrefix | src/services/vector_store_manager.py:143 | `[:k]` is a prefix of length `min(k, n)`, or `n + k` (at least 0) for a negative `k` |
| StoreManager.TopHits | src/services/vector_store_manager.py:142-143 | The top `k` are sorted, drawn from the results, no more than `k`, and no hit left out scores lower than one kept |
| StoreManager.DeleteStep | src/services/vector_store_manager.py:148-168 | The result is False exactly when the id is unknown; for a registered id the result is True unless the deletion raises, and then the registry is the old one without the entry (the others in their order) with `last_updated` set to the stamp, and the store directory is gone; a regular file at the path raises and changes nothing |
| StoreManager.Snapshot | src/services/vector_store_manager.py:175 | The snapshot of `items()` lists every entry in registry order |
| StoreManager.CleanupRun | src/services/vector_store_manager.py:170-185 | The cleanup loop keeps the registry valid |
| StoreManager.CleanupRunExact | src/services/vector_store_manager.py:175-182 | The loop removes an entry exactly when its snapshot entry is stale, and leaves the others as they were |
| StoreManager.StaleInSnapshot | src/services/vector_store_manager.py:175-181 | An entry is stale in the snapshot exactly when its own timestamp is before the cutoff |
| StoreManager.CleanupExact | src/services/vector_store_manager.py:170-185 | When every stamp parses and deletion cannot fail, cleanup deletes exactly the entries strictly older than the cutoff |
| StoreManager.Cutoff | src/services/vector_store_manager.py:173 | A stamp falls below the cutoff exactly when it is more than `days` days older than now |
| StoreManager.VectorStoreManager.UpdateDocumentStore | src/services/vector_store_manager.py:56-97 | It succeeds exactly when the embedder works, there is at least one text and no regular file is at the new path; then a new versioned store holding every text with the base metadata is saved, registered as the document's current store, and the registry file is rewritten; an empty text list raises `IndexError` and nothing is saved or registered |
| StoreManager.VectorStoreManager.SearchDocuments | src/services/vector_store_manager.py:99-146 | The results are the hits of every live store, sorted by score and cut to `k`; no live store gives no results |
| StoreManager.VectorStoreManager.DeleteDocument | src/services/vector_store_manager.py:148-168 | The registry, the stores and the result are those of `DeleteStep`, and the registry file is rewritten after a deletion |
| StoreManager.VectorStoreManager.CleanupOldStores | src/services/vector_store_manager.py:170-185 | The registry and stores are what the cleanup loop leaves over the registry's snapshot with the cutoff `days` before now |
| StoreManager.VectorStoreManager.DeleteStale | src/services/vector_store_manager.py:175-182 | The loop over a snapshot deletes each stale entry in turn and stops at the first failure |
| StoreManager.VectorStoreManager.GetDocumentInfo | src/services/vector_store_manager.py:187-188 | The registry entry of a registered document, None otherwise |
| DocumentRoutes.SearchAnswer | src/routes/documents.py:257-272 | A search's hits come back with the document, the query and their count; its error becomes a 500 |
| DocumentRoutes.DocumentsRouter.Upload | src/routes/documents.py:124-173 | A non-PDF name gets 400; otherwise the record is created, the file saved and one processing task queued; a failure on the way gives 500 and marks the record as "error" |
| DocumentRoutes.DocumentsRouter.GetStatusAsWritten | src/routes/documents.py:183-202 | As written every error is a 500, including the missing document's 404 |
| DocumentRoutes.DocumentsRouter.GetStatus | src/routes/documents.py:183-202 | As intended a missing document gets 404 and a present one its record |
| DocumentRoutes.DocumentsRouter.Search | src/routes/documents.py:233-272 | Missing gives 404; not "completed" gives 400 naming the status; otherwise the processor's search; an answer implies the document is completed |
| DocumentRoutes.DocumentsRouter.RemoveStored | src/routes/documents.py:294-301 | The store directory is removed if present, then the upload if present; a regular file at the store path fails and changes nothing; a directory at the upload path fails after the store is gone |
| DocumentRoutes.DocumentsRouter.DeleteAsWritten | src/routes/documents.py:282-314 | As written the route never succeeds: missing gives 404; otherwise the store and the upload are removed and the service's `AttributeError` becomes a 500, with the record kept |
| DocumentRoutes.DocumentsRouter.Delete | src/routes/documents.py:282-314 | As intended missing gives 404; otherwise the store directory, then the upload, then the record are removed; a failure part-way keeps what was removed and gives 500 |
| DocumentRoutes.DocumentsRouter.ProcessDocumentBackground | src/routes/documents.py:96-105 | The background task has the effect of `process_pdf` on the record and the store, and its failure goes no further |
| Background.TaskQueue.Add | src/routes/documents.py:150-155 | A task is queued at the end |
| FileStore.FromTexts | src/services/pdf_processor.py:43-51 | A new store holds one entry per text, with its text and metadata, in order |
| FileStore.AddTexts | src/services/vector_store.py:43-47 | Adding texts keeps the old entries and appends the new ones after them |
| FileStore.FileSystem.LoadIndex | src/services/pdf_processor.py:126-129 | Loading succeeds exactly when a saved store is at the path, and gives that store; otherwise it fails with faiss's message that `<path>/index.faiss` cannot be opened, "Not a directory" for a regular file |
| FileStore.FileSystem.WriteFile | src/services/pdf_processor.py:33-34 | Writing succeeds exactly when no directory is at the path, and then the file holds the content; stores are unchanged |
| FileStore.FileSystem.SaveIndex | src/services/pdf_processor.py:54 | Saving succeeds exactly when no regular file is at the path, and then the store is there; files are unchanged |
| FileStore.FileSystem.RemoveTree | src/services/vector_store_manager.py:157 | `rmtree` succeeds exactly when a store directory is at the path, which is gone afterwards; otherwise "Not a directory" or "No such file"; files are unchanged |
| FileStore.FileSystem.RemoveFile | src/routes/documents.py:301 | `os.remove` succeeds exactly when a regular file is at the path, which is gone afterwards; otherwise "Is a directory" or "No such file"; stores are unchanged |
| AgentRoute.Agent.Execute | src/agents/base_agent.py:89-113 | The agent is run once on the query and gives its answer or its error text |
| AgentRoute.AgentRouter.ExecuteAgent | src/routes/agent.py:25-60 | A non-empty cached answer is served without running the agent; otherwise the agent runs and its non-empty answer is cached and returned; an empty answer or any error gives 500; each answer queues exactly one call record |
| AgentRoute.AnsweredQueryIsCached | src/routes/agent.py:28-52 | An answer cached without a fault is served from the cache for the same query until its TTL runs out |
| OutputParser.WordRun | src/agents/base_agent.py:24 | `\w+` takes the longest run of word characters |
| OutputParser.Backtrack | src/agents/base_agent.py:24 | Backtracking finds the longest word that is followed by "Action Input: ", and the nearest such marker |
| OutputParser.MatchAt | src/agents/base_agent.py:24 | The match at a start has the longest word that matches and the nearest input marker, and there is none exactly when no match starts there |
| OutputParser.SearchFrom | src/agents/base_agent.py:24 | `re.search` reports the match at the leftmost start that has one |
| OutputParser.Parse | src/agents/base_agent.py:15-34 | Parsing never fails, and the log is the whole text |
| OutputParser.FinalMarkerApart | src/agents/base_agent.py:17-21 | Two occurrences of "Final Answer:" never overlap |
| OutputParser.LastFinalCut | src/agents/base_agent.py:17-21 | The split on "Final Answer:" ends right after the marker's last occurrence |
| OutputParser.ParseFinal | src/agents/base_agent.py:17-21 | With "Final Answer:" present, the step finishes with the stripped text after its last occurrence |
| OutputParser.ParseAction | src/agents/base_agent.py:24-34 | Otherwise the leftmost match gives the tool (its longest word) and the input (text after the nearest marker), both stripped |
| OutputParser.ParseSearched | src/agents/base_agent.py:24-34 | The match `re.search` reports becomes the action |
| OutputParser.SearchLeftmost | src/agents/base_agent.py:24 | The search reports the leftmost start that has a match |
| OutputParser.ParseNoAction | src/agents/base_agent.py:25-29 | With neither pattern, the whole text, stripped, is the answer |
| Prompts.JoinLines | src/services/prompt_engineering.py:144-146 | `"\n".join` starts with the first part |
| Prompts.SplitLines | src/services/prompt_engineering.py:144-146 | `split("\n")` gives at least one line |
| Prompts.Bulleted | src/services/prompt_engineering.py:146 | One bulleted line per item, in order |
| Prompts.JoinLinesShows | src/services/prompt_engineering.py:144-146 | Each part appears in the joined text |
| Prompts.BulletsShown | src/services/prompt_engineering.py:146 | Each item appears, bulleted, in the joined bullet lines |
| Prompts.FormatContext | src/services/prompt_engineering.py:144-146 | The summary is empty exactly when there are no items; otherwise it opens with the first item bulleted and shows every item bulleted |
| Prompts.SplitWithoutNewline | src/services/prompt_engineering.py:144-146 | A text without a newline splits into itself |
| Prompts.SplitAfterLine | src/services/prompt_engineering.py:144-146 | Splitting a line, a newline and a rest gives the line and then the rest's lines |
| Prompts.SplitJoinLines | src/services/prompt_engineering.py:144-146 | Splitting joined newline-free lines gives back the lines |
| Prompts.FormatContextLines | src/services/prompt_engineering.py:144-146 | The summary of newline-free items has exactly one bulleted line per item |
| Prompts.DefaultPointList | src/services/prompt_engineering.py:177-194 | AIDA has four default points, every other framework three |
| Prompts.PointList | src/services/prompt_engineering.py:148-175 | The point count is that of the framework, and outside AIDA for a B2C or B2B tech domain the points are the defaults |
| Prompts.GetFrameworkPoints | src/services/prompt_engineering.py:148-175 | Every point of the framework appears bulleted; outside AIDA for a B2C or B2B tech domain, the points are the formatted defaults |
| Prompts.GetDefaultFrameworkPoints | src/services/prompt_engineering.py:177-194 | Every default point of the framework appears bulleted, the first one opening the text |
| Prompts.ActionItemList | src/services/prompt_engineering.py:218-238 | A B2C or B2B tech domain has three action items; every other case has the two generic ones |
| Prompts.GenerateActionItems | src/services/prompt_engineering.py:218-238 | Every action item appears bulleted; outside a B2C or B2B tech domain the action items are the generic ones |
| Prompts.FormatAround | src/services/prompt_engineering.py:205-216 | Formatting a template is formatting before a piece, the piece, and after it |
| Prompts.FormatShows | src/services/prompt_engineering.py:205-216 | A slot the template mentions puts its argument into the text |
| Prompts.TemplateByName | src/services/prompt_engineering.py:198-201 | Every business type has its template under its own name, so the B2C fallback is never taken |
| Prompts.TemplateMentionsAll | src/services/prompt_engineering.py:36-101 | Every template mentions every placeholder |
| Prompts.FormatOpensWith | src/services/prompt_engineering.py:205-216 | A template opening with text gives a prompt opening with that text |
| Prompts.FormatShowsAll | src/services/prompt_engineering.py:205-216 | A template mentioning every placeholder shows every argument |
| Prompts.ArgumentsShown | src/services/prompt_engineering.py:205-216 | A prompt showing every argument holds each of the eight values |
| Prompts.TemplateFilled | src/services/prompt_engineering.py:36-101 | Filling a business type's template with any arguments opens with its heading and shows every argument |
| Prompts.GeneratePresentationPrompt | src/services/prompt_engineering.py:196-216 | The prompt opens with its business type's heading and shows every argument built from the request and the context |
| Prompts.PromptShowsRequest | src/services/prompt_engineering.py:196-216 | The prompt holds the company, person, domain, context summary, key benefit, framework name, framework points and action items |

## Left out

- The Redis server, the file system, FAISS and the embedder are values and parameters. Their I/O, latency and concurrency are not modelled. All `async` code runs to completion, one call at a time.
- FAISS search and embeddings: `similarity_search_with_score` and `similarity_search` are a `search` parameter, and an embedder failure is a fault parameter. Scores are integers.
- The text splitter is a `split` parameter of `VectorStoreService.AddTexts`.
- PDF loading and chunking in `process_pdf`: the `file_path` argument is replaced by `loaded`, the loaded chunks or the loader's error.
- The `similarity_search` wrappers of src/services/vector_store.py:51-57 only forward to FAISS, so they are not modelled.
- The `list_documents` route (src/routes/documents.py:211-222) only forwards `get_all_documents`, which is modelled.
- JSON encoding: Redis values and the registry file are stored decoded, as typed values. A registry always has its `documents` map, and every entry has its timestamp, path and metadata.
- Redis command failures inside `get_cached_response`, `cache_response`, `store_call`, `get_calls`, `store_feedback` and `get_feedback` are a `fault` flag.
  - The services that call the client directly (documents, calls, feedback) do not model command failures. Only a missing client is modelled for them.
- StoreManager.VectorStoreManager.UpdateDocumentStore: a failure while saving the registry file is printed and swallowed in the source. The model always rewrites the file.
- StoreManager.VectorStoreManager.DeleteDocument: it saves the registry file through the same helper, so the same swallowed failure applies. The model always rewrites the file after a deletion.
- StoreManager.VectorStoreManager.CleanupOldStores: each deletion it makes saves the registry file through `delete_document`, with the same swallowed failure. The model always rewrites the file.
- FileStore.FileSystem.LoadIndex: the model follows langchain_community releases that load a saved store without `allow_dangerous_deserialization=True`. Later releases refuse to unpickle unless that flag is passed, and none of the three `load_local` calls passes it (src/services/vector_store.py:22, src/services/pdf_processor.py:126, src/services/vector_store_manager.py:122). Under those releases every load raises `ValueError`: `_initialize_store` fails whenever the store exists, `search_document` always fails, and `search_documents` skips every store. The faiss message is given without the source location faiss prints before it.
- VectorStore.VectorStoreService.InitializeStore: loading follows `FileStore.FileSystem.LoadIndex`, so under releases that require `allow_dangerous_deserialization` it would fail on every existing store, which the model does not promise.
- Clock.IsoFormat: `isoformat()` of a clock reading with a non-zero microsecond adds `.ffffff` (26 characters). The model reads the clock to the second and always gives the 19-character form.
- Clock.CompactRoundTrip: `strptime` is modelled for the strict 15-character form only. Python also accepts unpadded fields.
- StoreManager.Cutoff: the source's cutoff keeps the clock's fractional second, while parsed stamps are whole seconds. A stamp exactly `days` days older than the current second is therefore stale in the source whenever the clock is past that second, and is kept in the model. Both readings are naive datetimes that `timestamp()` takes as local time, so they shift alike; only a daylight-saving change in between, which the model does not capture, can move one against the other.
- StoreManager.VectorStoreManager.CleanupOldStores: the clock is read once per cleanup. The nested `delete_document` calls use the same second for `last_updated`.
- `_ensure_directories` and `os.makedirs` are not modelled. Directories exist whenever they are needed.
- StoreManager.BaseMetadata: the source updates the caller's dict in place. The model returns a new dict, so the caller does not see the change.
- StoreManager.SortByScore: the source's in-place `list.sort` is modelled as a function on a sequence.
- The outer `try` of `search_documents` catches nothing for any registry the model can represent, because every store is handled in its own `try`, so that handler is not modelled. A registry file that parses but lacks `"documents"` or an entry's `"path"` would raise `KeyError` there and give `[]`; such files are outside the model (see JSON encoding).
- OutputParser.IsWordChar: `\w` matches ASCII letters, digits and `_` only. Python also matches Unicode word characters.
- AgentRoute.Agent: the agent's LLM, its tools and LangChain are a `respond` parameter. `str(hash(query))` is a `hashText` parameter.
- `consulting_templates` (src/services/prompt_engineering.py:104-142) is never used by the service, so it is not modelled.
- Prompts.GetFrameworkPoints: the number of lines in the formatted points is not stated on the string. It is stated on the item lists (`PointList`, `ActionItemList`) and, for newline-free items, by `FormatContextLines`.
- Prompts.GenerateActionItems: same as `GetFrameworkPoints`; the line count is stated on `ActionItemList` only.

## Findings

| source | as written | input that shows it | evidently intended | confidence | as-written member | corrected member |
|---|---|---|---|---|---|---|
| src/services/document_service.py:94 | `delete_document` awaits `self.redis_manager.ensure_connected()`, which `RedisManager` does not define, so every call raises `AttributeError` | any id, e.g. `delete_document("doc_1")` on a connected manager | delete the record's hash field when connected | not executed | Documents.DocumentService.DeleteDocumentAsWritten | Documents.DocumentService.DeleteDocument |
| src/routes/documents.py:303 | the route awaits the service's `delete_document`, which always raises `AttributeError` (first row), after it has already removed the store directory and the upload; the handler answers 500 and the record stays | `DELETE /documents/<id>` for a registered document whose store and upload exist | remove the record as well and answer with the deletion message | not executed | DocumentRoutes.DocumentsRouter.DeleteAsWritten | DocumentRoutes.DocumentsRouter.Delete |
| src/routes/documents.py:189-202 | the 404 for a missing document is raised inside the `try`, and the generic handler turns it into a 500 | `GET /documents/status/<unknown id>` on a connected store | answer 404 "Document not found" | not executed | DocumentRoutes.DocumentsRouter.GetStatusAsWritten | DocumentRoutes.DocumentsRouter.GetStatus |
