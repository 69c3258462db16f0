/**
 * `PDFProcessor` of services/pdf_processor.py: saving an upload, the
 * ingestion run that walks a document through its statuses, the per-document
 * FAISS store under `vector_store/<doc_id>`, and the search in one
 * document's store. Loading and splitting the PDF, the embedder and the
 * similarity search are outside the model: their results are parameters.
 */
module Pdf {
  import opened Common
  import opened Records
  import opened RedisCache
  import opened FileStore
  import opened Documents

  const UploadDir := "uploads"
  const VectorDir := "vector_store"
  const EmbeddingModel := "text-embedding-3-large"

  /** One chunk produced by the text splitter: its text and the loader's metadata. */
  datatype Chunk = Chunk(pageContent: string, metadata: Dict)

  /** One formatted search result: `{content, metadata, score}`. */
  datatype SearchResult = SearchResult(content: string, metadata: Dict, score: int)

  /** What `process_pdf` returns on success. */
  datatype ProcessResult = ProcessResult(docId: string, chunks: nat, embeddings: nat, vectorStorePath: string)

  /** The path of a document's own store. */
  function StorePath(docId: string): string
  {
    Join(VectorDir, docId)
  }

  /** The metadata stored with one chunk: its source (default ''), its page (default 0) and the document id. */
  function ChunkMetadata(c: Chunk, docId: string): (d: Dict)
    ensures d.Keys == {"source", "page", "doc_id"}
    ensures d["doc_id"] == Str(docId)
    ensures "source" in c.metadata ==> d["source"] == c.metadata["source"]
    ensures "source" !in c.metadata ==> d["source"] == Str("")
    ensures "page" in c.metadata ==> d["page"] == c.metadata["page"]
    ensures "page" !in c.metadata ==> d["page"] == Int(0)
  {
    map["source" := DictGet(c.metadata, "source", Str("")),
        "page" := DictGet(c.metadata, "page", Int(0)),
        "doc_id" := Str(docId)]
  }

  /** The texts handed to `FAISS.from_texts`, in chunk order. */
  function ChunkTexts(chunks: seq<Chunk>): (ts: seq<string>)
    ensures |ts| == |chunks|
    ensures forall i :: 0 <= i < |chunks| ==> ts[i] == chunks[i].pageContent
  {
    seq(|chunks|, i requires 0 <= i < |chunks| => chunks[i].pageContent)
  }

  /** The metadatas handed to `FAISS.from_texts`: one per chunk, in chunk order. */
  function ChunkMetadatas(chunks: seq<Chunk>, docId: string): (ms: seq<Dict>)
    ensures |ms| == |chunks|
    ensures forall i :: 0 <= i < |chunks| ==> ms[i] == ChunkMetadata(chunks[i], docId)
  {
    seq(|chunks|, i requires 0 <= i < |chunks| => ChunkMetadata(chunks[i], docId))
  }

  /** The store `store_embeddings` builds: chunk `i` is document `i`, tagged with the document id. */
  function ChunkIndex(chunks: seq<Chunk>, docId: string): (ix: Index)
    ensures |ix.entries| == |chunks|
    ensures forall i :: 0 <= i < |chunks| ==>
      && ix.entries[i].content == chunks[i].pageContent
      && "doc_id" in ix.entries[i].metadata && ix.entries[i].metadata["doc_id"] == Str(docId)
  {
    FromTexts(ChunkTexts(chunks), Some(ChunkMetadatas(chunks, docId)))
  }

  // ---------------------------------------------------------------------
  // The ingestion run

  /** How far one run of `process_pdf` got, with the chunk count once it is known. */
  datatype Run =
    | LoadFailed(msg: string)
    | EmbedFailed(n: nat, msg: string)
    | StoreFailed(n: nat, msg: string)
    | Stored(n: nat)

  /** Which way a run goes, given the loader's result, the embedder's failures and the files on disk. */
  function RunOf(loaded: Result<seq<Chunk>>, embedFault: Option<string>,
                 files: map<string, seq<bv8>>, docId: string, storeFault: Option<string>): (run: Run)
    ensures run.Stored? <==> loaded.Ok? && embedFault.None? && StoreError(files, docId, loaded.value, storeFault).None?
    ensures loaded == Ok([]) ==> !run.Stored?
  {
    if loaded.Err? then LoadFailed(loaded.error)
    else if embedFault.Some? then EmbedFailed(|loaded.value|, embedFault.value)
    else match StoreError(files, docId, loaded.value, storeFault)
      case Some(msg) => StoreFailed(|loaded.value|, msg)
      case None => Stored(|loaded.value|)
  }

  /**
   * Why `store_embeddings` raises: the embedder inside `from_texts` fails;
   * there are no chunks, so `from_texts` has no embedding to size its
   * index by; or `save_local` meets a regular file where the directory
   * should go.
   */
  function StoreError(files: map<string, seq<bv8>>, docId: string, chunks: seq<Chunk>, storeFault: Option<string>): (e: Option<string>)
    ensures e.None? <==> storeFault.None? && chunks != [] && StorePath(docId) !in files
    ensures storeFault.Some? ==> e == storeFault
  {
    if storeFault.Some? then storeFault
    else if chunks == [] then Some(NoEmbeddings)
    else if StorePath(docId) in files then Some(FileExists(StorePath(docId)))
    else None
  }

  /** The status writes one run performs, in order. */
  function Writes(run: Run): (ws: seq<StatusUpdate>)
    ensures 1 <= |ws| <= 3
  {
    var embedding := StatusUpdate(Embedding, None, Some(EmbeddingModel), None);
    match run
    case LoadFailed(msg) => [StatusUpdate(Error, None, None, Some(msg))]
    case EmbedFailed(n, msg) =>
      [StatusUpdate(ChunkingComplete, Some(n), None, None), embedding, StatusUpdate(Error, None, None, Some(msg))]
    case StoreFailed(n, msg) =>
      [StatusUpdate(ChunkingComplete, Some(n), None, None), embedding, StatusUpdate(Error, None, None, Some(msg))]
    case Stored(n) =>
      [StatusUpdate(ChunkingComplete, Some(n), None, None), embedding, StatusUpdate(Completed, Some(n), Some(EmbeddingModel), None)]
  }

  /**
   * "completed" is written only by a run whose store was saved, and then
   * last; every other run ends on "error"; and the run only moves forward
   * through chunking_complete and embedding.
   */
  lemma WritesOrder(run: Run)
    ensures (exists j :: 0 <= j < |Writes(run)| && Writes(run)[j].status == Completed) <==> run.Stored?
    ensures Writes(run)[|Writes(run)| - 1].status == (if run.Stored? then Completed else Error)
    ensures |Writes(run)| == 3 ==> Writes(run)[0].status == ChunkingComplete && Writes(run)[1].status == Embedding
    ensures |Writes(run)| == 1 <==> run.LoadFailed?
  {
    if run.Stored? {
      assert Writes(run)[2].status == Completed;
    }
  }

  /**
   * The record a run leaves behind: "completed" with the chunk count and
   * model, or "error" with the message; the chunk count and model written
   * before a later failure are kept.
   */
  lemma {:induction false} FinalRecord(docs: map<string, DocumentMetadata>, id: string, run: Run)
    requires id in docs
    ensures id in ApplyAll(docs, id, Writes(run))
    ensures var m := ApplyAll(docs, id, Writes(run))[id];
      && m.docId == id && m.filename == docs[id].filename && m.timestamp == docs[id].timestamp
      && m.status == (if run.Stored? then Completed else Error)
      && m.chunkCount == (if run.LoadFailed? then docs[id].chunkCount else Some(run.n))
      && m.embeddingModel == (if run.LoadFailed? then docs[id].embeddingModel else Some(EmbeddingModel))
      && m.errorMessage == (if run.Stored? then docs[id].errorMessage else Some(run.msg))
  {
    var ws := Writes(run);
    var d1 := ApplyUpdate(docs, id, ws[0]);
    assert ApplyAll(docs, id, ws) == ApplyAll(d1, id, ws[1..]);
    if !run.LoadFailed? {
      var d2 := ApplyUpdate(d1, id, ws[1]);
      var d3 := ApplyUpdate(d2, id, ws[2]);
      assert ApplyAll(d1, id, ws[1..]) == ApplyAll(d2, id, ws[2..]);
      assert ApplyAll(d2, id, ws[2..]) == ApplyAll(d3, id, ws[3..]);
      assert ws[3..] == [];
    } else {
      assert ws[1..] == [];
    }
  }

  /** `{"content": doc.page_content, "metadata": doc.metadata, "score": float(score)}` for every hit, in order. */
  function Formatted(hits: seq<Hit>): (rs: seq<SearchResult>)
    ensures |rs| == |hits|
    ensures forall i :: 0 <= i < |hits| ==>
      rs[i] == SearchResult(hits[i].doc.content, hits[i].doc.metadata, hits[i].score)
  {
    seq(|hits|, i requires 0 <= i < |hits| => SearchResult(hits[i].doc.content, hits[i].doc.metadata, hits[i].score))
  }

  class PdfProcessor {
    const documents: DocumentService
    const fs: FileSystem

    constructor (documents: DocumentService, fs: FileSystem)
      ensures this.documents == documents && this.fs == fs
    {
      this.documents := documents;
      this.fs := fs;
    }

    /** `save_file(content, filename)`: writes `uploads/<filename>`, replacing any file already there. */
    method SaveFile(content: seq<bv8>, filename: string) returns (r: Result<string>)
      requires fs.Valid()
      modifies fs
      ensures fs.Valid() && fs.indexes == old(fs.indexes)
      ensures r.Ok? <==> old(Join(UploadDir, filename) !in fs.indexes)
      ensures r.Ok? ==> r.value == Join(UploadDir, filename) && fs.files == old(fs.files)[r.value := content]
      ensures r.Err? ==> r.error == IsADirectory(Join(UploadDir, filename)) && fs.files == old(fs.files)
    {
      var path := Join(UploadDir, filename);
      var w := fs.WriteFile(path, content);
      if w.Fail? {
        return Err(w.error);
      }
      return Ok(path);
    }

    /**
     * `store_embeddings(doc_id, chunks, embeddings)`: builds the store from
     * the chunk texts and metadatas and saves it under `vector_store/<doc_id>`,
     * replacing any earlier one. The embeddings argument is not used: the
     * embedder runs again inside `from_texts`, and `storeFault` is its failure.
     */
    method StoreEmbeddings(docId: string, chunks: seq<Chunk>, storeFault: Option<string>) returns (r: Result<string>)
      requires fs.Valid()
      modifies fs
      ensures fs.Valid() && fs.files == old(fs.files)
      ensures r.Err? <==> StoreError(old(fs.files), docId, chunks, storeFault).Some?
      ensures r.Err? ==> r.error == StoreError(old(fs.files), docId, chunks, storeFault).value && fs.indexes == old(fs.indexes)
      ensures r.Ok? ==> r.value == StorePath(docId)
      ensures r.Ok? ==> fs.indexes == old(fs.indexes)[StorePath(docId) := ChunkIndex(chunks, docId)]
    {
      if storeFault.Some? {
        return Err(storeFault.value);
      }
      if chunks == [] {
        return Err(NoEmbeddings);
      }
      var path := StorePath(docId);
      var ix := FromTexts(ChunkTexts(chunks), Some(ChunkMetadatas(chunks, docId)));
      var saved := fs.SaveIndex(path, ix);
      if saved.Fail? {
        return Err(saved.error);
      }
      return Ok(path);
    }

    /**
     * `process_pdf(file_path, doc_id)`: `loaded` is what loading and
     * splitting the PDF gave, `embedFault` a failure of `embed_documents`.
     * With a client, the record goes through `Writes` of the run and the
     * failure, if any, is raised again after "error" is written. Without a
     * client the first status write raises, and so does the write in the
     * handler, whose error is the one that escapes.
     */
    method ProcessPdf(docId: string, loaded: Result<seq<Chunk>>, embedFault: Option<string>, storeFault: Option<string>)
      returns (r: Result<ProcessResult>)
      requires fs.Valid()
      modifies documents.redis, fs
      ensures fs.Valid() && fs.files == old(fs.files)
      ensures documents.redis.connected == old(documents.redis.connected)
      ensures !old(documents.redis.connected) ==>
        r == Err(NoClient("hget")) && documents.redis.data == old(documents.redis.data) && fs.indexes == old(fs.indexes)
      ensures old(documents.redis.connected) ==>
        var run := RunOf(loaded, embedFault, old(fs.files), docId, storeFault);
        && documents.redis.data == old(documents.redis.data).(documents :=
             ApplyAll(old(documents.redis.data.documents), docId, Writes(run)))
        && (run.Stored? ==> r == Ok(ProcessResult(docId, run.n, run.n, StorePath(docId)))
                            && fs.indexes == old(fs.indexes)[StorePath(docId) := ChunkIndex(loaded.value, docId)])
        && (!run.Stored? ==> r == Err(run.msg) && fs.indexes == old(fs.indexes))
    {
      var redis := documents.redis;
      ghost var docs0 := redis.data.documents;
      ghost var run := RunOf(loaded, embedFault, fs.files, docId, storeFault);
      if !redis.connected {
        // The first status write (or the one in the handler, after a failed load) raises.
        var e := documents.UpdateDocumentStatus(docId, StatusUpdate(Error, None, None, None));
        return Err(e.error);
      }
      if loaded.Err? {
        var _ := documents.UpdateDocumentStatus(docId, StatusUpdate(Error, None, None, Some(loaded.error)));
        assert ApplyAll(docs0, docId, Writes(run)) == ApplyAll(ApplyUpdate(docs0, docId, Writes(run)[0]), docId, []);
        return Err(loaded.error);
      }
      var chunks := loaded.value;
      var ws := Writes(run);
      var _ := documents.UpdateDocumentStatus(docId, StatusUpdate(ChunkingComplete, Some(|chunks|), None, None));
      var _ := documents.UpdateDocumentStatus(docId, StatusUpdate(Embedding, None, Some(EmbeddingModel), None));
      ghost var docs2 := ApplyUpdate(ApplyUpdate(docs0, docId, ws[0]), docId, ws[1]);
      assert redis.data.documents == docs2;
      assert ApplyAll(docs0, docId, ws) == ApplyAll(docs2, docId, ws[2..]) by {
        assert ws[1..][1..] == ws[2..];
      }
      assert ApplyAll(docs2, docId, ws[2..]) == ApplyUpdate(docs2, docId, ws[2]) by {
        assert ws[2..][1..] == [];
      }
      if embedFault.Some? {
        var _ := documents.UpdateDocumentStatus(docId, StatusUpdate(Error, None, None, Some(embedFault.value)));
        return Err(embedFault.value);
      }
      var path := StoreEmbeddings(docId, chunks, storeFault);
      if path.Err? {
        var _ := documents.UpdateDocumentStatus(docId, StatusUpdate(Error, None, None, Some(path.error)));
        return Err(path.error);
      }
      var _ := documents.UpdateDocumentStatus(docId, StatusUpdate(Completed, Some(|chunks|), Some(EmbeddingModel), None));
      return Ok(ProcessResult(docId, |chunks|, |chunks|, path.value));
    }

    /**
     * `search_document(doc_id, query, k)`: `search` stands for loading the
     * store and `similarity_search_with_score`. One result per hit, in hit
     * order; every failure comes back as "Error searching document: ...".
     * Reads only.
     */
    method SearchDocument(docId: string, query: string, k: int, search: (Index, string, int) -> Result<seq<Hit>>)
      returns (r: Result<seq<SearchResult>>)
      ensures !fs.Exists(StorePath(docId)) ==>
        r == Err("Error searching document: No vector store found for document " + docId)
      ensures fs.Exists(StorePath(docId)) && fs.LoadIndex(StorePath(docId)).Err? ==>
        r == Err("Error searching document: " + fs.LoadIndex(StorePath(docId)).error)
      ensures fs.LoadIndex(StorePath(docId)).Ok? && search(fs.indexes[StorePath(docId)], query, k).Err? ==>
        r == Err("Error searching document: " + search(fs.indexes[StorePath(docId)], query, k).error)
      ensures r.Ok? ==> fs.LoadIndex(StorePath(docId)).Ok? && search(fs.indexes[StorePath(docId)], query, k).Ok?
      ensures fs.LoadIndex(StorePath(docId)).Ok? && search(fs.indexes[StorePath(docId)], query, k).Ok? ==>
        r == Ok(Formatted(search(fs.indexes[StorePath(docId)], query, k).value))
    {
      var path := StorePath(docId);
      if !fs.Exists(path) {
        return Err("Error searching document: No vector store found for document " + docId);
      }
      var store := fs.LoadIndex(path);
      if store.Err? {
        return Err("Error searching document: " + store.error);
      }
      var found := search(store.value, query, k);
      if found.Err? {
        return Err("Error searching document: " + found.error);
      }
      var hits := found.value;
      var results: seq<SearchResult> := [];
      for i := 0 to |hits|
        invariant |results| == i
        invariant forall j :: 0 <= j < i ==>
          results[j] == SearchResult(hits[j].doc.content, hits[j].doc.metadata, hits[j].score)
      {
        results := results + [SearchResult(hits[i].doc.content, hits[i].doc.metadata, hits[i].score)];
      }
      assert results == Formatted(hits);
      return Ok(results);
    }
  }
}
