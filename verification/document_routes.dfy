/** What a FastAPI handler answers: its response model, or an `HTTPException`. */
module Http {
  datatype Response<+T> = Answer(body: T) | HttpError(code: int, detail: string)

  /** `str(HTTPException(code, detail))`, as a generic `except Exception` handler sees it. */
  function ExceptionText(code: int, detail: string): string
    requires 100 <= code <= 999
  {
    var digits := [('0' as int + code / 100) as char, ('0' as int + code / 10 % 10) as char, ('0' as int + code % 10) as char];
    digits + ": " + detail
  }
}

/**
 * The handlers of routes/documents.py: upload, status, search and delete
 * of one document, and the background task that processes an upload.
 * Each handler works on the shared services: the document records in
 * Redis (`documents`), the PDF processor and the filesystem it writes.
 */
module DocumentRoutes {
  import opened Common
  import opened Clock
  import opened Records
  import opened RedisCache
  import opened FileStore
  import opened Background
  import opened Documents
  import opened Pdf
  import opened Http

  const PdfOnly := "Only PDF files are supported"
  const NotFound := "Document not found"
  const UploadStarted := "Document uploaded and processing started"

  datatype UploadResponse = UploadResponse(documentId: string, status: string, message: string)
  datatype SearchResponse = SearchResponse(docId: string, query: string, results: seq<SearchResult>, totalResults: int)

  function NotReady(status: string): string
  {
    "Document is not ready for search. Current status: " + status
  }

  function Deleted(docId: string): string
  {
    "Document " + docId + " and associated data deleted successfully"
  }

  /**
   * What the search route answers for a completed document, given what
   * the processor's search gives: the results with their count, or its
   * error wrapped once more.
   */
  function SearchAnswer(docId: string, query: string, found: Result<seq<SearchResult>>): (r: Response<SearchResponse>)
    ensures found.Ok? ==> r.Answer? && r.body.results == found.value && r.body.totalResults == |found.value|
    ensures found.Ok? ==> r.body.docId == docId && r.body.query == query
    ensures found.Err? ==> r == HttpError(500, "Error searching document: " + found.error)
  {
    match found
    case Ok(results) => Answer(SearchResponse(docId, query, results, |results|))
    case Err(e) => HttpError(500, "Error searching document: " + e)
  }

  /** What the processor's search gives on a given filesystem. */
  function StoreSearch(files: map<string, seq<bv8>>, indexes: map<string, Index>, docId: string, query: string, k: int,
                       search: (Index, string, int) -> Result<seq<Hit>>): Result<seq<SearchResult>>
  {
    var p := StorePath(docId);
    if p in indexes then
      match search(indexes[p], query, k)
      case Ok(hits) => Ok(Formatted(hits))
      case Err(e) => Err("Error searching document: " + e)
    else if p in files then Err("Error searching document: " + CannotReadIndex(p, "Not a directory"))
    else Err("Error searching document: No vector store found for document " + docId)
  }

  class DocumentsRouter {
    const documents: DocumentService
    const pdf: PdfProcessor

    ghost predicate Valid()
      reads pdf.fs
    {
      pdf.documents == documents && pdf.fs.Valid()
    }

    /** `get_documents_router(document_service, settings)`: one processor over the same service. */
    constructor (documents: DocumentService, fs: FileSystem)
      requires fs.Valid()
      ensures this.documents == documents && pdf.fs == fs && Valid()
    {
      this.documents := documents;
      pdf := new PdfProcessor(documents, fs);
    }

    /**
     * `upload_document(file, background_tasks)` at clock readings `now`
     * (the id) and `stamp` (the record's timestamp): a filename not ending
     * in ".pdf" is refused before anything is written; otherwise the record
     * is created, the file saved and its processing queued. A failure once
     * the id exists marks the record as failed with the error's text.
     */
    method Upload(filename: string, content: seq<bv8>, now: DateTime, stamp: DateTime, tasks: TaskQueue)
      returns (r: Response<UploadResponse>)
      requires Valid() && ValidTime(now) && ValidTime(stamp)
      modifies documents.redis, pdf.fs, tasks
      ensures Valid() && documents.redis.connected == old(documents.redis.connected)
      ensures !IsSuffix(".pdf", filename) ==>
        && r == HttpError(400, PdfOnly)
        && documents.redis.data == old(documents.redis.data) && pdf.fs.files == old(pdf.fs.files) && tasks.tasks == old(tasks.tasks)
      ensures IsSuffix(".pdf", filename) && !old(documents.redis.connected) ==>
        && r == HttpError(500, "Error processing document: " + NoClient("hset"))
        && documents.redis.data == old(documents.redis.data) && pdf.fs.files == old(pdf.fs.files) && tasks.tasks == old(tasks.tasks)
      ensures IsSuffix(".pdf", filename) && old(documents.redis.connected) ==>
        var id := DocId(now, filename);
        var path := Join(UploadDir, filename);
        var created := old(documents.redis.data.documents)[id := Initial(id, filename, stamp)];
        if path in old(pdf.fs.indexes) then
          var e := IsADirectory(path);
          && r == HttpError(500, "Error processing document: " + e)
          && documents.redis.data == old(documents.redis.data).(documents := ApplyUpdate(created, id, StatusUpdate(Error, None, None, Some(e))))
          && Lookup(documents.redis.data.documents, id).value.status == Error
          && Lookup(documents.redis.data.documents, id).value.errorMessage == Some(e)
          && pdf.fs.files == old(pdf.fs.files) && tasks.tasks == old(tasks.tasks)
        else
          && r == Answer(UploadResponse(id, Processing, UploadStarted))
          && documents.redis.data == old(documents.redis.data).(documents := created)
          && Lookup(documents.redis.data.documents, id) == Some(Initial(id, filename, stamp))
          && pdf.fs.files == old(pdf.fs.files)[path := content]
          && tasks.tasks == old(tasks.tasks) + [ProcessDocument(path, id)]
      ensures pdf.fs.indexes == old(pdf.fs.indexes)
    {
      if !IsSuffix(".pdf", filename) {
        return HttpError(400, PdfOnly);
      }
      var started := documents.LogDocumentStart(filename, now, stamp);
      if started.Err? {
        return HttpError(500, "Error processing document: " + started.error);
      }
      var id := started.value;
      var saved := pdf.SaveFile(content, filename);
      if saved.Err? {
        var _ := documents.UpdateDocumentStatus(id, StatusUpdate(Error, None, None, Some(saved.error)));
        return HttpError(500, "Error processing document: " + saved.error);
      }
      tasks.Add(ProcessDocument(saved.value, id));
      return Answer(UploadResponse(id, Processing, UploadStarted));
    }

    /**
     * `get_document_status(doc_id)` as written: the 404 for a missing
     * record is raised inside the `try` whose generic handler turns every
     * exception into a 500, so a missing document is answered with 500 and
     * the text "404: Document not found". Reads only.
     */
    method GetStatusAsWritten(docId: string) returns (r: Response<DocumentMetadata>)
      ensures r.HttpError? ==> r.code == 500
      ensures !documents.redis.connected ==> r == HttpError(500, "Error getting document status: " + NoClient("hget"))
      ensures documents.redis.connected && docId !in documents.redis.data.documents ==>
        r == HttpError(500, "Error getting document status: " + ExceptionText(404, NotFound))
      ensures documents.redis.connected && docId in documents.redis.data.documents ==>
        r == Answer(Lookup(documents.redis.data.documents, docId).value)
    {
      var status := documents.GetDocumentStatus(docId);
      if status.Err? {
        return HttpError(500, "Error getting document status: " + status.error);
      }
      if status.value.None? {
        // raise HTTPException(404, ...) inside the try; the generic handler catches it
        var e := ExceptionText(404, NotFound);
        return HttpError(500, "Error getting document status: " + e);
      }
      return Answer(status.value.value);
    }

    /**
     * `get_document_status(doc_id)` as evidently intended: 404 for a
     * missing record, the record (its id forced to the key) otherwise, 500
     * only when the store cannot be read. Reads only.
     */
    method GetStatus(docId: string) returns (r: Response<DocumentMetadata>)
      ensures !documents.redis.connected ==> r == HttpError(500, "Error getting document status: " + NoClient("hget"))
      ensures documents.redis.connected ==>
        (r == HttpError(404, NotFound) <==> docId !in documents.redis.data.documents)
      ensures r.Answer? ==> r.body.docId == docId && Lookup(documents.redis.data.documents, docId) == Some(r.body)
    {
      var status := documents.GetDocumentStatus(docId);
      if status.Err? {
        return HttpError(500, "Error getting document status: " + status.error);
      }
      if status.value.None? {
        return HttpError(404, NotFound);
      }
      return Answer(status.value.value);
    }

    /**
     * `search_document(doc_id, search_query)`: 404 for a missing record,
     * 400 naming the status for a document that is not "completed", then
     * the processor's search; its errors come back as 500. Reads only.
     */
    method Search(docId: string, query: string, k: int, search: (Index, string, int) -> Result<seq<Hit>>)
      returns (r: Response<SearchResponse>)
      ensures !documents.redis.connected ==> r == HttpError(500, "Error searching document: " + NoClient("hget"))
      ensures documents.redis.connected ==>
        var docs := documents.redis.data.documents;
        && (docId !in docs ==> r == HttpError(404, NotFound))
        && (docId in docs && docs[docId].status != Completed ==> r == HttpError(400, NotReady(docs[docId].status)))
        && (docId in docs && docs[docId].status == Completed ==>
              r == SearchAnswer(docId, query, StoreSearch(pdf.fs.files, pdf.fs.indexes, docId, query, k, search)))
      ensures r.Answer? ==> documents.redis.connected && Lookup(documents.redis.data.documents, docId).value.status == Completed
      ensures documents.redis.connected && docId in documents.redis.data.documents &&
              documents.redis.data.documents[docId].status == Completed && !pdf.fs.Exists(StorePath(docId)) ==>
        r == HttpError(500, "Error searching document: " + ("Error searching document: No vector store found for document " + docId))
    {
      var status := documents.GetDocumentStatus(docId);
      if status.Err? {
        return HttpError(500, "Error searching document: " + status.error);
      }
      if status.value.None? {
        return HttpError(404, NotFound);
      }
      if status.value.value.status != Completed {
        return HttpError(400, NotReady(status.value.value.status));
      }
      var found := pdf.SearchDocument(docId, query, k, search);
      assert found == StoreSearch(pdf.fs.files, pdf.fs.indexes, docId, query, k, search);
      if found.Err? {
        return HttpError(500, "Error searching document: " + found.error);
      }
      return Answer(SearchResponse(docId, query, found.value, |found.value|));
    }

    /**
     * The file removals of `delete_document` for a document uploaded as
     * `filename`: the store directory `vector_store/<doc_id>`, then the
     * upload `uploads/<filename>`, each only when something is there. A
     * regular file at the store's path or a directory at the upload's path
     * raises, keeping what was already removed.
     */
    method RemoveStored(docId: string, filename: string) returns (r: Outcome)
      requires Valid()
      modifies pdf.fs
      ensures Valid()
      ensures var store := StorePath(docId);
        var upload := Join(UploadDir, filename);
        if store in old(pdf.fs.files) then
          r == Fail(NotADirectory(store)) && pdf.fs.files == old(pdf.fs.files) && pdf.fs.indexes == old(pdf.fs.indexes)
        else if upload in old(pdf.fs.indexes) - {store} then
          r == Fail(IsADirectory(upload)) && pdf.fs.files == old(pdf.fs.files) && pdf.fs.indexes == old(pdf.fs.indexes) - {store}
        else
          r == Pass && pdf.fs.files == old(pdf.fs.files) - {upload} && pdf.fs.indexes == old(pdf.fs.indexes) - {store}
    {
      var fs := pdf.fs;
      var store := Join(VectorDir, docId);
      if fs.Exists(store) {
        var removed := fs.RemoveTree(store);
        if removed.Fail? {
          return Fail(NotADirectory(store));
        }
      }
      var upload := Join(UploadDir, filename);
      if fs.Exists(upload) {
        var removed := fs.RemoveFile(upload);
        if removed.Fail? {
          return Fail(IsADirectory(upload));
        }
      }
      return Pass;
    }

    /**
     * `delete_document(doc_id)` as written: 404 for a missing record;
     * otherwise the store directory and the upload are removed when
     * present, and then the service's `delete_document` raises
     * AttributeError, so the route answers 500 with the files gone and the
     * record still in Redis. It never answers success.
     */
    method DeleteAsWritten(docId: string) returns (r: Response<string>)
      requires Valid()
      modifies pdf.fs
      ensures Valid() && r.HttpError?
      ensures documents.redis.data == old(documents.redis.data)
      ensures !documents.redis.connected ==>
        && r == HttpError(500, "Error deleting document: " + NoClient("hget"))
        && pdf.fs.files == old(pdf.fs.files) && pdf.fs.indexes == old(pdf.fs.indexes)
      ensures documents.redis.connected && docId !in documents.redis.data.documents ==>
        && r == HttpError(404, NotFound)
        && pdf.fs.files == old(pdf.fs.files) && pdf.fs.indexes == old(pdf.fs.indexes)
      ensures documents.redis.connected && docId in documents.redis.data.documents ==>
        var store := StorePath(docId);
        var upload := Join(UploadDir, documents.redis.data.documents[docId].filename);
        if store in old(pdf.fs.files) then
          r == HttpError(500, "Error deleting document: " + NotADirectory(store))
          && pdf.fs.files == old(pdf.fs.files) && pdf.fs.indexes == old(pdf.fs.indexes)
        else if upload in old(pdf.fs.indexes) - {store} then
          r == HttpError(500, "Error deleting document: " + IsADirectory(upload))
          && pdf.fs.files == old(pdf.fs.files) && pdf.fs.indexes == old(pdf.fs.indexes) - {store}
        else
          && r == HttpError(500, "Error deleting document: " + NoEnsureConnected)
          && pdf.fs.files == old(pdf.fs.files) - {upload}
          && pdf.fs.indexes == old(pdf.fs.indexes) - {store}
          && Lookup(documents.redis.data.documents, docId).Some?
    {
      var status := documents.GetDocumentStatus(docId);
      if status.Err? {
        return HttpError(500, "Error deleting document: " + status.error);
      }
      if status.value.None? {
        return HttpError(404, NotFound);
      }
      var removed := RemoveStored(docId, status.value.value.filename);
      if removed.Fail? {
        return HttpError(500, "Error deleting document: " + removed.error);
      }
      var deleted := documents.DeleteDocumentAsWritten(docId);
      return HttpError(500, "Error deleting document: " + deleted.error);
    }

    /**
     * `delete_document(doc_id)` as evidently intended: 404 for a missing
     * record; otherwise the store directory `vector_store/<doc_id>` and the
     * upload `uploads/<filename>` are removed when present, then the
     * record. A failure part-way keeps what was already removed and
     * answers 500.
     */
    method Delete(docId: string) returns (r: Response<string>)
      requires Valid()
      modifies documents.redis, pdf.fs
      ensures Valid() && documents.redis.connected == old(documents.redis.connected)
      ensures !old(documents.redis.connected) ==>
        && r == HttpError(500, "Error deleting document: " + NoClient("hget"))
        && documents.redis.data == old(documents.redis.data) && pdf.fs.files == old(pdf.fs.files) && pdf.fs.indexes == old(pdf.fs.indexes)
      ensures old(documents.redis.connected) && docId !in old(documents.redis.data.documents) ==>
        && r == HttpError(404, NotFound)
        && documents.redis.data == old(documents.redis.data) && pdf.fs.files == old(pdf.fs.files) && pdf.fs.indexes == old(pdf.fs.indexes)
      ensures old(documents.redis.connected) && docId in old(documents.redis.data.documents) ==>
        var store := StorePath(docId);
        var upload := Join(UploadDir, old(documents.redis.data.documents)[docId].filename);
        if store in old(pdf.fs.files) then
          && r == HttpError(500, "Error deleting document: " + NotADirectory(store))
          && documents.redis.data == old(documents.redis.data) && pdf.fs.files == old(pdf.fs.files) && pdf.fs.indexes == old(pdf.fs.indexes)
        else if upload in old(pdf.fs.indexes) - {store} then
          && r == HttpError(500, "Error deleting document: " + IsADirectory(upload))
          && documents.redis.data == old(documents.redis.data) && pdf.fs.files == old(pdf.fs.files)
          && pdf.fs.indexes == old(pdf.fs.indexes) - {store}
        else
          && r == Answer(Deleted(docId))
          && documents.redis.data == old(documents.redis.data).(documents := old(documents.redis.data.documents) - {docId})
          && pdf.fs.files == old(pdf.fs.files) - {upload}
          && pdf.fs.indexes == old(pdf.fs.indexes) - {store}
      ensures r.Answer? ==> Lookup(documents.redis.data.documents, docId).None?
    {
      var status := documents.GetDocumentStatus(docId);
      if status.Err? {
        return HttpError(500, "Error deleting document: " + status.error);
      }
      if status.value.None? {
        return HttpError(404, NotFound);
      }
      var removed := RemoveStored(docId, status.value.value.filename);
      if removed.Fail? {
        return HttpError(500, "Error deleting document: " + removed.error);
      }
      var _ := documents.DeleteDocument(docId);
      return Answer(Deleted(docId));
    }

    /**
     * `process_document_background(pdf_processor, file_path, doc_id)`:
     * runs the processing and swallows its failure, which then shows only
     * in the record. `loaded` is what loading and splitting `file_path` gives.
     */
    method ProcessDocumentBackground(docId: string, loaded: Result<seq<Chunk>>, embedFault: Option<string>, storeFault: Option<string>)
      requires Valid()
      modifies documents.redis, pdf.fs
      ensures Valid() && pdf.fs.files == old(pdf.fs.files)
      ensures documents.redis.connected == old(documents.redis.connected)
      ensures !old(documents.redis.connected) ==>
        documents.redis.data == old(documents.redis.data) && pdf.fs.indexes == old(pdf.fs.indexes)
      ensures old(documents.redis.connected) ==>
        var run := RunOf(loaded, embedFault, old(pdf.fs.files), docId, storeFault);
        && documents.redis.data == old(documents.redis.data).(documents :=
             ApplyAll(old(documents.redis.data.documents), docId, Writes(run)))
        && pdf.fs.indexes == (if run.Stored? then old(pdf.fs.indexes)[StorePath(docId) := ChunkIndex(loaded.value, docId)]
                              else old(pdf.fs.indexes))
    {
      var _ := pdf.ProcessPdf(docId, loaded, embedFault, storeFault);
    }
  }
}
