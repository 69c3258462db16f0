/**
 * The local filesystem as the services use it: regular files (the
 * uploads) and saved FAISS stores (one directory per store). A FAISS
 * store is modelled by its documents only; the embedding vectors and the
 * similarity arithmetic are outside the model.
 */
module FileStore {
  import opened Common

  /** One stored document of a FAISS store: its text and its metadata dict. */
  datatype Entry = Entry(content: string, metadata: Dict)

  /** A FAISS store, as the list of its documents in insertion order. */
  datatype Index = Index(entries: seq<Entry>)

  /** One `(document, score)` pair returned by `similarity_search_with_score`; a lower score is closer. */
  datatype Hit = Hit(doc: Entry, score: int)

  /**
   * `FAISS.from_texts(texts, embedding, metadatas)`: one document per text,
   * in order, carrying the matching metadata dict, or `{}` when no
   * metadatas are passed.
   */
  function FromTexts(texts: seq<string>, metadatas: Option<seq<Dict>>): (ix: Index)
    requires metadatas.Some? ==> |metadatas.value| == |texts|
    ensures |ix.entries| == |texts|
    ensures forall i :: 0 <= i < |texts| ==> ix.entries[i].content == texts[i]
    ensures forall i :: 0 <= i < |texts| ==>
      ix.entries[i].metadata == (if metadatas.Some? then metadatas.value[i] else map[])
  {
    Index(seq(|texts|, i requires 0 <= i < |texts| =>
      Entry(texts[i], if metadatas.Some? then metadatas.value[i] else map[])))
  }

  /** `store.add_texts(texts, metadatas)`: the new documents follow the old ones. */
  function AddTexts(ix: Index, texts: seq<string>, metadatas: Option<seq<Dict>>): (r: Index)
    requires metadatas.Some? ==> |metadatas.value| == |texts|
    ensures |r.entries| == |ix.entries| + |texts|
    ensures r.entries[..|ix.entries|] == ix.entries
    ensures r.entries[|ix.entries|..] == FromTexts(texts, metadatas).entries
  {
    Index(ix.entries + FromTexts(texts, metadatas).entries)
  }

  /**
   * What `from_texts` raises for an empty list of texts: embedding no texts
   * gives no vectors, and sizing the index reads `embeddings[0]`.
   */
  const NoEmbeddings := IndexOutOfRange

  /**
   * What faiss's `add` raises for an empty batch: the embeddings become a
   * one-dimensional empty array, and unpacking its shape into `n, d` fails.
   */
  const EmptyBatch := "not enough values to unpack (expected 2, got 1)"

  function NotADirectory(p: string): string { "[Errno 20] Not a directory: '" + p + "'" }
  function IsADirectory(p: string): string { "[Errno 21] Is a directory: '" + p + "'" }
  function FileExists(p: string): string { "[Errno 17] File exists: '" + p + "'" }
  function NoSuchFile(p: string): string { "[Errno 2] No such file or directory: '" + p + "'" }

  /**
   * faiss's `read_index` message when `<p>/index.faiss` cannot be opened,
   * without the source location faiss prints before it.
   */
  function CannotReadIndex(p: string, reason: string): string
  {
    "could not open " + p + "/index.faiss for reading: " + reason
  }

  class FileSystem {
    /** Regular files by path. */
    var files: map<string, seq<bv8>>
    /** Saved FAISS stores by directory path. */
    var indexes: map<string, Index>

    /** A path is either a file or a store directory, never both. */
    ghost predicate Valid()
      reads this
    {
      files.Keys !! indexes.Keys
    }

    /** `os.path.exists(p)`. */
    predicate Exists(p: string)
      reads this
    {
      p in files || p in indexes
    }

    constructor (files: map<string, seq<bv8>>, indexes: map<string, Index>)
      requires files.Keys !! indexes.Keys
      ensures Valid() && this.files == files && this.indexes == indexes
    {
      this.files := files;
      this.indexes := indexes;
    }

    /**
     * `FAISS.load_local(p, ...)`: fails unless `p` is a saved store; faiss
     * reads `<p>/index.faiss` and reports why it cannot open it.
     */
    function LoadIndex(p: string): (r: Result<Index>)
      reads this
      ensures r.Ok? <==> p in indexes
      ensures r.Ok? ==> r.value == indexes[p]
      ensures r.Err? ==> r.error == CannotReadIndex(p, if p in files then "Not a directory" else "No such file or directory")
    {
      if p in indexes then Ok(indexes[p])
      else if p in files then Err(CannotReadIndex(p, "Not a directory"))
      else Err(CannotReadIndex(p, "No such file or directory"))
    }

    /** `open(p, "wb").write(content)`: creates or overwrites a file; a directory cannot be opened. */
    method WriteFile(p: string, content: seq<bv8>) returns (r: Outcome)
      requires Valid()
      modifies this
      ensures Valid()
      ensures r.Pass? <==> old(p !in indexes)
      ensures r.Fail? ==> r.error == IsADirectory(p)
      ensures r.Pass? ==> files == old(files)[p := content]
      ensures r.Fail? ==> files == old(files)
      ensures indexes == old(indexes)
    {
      if p in indexes {
        return Fail(IsADirectory(p));
      }
      files := files[p := content];
      return Pass;
    }

    /** `store.save_local(p)`: creates or replaces the store in directory `p`. */
    method SaveIndex(p: string, ix: Index) returns (r: Outcome)
      requires Valid()
      modifies this
      ensures Valid()
      ensures r.Pass? <==> old(p !in files)
      ensures r.Fail? ==> r.error == FileExists(p)
      ensures r.Pass? ==> indexes == old(indexes)[p := ix]
      ensures r.Fail? ==> indexes == old(indexes)
      ensures files == old(files)
    {
      if p in files {
        return Fail(FileExists(p));
      }
      indexes := indexes[p := ix];
      return Pass;
    }

    /** `shutil.rmtree(p)`: removes a store directory; fails on a file or a missing path. */
    method RemoveTree(p: string) returns (r: Outcome)
      requires Valid()
      modifies this
      ensures Valid()
      ensures r.Pass? <==> old(p in indexes)
      ensures r.Fail? ==> r.error == if old(p in files) then NotADirectory(p) else NoSuchFile(p)
      ensures indexes == old(indexes) - {p}
      ensures files == old(files)
    {
      if p in indexes {
        indexes := indexes - {p};
        return Pass;
      } else if p in files {
        return Fail(NotADirectory(p));
      }
      return Fail(NoSuchFile(p));
    }

    /** `os.remove(p)`: removes a file; fails on a directory or a missing path. */
    method RemoveFile(p: string) returns (r: Outcome)
      requires Valid()
      modifies this
      ensures Valid()
      ensures r.Pass? <==> old(p in files)
      ensures r.Fail? ==> r.error == if old(p in indexes) then IsADirectory(p) else NoSuchFile(p)
      ensures files == old(files) - {p}
      ensures indexes == old(indexes)
    {
      if p in files {
        files := files - {p};
        return Pass;
      } else if p in indexes {
        return Fail(IsADirectory(p));
      }
      return Fail(NoSuchFile(p));
    }
  }
}

/** FastAPI's `BackgroundTasks`: work queued by a handler and run after it answers. */
module Background {

  datatype Task =
    | ProcessDocument(filePath: string, docId: string)
    | AddCall(query: string, response: string)

  class TaskQueue {
    var tasks: seq<Task>

    constructor ()
      ensures tasks == []
    {
      tasks := [];
    }

    /** `background_tasks.add_task(...)`. */
    method Add(t: Task)
      modifies this
      ensures tasks == old(tasks) + [t]
    {
      tasks := tasks + [t];
    }
  }
}
