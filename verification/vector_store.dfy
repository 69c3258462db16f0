/**
 * `VectorStoreService` of services/vector_store.py: one FAISS store kept
 * in memory as `db` and saved under `data/vector_store` after every
 * change. `add_texts` splits every text, concatenates the splits in input
 * order and gives every split the metadata of the text it came from. The
 * text splitter is a parameter (`split`); the embedding call is the
 * `fault` parameter of the operations that embed.
 */
module VectorStore {
  import opened Common
  import opened FileStore

  const StorePath := "data/vector_store"
  const InitText := "initialization"

  /** The splits of all texts, concatenated in input order. */
  function AllSplits(texts: seq<string>, split: string -> seq<string>): seq<string>
  {
    if texts == [] then []
    else AllSplits(texts[..|texts| - 1], split) + split(texts[|texts| - 1])
  }

  /** `[metadatas[i]] * len(splits)` for every text, concatenated. */
  function Aligned(texts: seq<string>, metadatas: seq<Dict>, split: string -> seq<string>): seq<Dict>
    requires |texts| <= |metadatas|
  {
    if texts == [] then []
    else
      var n := |texts| - 1;
      Aligned(texts[..n], metadatas, split) + seq(|split(texts[n])|, _ => metadatas[n])
  }

  /** There is exactly one metadata dict per split. */
  lemma {:induction false} AlignedLength(texts: seq<string>, metadatas: seq<Dict>, split: string -> seq<string>)
    requires |texts| <= |metadatas|
    ensures |Aligned(texts, metadatas, split)| == |AllSplits(texts, split)|
  {
    if texts != [] {
      AlignedLength(texts[..|texts| - 1], metadatas, split);
    }
  }

  /** Extending the texts extends the splits and the metadatas; earlier ones stay where they were. */
  lemma {:induction false} AllSplitsPrefix(texts: seq<string>, i: nat, split: string -> seq<string>)
    requires i <= |texts|
    ensures |AllSplits(texts[..i], split)| <= |AllSplits(texts, split)|
    ensures AllSplits(texts, split)[..|AllSplits(texts[..i], split)|] == AllSplits(texts[..i], split)
    decreases |texts|
  {
    if i < |texts| {
      var n := |texts| - 1;
      assert texts[..n][..i] == texts[..i];
      AllSplitsPrefix(texts[..n], i, split);
    } else {
      assert texts[..i] == texts;
    }
  }

  lemma {:induction false} AlignedPrefix(texts: seq<string>, metadatas: seq<Dict>, i: nat, split: string -> seq<string>)
    requires i <= |texts| <= |metadatas|
    ensures |Aligned(texts[..i], metadatas, split)| <= |Aligned(texts, metadatas, split)|
    ensures Aligned(texts, metadatas, split)[..|Aligned(texts[..i], metadatas, split)|] == Aligned(texts[..i], metadatas, split)
    decreases |texts|
  {
    if i < |texts| {
      var n := |texts| - 1;
      assert texts[..n][..i] == texts[..i];
      AlignedPrefix(texts[..n], metadatas, i, split);
    } else {
      assert texts[..i] == texts;
    }
  }

  /**
   * The `j`-th split of text `i` sits right after the splits of the texts
   * before it, and the metadata at that position is `metadatas[i]`.
   */
  lemma SplitOrigin(texts: seq<string>, metadatas: seq<Dict>, split: string -> seq<string>, i: nat, j: nat)
    requires i < |texts| <= |metadatas| && j < |split(texts[i])|
    ensures var at := |AllSplits(texts[..i], split)| + j;
      && at < |AllSplits(texts, split)| == |Aligned(texts, metadatas, split)|
      && AllSplits(texts, split)[at] == split(texts[i])[j]
      && Aligned(texts, metadatas, split)[at] == metadatas[i]
  {
    var upto := texts[..i + 1];
    assert upto[..i] == texts[..i];
    assert AllSplits(upto, split) == AllSplits(texts[..i], split) + split(texts[i]);
    assert Aligned(upto, metadatas, split) == Aligned(texts[..i], metadatas, split) + seq(|split(texts[i])|, _ => metadatas[i]);
    AlignedLength(texts[..i], metadatas, split);
    AlignedLength(texts, metadatas, split);
    AllSplitsPrefix(texts, i + 1, split);
    AlignedPrefix(texts, metadatas, i + 1, split);
  }

  /** The metadatas argument of `db.add_texts`: the aligned list, or None when it is empty or none were given. */
  function MetadataArg(texts: seq<string>, metadatas: Option<seq<Dict>>, split: string -> seq<string>): (m: Option<seq<Dict>>)
    requires metadatas.Some? && metadatas.value != [] ==> |texts| <= |metadatas.value|
    ensures m.Some? ==> |m.value| == |AllSplits(texts, split)| && m.value != []
    ensures m.None? <==> metadatas.None? || metadatas.value == [] || Aligned(texts, metadatas.value, split) == []
  {
    if metadatas.Some? && metadatas.value != [] then
      AlignedLength(texts, metadatas.value, split);
      var a := Aligned(texts, metadatas.value, split);
      if a != [] then Some(a) else None
    else None
  }

  class VectorStoreService {
    const fs: FileSystem
    /** `self.db`. */
    var db: Index

    /** The saved store is the one in memory. */
    predicate Persisted()
      reads this, fs
    {
      StorePath in fs.indexes && fs.indexes[StorePath] == db
    }

    /** `VectorStoreService(api_key)` up to its call of `_initialize_store`. */
    constructor (fs: FileSystem)
      ensures this.fs == fs && db == Index([])
    {
      this.fs := fs;
      db := Index([]);
    }

    /**
     * `_initialize_store()`: loads the saved store when its path exists
     * (a regular file there makes loading fail); otherwise creates a store
     * holding the single text "initialization" and saves it.
     */
    method InitializeStore(fault: Option<string>) returns (r: Outcome)
      requires fs.Valid()
      modifies this, fs
      ensures fs.Valid() && fs.files == old(fs.files)
      ensures old(StorePath in fs.indexes) ==>
        r == Pass && db == old(fs.indexes)[StorePath] && fs.indexes == old(fs.indexes)
      ensures old(StorePath in fs.files) ==>
        r == Fail(CannotReadIndex(StorePath, "Not a directory")) && db == old(db) && fs.indexes == old(fs.indexes)
      ensures old(!fs.Exists(StorePath)) && fault.Some? ==>
        r == Fail(fault.value) && db == old(db) && fs.indexes == old(fs.indexes)
      ensures old(!fs.Exists(StorePath)) && fault.None? ==>
        && r == Pass && db == Index([Entry(InitText, map[])])
        && fs.indexes == old(fs.indexes)[StorePath := db]
      ensures r.Pass? ==> Persisted()
    {
      if fs.Exists(StorePath) {
        var loaded := fs.LoadIndex(StorePath);
        if loaded.Err? {
          return Fail(loaded.error);
        }
        db := loaded.value;
        return Pass;
      }
      if fault.Some? {
        return Fail(fault.value);
      }
      db := FromTexts([InitText], None);
      r := fs.SaveIndex(StorePath, db);
    }

    /**
     * `add_texts(texts, metadatas)`: IndexError when metadatas are given
     * (a non-empty list) but shorter than the texts; otherwise the splits
     * are added in order with their aligned metadatas and the store is
     * saved. `fault` is a failure of the embedding call inside
     * `db.add_texts`, which leaves the store as it was; so does a batch
     * with no splits at all, which faiss's `add` rejects.
     */
    method AddTexts(texts: seq<string>, metadatas: Option<seq<Dict>>, split: string -> seq<string>, fault: Option<string>)
      returns (r: Outcome)
      requires fs.Valid()
      modifies this, fs
      ensures fs.Valid() && fs.files == old(fs.files)
      ensures var short := metadatas.Some? && metadatas.value != [] && |metadatas.value| < |texts|;
        && (short ==>
              r == Fail(IndexOutOfRange) && db == old(db) && fs.indexes == old(fs.indexes))
        && (!short && fault.Some? ==>
              r == Fail(fault.value) && db == old(db) && fs.indexes == old(fs.indexes))
        && (!short && fault.None? && AllSplits(texts, split) == [] ==>
              r == Fail(EmptyBatch) && db == old(db) && fs.indexes == old(fs.indexes))
        && (!short && fault.None? && AllSplits(texts, split) != [] ==>
              && db == FileStore.AddTexts(old(db), AllSplits(texts, split), MetadataArg(texts, metadatas, split))
              && (r.Pass? <==> StorePath !in fs.files)
              && (r.Pass? ==> fs.indexes == old(fs.indexes)[StorePath := db])
              && (r.Fail? ==> fs.indexes == old(fs.indexes)))
      ensures r.Pass? ==> Persisted()
    {
      var given := metadatas.Some? && metadatas.value != [];
      var allSplits: seq<string> := [];
      var allMetadatas: seq<Dict> := [];
      for i := 0 to |texts|
        invariant allSplits == AllSplits(texts[..i], split)
        invariant given ==> i <= |metadatas.value| && allMetadatas == Aligned(texts[..i], metadatas.value, split)
        invariant !given ==> allMetadatas == []
      {
        assert texts[..i + 1][..i] == texts[..i];
        var splits := split(texts[i]);
        allSplits := allSplits + splits;
        if given {
          if i >= |metadatas.value| {
            return Fail(IndexOutOfRange);
          }
          allMetadatas := allMetadatas + seq(|splits|, _ => metadatas.value[i]);
        }
      }
      assert texts[..|texts|] == texts;
      if fault.Some? {
        return Fail(fault.value);
      }
      if allSplits == [] {
        return Fail(EmptyBatch);
      }
      if given {
        AlignedLength(texts, metadatas.value, split);
      }
      db := FileStore.AddTexts(db, allSplits, if allMetadatas != [] then Some(allMetadatas) else None);
      r := fs.SaveIndex(StorePath, db);
    }
  }
}
