/**
 * `VectorStoreManager` of services/vector_store_manager.py: a registry of
 * timestamped per-document FAISS stores under `vector_store/`, kept in
 * memory as `self.metadata` and persisted to `vector_store/metadata.json`;
 * a search that merges the hits of every live store; deletion; and the
 * age-based cleanup. The JSON encoding of the registry file is abstracted:
 * the file holds the registry itself, or is missing or unreadable.
 */
module StoreManager {
  import opened Common
  import opened Clock
  import opened FileStore

  const ManagerDir := "vector_store"
  const SecondsPerDay := 24 * 60 * 60

  /** One registry entry: `{timestamp, path, metadata}`. */
  datatype StoreInfo = StoreInfo(timestamp: string, path: string, metadata: Dict)

  /**
   * `self.metadata`: `last_updated`, the `documents` dict (a Python dict
   * keeps its keys in insertion order, which is `order`) and `global_store`.
   */
  datatype Registry = Registry(
    lastUpdated: Option<string>,
    order: seq<string>,
    documents: map<string, StoreInfo>,
    globalStore: Option<string>)

  /** The key order lists every registered id exactly once. */
  ghost predicate ValidRegistry(reg: Registry)
  {
    && (forall i, j :: 0 <= i < j < |reg.order| ==> reg.order[i] != reg.order[j])
    && (forall id :: id in reg.documents <==> id in reg.order)
  }

  /** `{"last_updated": None, "documents": {}, "global_store": None}`. */
  const EmptyRegistry := Registry(None, [], map[], None)

  /** What `metadata.json` holds. */
  datatype MetadataFile = Missing | Unreadable | Parsed(registry: Registry)

  /** `load_metadata()`: the saved registry, or the empty one when the file is missing or unreadable. */
  function LoadRegistry(f: MetadataFile): (reg: Registry)
    requires f.Parsed? ==> ValidRegistry(f.registry)
    ensures ValidRegistry(reg)
    ensures f.Parsed? ==> reg == f.registry
    ensures !f.Parsed? ==> reg.documents == map[] && reg.lastUpdated.None? && reg.globalStore.None?
  {
    if f.Parsed? then f.registry else EmptyRegistry
  }

  /** `self.metadata["documents"][id] = info`: a new key goes last, an existing key keeps its place. */
  function Put(reg: Registry, id: string, info: StoreInfo): (r: Registry)
    requires ValidRegistry(reg)
    ensures ValidRegistry(r)
    ensures r.documents == reg.documents[id := info]
    ensures id in reg.documents ==> r.order == reg.order
    ensures id !in reg.documents ==> r.order == reg.order + [id]
    ensures r.lastUpdated == reg.lastUpdated && r.globalStore == reg.globalStore
  {
    if id in reg.documents then reg.(documents := reg.documents[id := info])
    else reg.(order := reg.order + [id], documents := reg.documents[id := info])
  }

  /** `order` without `id`, the other keys in their order. */
  function Without(order: seq<string>, id: string): (r: seq<string>)
    ensures forall x :: x in r <==> x in order && x != id
  {
    if order == [] then []
    else if order[0] == id then Without(order[1..], id)
    else [order[0]] + Without(order[1..], id)
  }

  /** Removing a key from a duplicate-free order leaves it duplicate-free. */
  lemma {:induction false} WithoutDistinct(order: seq<string>, id: string)
    requires forall i, j :: 0 <= i < j < |order| ==> order[i] != order[j]
    ensures forall i, j :: 0 <= i < j < |Without(order, id)| ==> Without(order, id)[i] != Without(order, id)[j]
  {
    if order != [] {
      var rest := order[1..];
      assert forall i, j :: 0 <= i < j < |rest| ==> rest[i] != rest[j] by {
        forall i, j | 0 <= i < j < |rest| ensures rest[i] != rest[j] {
          assert rest[i] == order[i + 1] && rest[j] == order[j + 1];
        }
      }
      WithoutDistinct(rest, id);
      if order[0] != id {
        var t := Without(rest, id);
        var r := [order[0]] + t;
        assert Without(order, id) == r;
        assert order[0] !in rest by {
          forall j | 0 <= j < |rest| ensures rest[j] != order[0] {
            assert rest[j] == order[j + 1];
          }
        }
        forall i, j | 0 <= i < j < |r| ensures r[i] != r[j] {
          assert r[j] == t[j - 1];
          if i > 0 {
            assert r[i] == t[i - 1];
          } else {
            assert t[j - 1] in t;
          }
        }
      }
    }
  }

  /** `del self.metadata["documents"][id]`. */
  function Remove(reg: Registry, id: string): (r: Registry)
    requires ValidRegistry(reg)
    ensures ValidRegistry(r)
    ensures r.documents == reg.documents - {id}
    ensures r.order == Without(reg.order, id)
    ensures r.lastUpdated == reg.lastUpdated && r.globalStore == reg.globalStore
  {
    WithoutDistinct(reg.order, id);
    reg.(order := Without(reg.order, id), documents := reg.documents - {id})
  }

  /** `base_metadata`: the caller's dict (or `{}`) with `doc_id` and `timestamp` set. */
  function BaseMetadata(docId: string, metadata: Option<Dict>, stamp: string): (d: Dict)
    ensures "doc_id" in d && d["doc_id"] == Str(docId)
    ensures "timestamp" in d && d["timestamp"] == Str(stamp)
    ensures metadata.Some? ==> forall key :: key in metadata.value && key != "doc_id" && key != "timestamp" ==>
      key in d && d[key] == metadata.value[key]
    ensures d.Keys == (if metadata.Some? then metadata.value.Keys else {}) + {"doc_id", "timestamp"}
  {
    (if metadata.Some? then metadata.value else map[])["doc_id" := Str(docId)]["timestamp" := Str(stamp)]
  }

  /** The directory of a new store: `vector_store/doc_<id>_<stamp>`. */
  function VersionPath(docId: string, stamp: string): string
  {
    Join(ManagerDir, "doc_" + docId + "_" + stamp)
  }

  /**
   * Every update gets a directory of its own: two updates of one document
   * in different seconds never write to the same directory.
   */
  lemma VersionPathsDiffer(docId: string, a: DateTime, b: DateTime)
    requires ValidTime(a) && ValidTime(b) && a != b
    ensures VersionPath(docId, Compact(a)) != VersionPath(docId, Compact(b))
  {
    CompactInjective(a, b);
    var pre := "doc_" + docId + "_";
    assert Compact(a) == (pre + Compact(a))[|pre|..];
    assert Compact(b) == (pre + Compact(b))[|pre|..];
    if VersionPath(docId, Compact(a)) == VersionPath(docId, Compact(b)) {
      JoinInjective(ManagerDir, pre + Compact(a), pre + Compact(b));
    }
  }

  // ---------------------------------------------------------------------
  // Search: live stores, gathered hits, stable sort by score, top k

  /** Every id in the registry's order has an entry: what a valid registry gives the search. */
  ghost predicate Listed(reg: Registry)
  {
    forall i :: 0 <= i < |reg.order| ==> reg.order[i] in reg.documents
  }

  /** The registered store paths that exist on disk, in registry order. */
  function LivePaths(reg: Registry, files: map<string, seq<bv8>>, indexes: map<string, Index>, n: nat): (ps: seq<string>)
    requires Listed(reg) && n <= |reg.order|
    ensures |ps| <= n
    ensures forall p :: p in ps ==> p in files || p in indexes
  {
    if n == 0 then []
    else
      var p := reg.documents[reg.order[n - 1]].path;
      LivePaths(reg, files, indexes, n - 1) + (if p in files || p in indexes then [p] else [])
  }

  /**
   * The paths searched are exactly the store paths of the first `n`
   * registered documents that exist on disk.
   */
  lemma {:induction false} LiveStores(reg: Registry, files: map<string, seq<bv8>>, indexes: map<string, Index>, n: nat)
    requires Listed(reg) && n <= |reg.order|
    ensures forall p :: p in LivePaths(reg, files, indexes, n) <==>
      (p in files || p in indexes) && exists i :: 0 <= i < n && reg.documents[reg.order[i]].path == p
    decreases n
  {
    if n > 0 {
      LiveStores(reg, files, indexes, n - 1);
      var prev := LivePaths(reg, files, indexes, n - 1);
      var q := reg.documents[reg.order[n - 1]].path;
      var live := LivePaths(reg, files, indexes, n);
      assert live == prev + (if q in files || q in indexes then [q] else []);
      forall p | p in live
        ensures exists i :: 0 <= i < n && reg.documents[reg.order[i]].path == p
      {
        if p !in prev {
          assert p == q;
        }
      }
      forall p | (p in files || p in indexes) && (exists i :: 0 <= i < n && reg.documents[reg.order[i]].path == p)
        ensures p in live
      {
        var i :| 0 <= i < n && reg.documents[reg.order[i]].path == p;
        if i < n - 1 {
          assert p in prev;
        }
      }
    }
  }

  /**
   * The hits of one store: what the search gives when the store loads and
   * the search succeeds, nothing otherwise (the failure is only logged).
   */
  function StoreHits(indexes: map<string, Index>, p: string, search: (Index, string, int, Option<Dict>) -> Result<seq<Hit>>,
                     query: string, k: int, filter: Option<Dict>): seq<Hit>
  {
    if p in indexes then
      match search(indexes[p], query, k, filter)
      case Ok(hits) => hits
      case Err(_) => []
    else []
  }

  /** `results.extend(...)` over the live stores in order. */
  function Gathered(paths: seq<string>, indexes: map<string, Index>, search: (Index, string, int, Option<Dict>) -> Result<seq<Hit>>,
                    query: string, k: int, filter: Option<Dict>): seq<Hit>
  {
    if paths == [] then []
    else
      Gathered(paths[..|paths| - 1], indexes, search, query, k, filter)
        + StoreHits(indexes, paths[|paths| - 1], search, query, k, filter)
  }

  lemma GatheredStep(paths: seq<string>, i: nat, indexes: map<string, Index>,
                     search: (Index, string, int, Option<Dict>) -> Result<seq<Hit>>, query: string, k: int, filter: Option<Dict>)
    requires i < |paths|
    ensures Gathered(paths[..i + 1], indexes, search, query, k, filter)
      == Gathered(paths[..i], indexes, search, query, k, filter) + StoreHits(indexes, paths[i], search, query, k, filter)
  {
    assert paths[..i + 1][..i] == paths[..i];
  }

  /** The search keyword argument: a filter is passed only when it is a non-empty dict. */
  function FilterArg(filter: Option<Dict>): Option<Dict>
  {
    if filter.Some? && filter.value != map[] then filter else None
  }

  predicate SortedByScore(s: seq<Hit>)
  {
    forall i, j :: 0 <= i < j < |s| ==> s[i].score <= s[j].score
  }

  /** Puts `h` before the first element whose score is not smaller. */
  function InsertByScore(h: Hit, s: seq<Hit>): (r: seq<Hit>)
    ensures |r| == |s| + 1
    ensures multiset(r) == multiset{h} + multiset(s)
    ensures r[0] == h || (s != [] && r[0] == s[0])
  {
    if s == [] || h.score <= s[0].score then [h] + s
    else
      assert s == [s[0]] + s[1..];
      [s[0]] + InsertByScore(h, s[1..])
  }

  lemma {:induction false} InsertByScoreSorted(h: Hit, s: seq<Hit>)
    requires SortedByScore(s)
    ensures SortedByScore(InsertByScore(h, s))
  {
    var r := InsertByScore(h, s);
    if s == [] || h.score <= s[0].score {
      forall i, j | 0 <= i < j < |r| ensures r[i].score <= r[j].score {
        if i > 0 {
          assert r[i] == s[i - 1] && r[j] == s[j - 1];
        } else {
          assert r[j] == s[j - 1];
        }
      }
    } else {
      var t := InsertByScore(h, s[1..]);
      InsertByScoreSorted(h, s[1..]);
      assert r == [s[0]] + t;
      assert s[0].score <= t[0].score;
      forall i, j | 0 <= i < j < |r| ensures r[i].score <= r[j].score {
        if i > 0 {
          assert r[i] == t[i - 1] && r[j] == t[j - 1];
        } else {
          assert r[j] == t[j - 1];
          assert t[0].score <= t[j - 1].score;
        }
      }
    }
  }

  /** `results.sort(key=lambda x: x[1])`: a stable sort by ascending score. */
  function SortByScore(s: seq<Hit>): (r: seq<Hit>)
    ensures SortedByScore(r)
    ensures multiset(r) == multiset(s)
    ensures |r| == |s|
  {
    if s == [] then []
    else
      assert s == [s[0]] + s[1..];
      var t := SortByScore(s[1..]);
      InsertByScoreSorted(s[0], t);
      InsertByScore(s[0], t)
  }

  /** The hits of one score, in their order. */
  function WithScore(s: seq<Hit>, v: int): seq<Hit>
  {
    if s == [] then [] else (if s[0].score == v then [s[0]] else []) + WithScore(s[1..], v)
  }

  lemma {:induction false} WithScoreAppend(a: seq<Hit>, b: seq<Hit>, v: int)
    ensures WithScore(a + b, v) == WithScore(a, v) + WithScore(b, v)
  {
    if a != [] {
      assert (a + b)[0] == a[0];
      assert (a + b)[1..] == a[1..] + b;
      WithScoreAppend(a[1..], b, v);
    } else {
      assert a + b == b;
    }
  }

  lemma WithScoreSingle(x: Hit, v: int)
    ensures WithScore([x], v) == if x.score == v then [x] else []
  {
    assert [x][1..] == [];
  }

  lemma {:induction false} InsertByScoreStable(h: Hit, s: seq<Hit>, v: int)
    ensures WithScore(InsertByScore(h, s), v) == WithScore([h], v) + WithScore(s, v)
  {
    if s == [] || h.score <= s[0].score {
      assert InsertByScore(h, s) == [h] + s;
      WithScoreAppend([h], s, v);
    } else {
      var t := InsertByScore(h, s[1..]);
      var u := [s[0]] + t;
      assert InsertByScore(h, s) == u;
      InsertByScoreStable(h, s[1..], v);
      WithScoreSingle(h, v);
      var x0 := if s[0].score == v then [s[0]] else [];
      var xh := WithScore([h], v);
      var rest := WithScore(s[1..], v);
      assert WithScore(s, v) == x0 + rest;
      assert WithScore(u, v) == x0 + (xh + rest) by {
        assert u[0] == s[0] && u[1..] == t;
      }
      if h.score == v {
        assert x0 == [];
      } else {
        assert xh == [];
      }
    }
  }

  /** The sort is stable: hits with equal scores keep the order in which they were gathered. */
  lemma {:induction false} SortByScoreStable(s: seq<Hit>, v: int)
    ensures WithScore(SortByScore(s), v) == WithScore(s, v)
  {
    if s != [] {
      SortByScoreStable(s[1..], v);
      InsertByScoreStable(s[0], SortByScore(s[1..]), v);
      WithScoreAppend([s[0]], s[1..], v);
      assert [s[0]] + s[1..] == s;
    }
  }

  /** Python's `s[:k]`: a negative `k` counts from the end. */
  function PyPrefix<T>(s: seq<T>, k: int): (r: seq<T>)
    ensures |r| <= |s| && r == s[..|r|]
    ensures k >= 0 ==> |r| == if k < |s| then k else |s|
    ensures k < 0 ==> |r| == if |s| + k > 0 then |s| + k else 0
  {
    if k >= 0 then (if k < |s| then s[..k] else s)
    else if |s| + k > 0 then s[..|s| + k] else []
  }

  /** A prefix of a sorted list is sorted, is part of it, and scores no worse than the rest. */
  lemma SortedPrefix(s: seq<Hit>, n: nat)
    requires SortedByScore(s) && n <= |s|
    ensures SortedByScore(s[..n])
    ensures multiset(s[..n]) <= multiset(s)
    ensures forall i, j :: 0 <= i < n <= j < |s| ==> s[i].score <= s[j].score
  {
    assert s == s[..n] + s[n..];
    assert multiset(s) == multiset(s[..n]) + multiset(s[n..]);
  }

  /**
   * What the search returns: best (lowest) score first, at most `k` of the
   * gathered hits for `k >= 0`, and every omitted hit scores no better
   * than every returned one.
   */
  lemma TopHits(hits: seq<Hit>, k: int)
    ensures SortedByScore(PyPrefix(SortByScore(hits), k))
    ensures multiset(PyPrefix(SortByScore(hits), k)) <= multiset(hits)
    ensures k >= 0 ==> |PyPrefix(SortByScore(hits), k)| == if k < |hits| then k else |hits|
    ensures var s := SortByScore(hits); var r := PyPrefix(s, k);
      forall i, j :: 0 <= i < |r| <= j < |s| ==> r[i].score <= s[j].score
  {
    var s := SortByScore(hits);
    var r := PyPrefix(s, k);
    SortedPrefix(s, |r|);
    assert r == s[..|r|];
  }

  // ---------------------------------------------------------------------
  // Deletion and cleanup, as functions of the state

  /** The state one `delete_document` leaves: its result, the registry and the stores on disk. */
  datatype DeleteOutcome = DeleteOutcome(result: Result<bool>, registry: Registry, indexes: map<string, Index>)

  /**
   * `delete_document(id)` at `stamp`: False for an unregistered id;
   * otherwise the store directory is removed when there is one, the entry
   * goes, `last_updated` is the stamp, and the result is True. A regular
   * file at the store's path makes `rmtree` raise, and nothing changes.
   */
  function DeleteStep(reg: Registry, files: map<string, seq<bv8>>, indexes: map<string, Index>, id: string, stamp: string)
    : (d: DeleteOutcome)
    requires ValidRegistry(reg)
    ensures ValidRegistry(d.registry)
    ensures id !in reg.documents <==> d.result == Ok(false)
    ensures id !in reg.documents ==> d == DeleteOutcome(Ok(false), reg, indexes)
    ensures id in reg.documents && !d.result.Err? ==> d.result == Ok(true)
    ensures d.result.Err? <==> id in reg.documents && reg.documents[id].path in files && reg.documents[id].path !in indexes
    ensures d.result.Err? ==> d.registry == reg && d.indexes == indexes
    ensures d.result == Ok(true) ==>
      && d.registry == Remove(reg, id).(lastUpdated := Some(stamp))
      && d.registry.documents == reg.documents - {id} && d.registry.lastUpdated == Some(stamp)
      && d.indexes == indexes - {reg.documents[id].path}
  {
    if id !in reg.documents then DeleteOutcome(Ok(false), reg, indexes)
    else
      var p := reg.documents[id].path;
      if p in indexes then DeleteOutcome(Ok(true), Remove(reg, id).(lastUpdated := Some(stamp)), indexes - {p})
      else if p in files then DeleteOutcome(Err(NotADirectory(p)), reg, indexes)
      else DeleteOutcome(Ok(true), Remove(reg, id).(lastUpdated := Some(stamp)), indexes)
  }

  /** `list(self.metadata["documents"].items())`. */
  function Snapshot(reg: Registry): (snap: seq<(string, StoreInfo)>)
    requires ValidRegistry(reg)
    ensures |snap| == |reg.order|
    ensures forall i :: 0 <= i < |snap| ==> snap[i].0 == reg.order[i] && snap[i].1 == reg.documents[reg.order[i]]
  {
    seq(|reg.order|, i requires 0 <= i < |reg.order| => (reg.order[i], reg.documents[reg.order[i]]))
  }

  /** Whether a store is older than the cutoff; None where `strptime` raises. */
  function Stale(info: StoreInfo, cutoff: int): Option<bool>
  {
    match ParseCompact(info.timestamp)
    case None => None
    case Some(t) => Some(EpochSeconds(t) < cutoff)
  }

  /**
   * The cleanup loop over a snapshot: stale entries are deleted one by one;
   * the first timestamp that does not parse, or the first deletion that
   * raises, ends the loop (the error is only logged).
   */
  function CleanupRun(reg: Registry, files: map<string, seq<bv8>>, indexes: map<string, Index>,
                      snap: seq<(string, StoreInfo)>, cutoff: int, stamp: string): (r: (Registry, map<string, Index>))
    requires ValidRegistry(reg)
    ensures ValidRegistry(r.0)
    decreases |snap|
  {
    if snap == [] then (reg, indexes)
    else
      match Stale(snap[0].1, cutoff)
      case None => (reg, indexes)
      case Some(false) => CleanupRun(reg, files, indexes, snap[1..], cutoff, stamp)
      case Some(true) =>
        var d := DeleteStep(reg, files, indexes, snap[0].0, stamp);
        if d.result.Err? then (reg, indexes)
        else CleanupRun(d.registry, files, d.indexes, snap[1..], cutoff, stamp)
  }

  /** The snapshot entry for `id` is stale. */
  predicate StaleIn(snap: seq<(string, StoreInfo)>, cutoff: int, id: string)
  {
    exists i :: 0 <= i < |snap| && snap[i].0 == id && Stale(snap[i].1, cutoff) == Some(true)
  }

  lemma StaleInCons(snap: seq<(string, StoreInfo)>, cutoff: int, id: string)
    requires snap != []
    ensures StaleIn(snap, cutoff, id) <==>
      (snap[0].0 == id && Stale(snap[0].1, cutoff) == Some(true)) || StaleIn(snap[1..], cutoff, id)
  {
    if StaleIn(snap, cutoff, id) {
      var i :| 0 <= i < |snap| && snap[i].0 == id && Stale(snap[i].1, cutoff) == Some(true);
      if i > 0 {
        assert snap[1..][i - 1] == snap[i];
      }
    }
    if StaleIn(snap[1..], cutoff, id) {
      var i :| 0 <= i < |snap[1..]| && snap[1..][i].0 == id && Stale(snap[1..][i].1, cutoff) == Some(true);
      assert snap[i + 1] == snap[1..][i];
    }
  }

  /** The snapshot entries still to visit are registered, with the value they had when the snapshot was taken. */
  ghost predicate Pending(reg: Registry, snap: seq<(string, StoreInfo)>)
  {
    && (forall i, j :: 0 <= i < j < |snap| ==> snap[i].0 != snap[j].0)
    && (forall i :: 0 <= i < |snap| ==> snap[i].0 in reg.documents && reg.documents[snap[i].0] == snap[i].1)
  }

  /** Visiting one snapshot entry: a stale entry is deleted, a fresh one is left alone. */
  function AfterVisit(reg: Registry, files: map<string, seq<bv8>>, indexes: map<string, Index>,
                      entry: (string, StoreInfo), cutoff: int, stamp: string): (r: (Registry, map<string, Index>))
    requires ValidRegistry(reg)
    ensures ValidRegistry(r.0)
  {
    if Stale(entry.1, cutoff) == Some(true) then
      var d := DeleteStep(reg, files, indexes, entry.0, stamp);
      (d.registry, d.indexes)
    else (reg, indexes)
  }

  /** One step of the cleanup loop, when it neither stops nor fails. */
  lemma CleanupStep(reg: Registry, files: map<string, seq<bv8>>, indexes: map<string, Index>,
                    snap: seq<(string, StoreInfo)>, cutoff: int, stamp: string)
    requires ValidRegistry(reg) && snap != [] && Pending(reg, snap)
    requires Stale(snap[0].1, cutoff).Some?
    requires Stale(snap[0].1, cutoff) == Some(true) ==> snap[0].1.path !in files
    ensures var next := AfterVisit(reg, files, indexes, snap[0], cutoff, stamp);
      && CleanupRun(reg, files, indexes, snap, cutoff, stamp) == CleanupRun(next.0, files, next.1, snap[1..], cutoff, stamp)
      && next.0.documents == (if Stale(snap[0].1, cutoff) == Some(true) then reg.documents - {snap[0].0} else reg.documents)
      && Pending(next.0, snap[1..])
  {
    var rest := snap[1..];
    forall i | 0 <= i < |rest| ensures rest[i].0 != snap[0].0 && rest[i] == snap[i + 1] {
      assert rest[i] == snap[i + 1];
    }
  }

  /** Whether every entry still to visit parses, and no stale one sits on a regular file. */
  ghost predicate Clean(files: map<string, seq<bv8>>, snap: seq<(string, StoreInfo)>, cutoff: int)
  {
    forall i :: 0 <= i < |snap| ==>
      Stale(snap[i].1, cutoff).Some? && (Stale(snap[i].1, cutoff) == Some(true) ==> snap[i].1.path !in files)
  }

  /** What the cleanup loop leaves of one id: it is gone exactly when its snapshot entry is stale. */
  lemma {:induction false} CleanupRunExact(reg: Registry, files: map<string, seq<bv8>>, indexes: map<string, Index>,
                                           snap: seq<(string, StoreInfo)>, cutoff: int, stamp: string, id: string)
    requires ValidRegistry(reg) && Pending(reg, snap) && Clean(files, snap, cutoff)
    decreases |snap|
    ensures var res := CleanupRun(reg, files, indexes, snap, cutoff, stamp).0;
      && (id in res.documents <==> id in reg.documents && !StaleIn(snap, cutoff, id))
      && (id in res.documents ==> res.documents[id] == reg.documents[id])
  {
    if snap != [] {
      var rest := snap[1..];
      CleanupStep(reg, files, indexes, snap, cutoff, stamp);
      var next := AfterVisit(reg, files, indexes, snap[0], cutoff, stamp);
      assert Clean(files, rest, cutoff) by {
        forall i | 0 <= i < |rest| ensures rest[i] == snap[i + 1] { }
      }
      CleanupRunExact(next.0, files, next.1, rest, cutoff, stamp, id);
      StaleInCons(snap, cutoff, id);
    }
  }

  /** A registered entry is stale in the snapshot exactly when its own timestamp is older than the cutoff. */
  lemma StaleInSnapshot(reg: Registry, cutoff: int, id: string)
    requires ValidRegistry(reg) && id in reg.documents
    ensures StaleIn(Snapshot(reg), cutoff, id) <==> Stale(reg.documents[id], cutoff) == Some(true)
  {
    var snap := Snapshot(reg);
    var i :| 0 <= i < |reg.order| && reg.order[i] == id;
    assert snap[i].0 == id && snap[i].1 == reg.documents[id];
    if StaleIn(snap, cutoff, id) {
      var j :| 0 <= j < |snap| && snap[j].0 == id && Stale(snap[j].1, cutoff) == Some(true);
      assert snap[j].1 == reg.documents[id];
    }
  }

  /** The entries of a registry, in order, are pending and clean when the registry's own entries are. */
  lemma SnapshotClean(reg: Registry, files: map<string, seq<bv8>>, cutoff: int)
    requires ValidRegistry(reg)
    requires forall id :: id in reg.documents ==> Stale(reg.documents[id], cutoff).Some?
    requires forall id :: id in reg.documents && Stale(reg.documents[id], cutoff) == Some(true) ==> reg.documents[id].path !in files
    ensures Pending(reg, Snapshot(reg)) && Clean(files, Snapshot(reg), cutoff)
  {
    var snap := Snapshot(reg);
    forall i | 0 <= i < |snap|
      ensures Stale(snap[i].1, cutoff).Some? && (Stale(snap[i].1, cutoff) == Some(true) ==> snap[i].1.path !in files)
    {
      assert snap[i].0 in reg.documents && snap[i].1 == reg.documents[snap[i].0];
    }
  }

  /**
   * When every timestamp parses and no stale store path is a regular file,
   * the cleanup deletes exactly the entries older than the cutoff (strictly)
   * and leaves every other entry as it was.
   */
  lemma CleanupExact(reg: Registry, files: map<string, seq<bv8>>, indexes: map<string, Index>, cutoff: int, stamp: string, id: string)
    requires ValidRegistry(reg)
    requires forall id :: id in reg.documents ==> Stale(reg.documents[id], cutoff).Some?
    requires forall id :: id in reg.documents && Stale(reg.documents[id], cutoff) == Some(true) ==> reg.documents[id].path !in files
    ensures var res := CleanupRun(reg, files, indexes, Snapshot(reg), cutoff, stamp).0;
      && (id in res.documents <==> id in reg.documents && Stale(reg.documents[id], cutoff) == Some(false))
      && (id in res.documents ==> res.documents[id] == reg.documents[id])
  {
    SnapshotClean(reg, files, cutoff);
    CleanupRunExact(reg, files, indexes, Snapshot(reg), cutoff, stamp, id);
    if id in reg.documents {
      StaleInSnapshot(reg, cutoff, id);
    }
  }

  /**
   * The cleanup threshold `now - timedelta(days)`, in seconds since the
   * epoch: a stored stamp falls below it exactly when it is more than
   * `days` whole days older than `now`.
   */
  function Cutoff(now: DateTime, days: int): (c: int)
    requires ValidTime(now)
    ensures forall t :: ValidTime(t) ==>
      (EpochSeconds(t) < c <==> EpochSeconds(now) - EpochSeconds(t) > days * SecondsPerDay)
  {
    EpochSeconds(now) - days * SecondsPerDay
  }

  class VectorStoreManager {
    const fs: FileSystem
    /** `self.metadata`. */
    var registry: Registry
    /** `vector_store/metadata.json`. */
    var metadataFile: MetadataFile

    ghost predicate Valid()
      reads this, fs
    {
      fs.Valid() && ValidRegistry(registry)
    }

    /** `VectorStoreManager(settings)`: loads the registry from the file. */
    constructor (fs: FileSystem, file: MetadataFile)
      requires fs.Valid() && (file.Parsed? ==> ValidRegistry(file.registry))
      ensures Valid() && this.fs == fs && metadataFile == file && registry == LoadRegistry(file)
    {
      this.fs := fs;
      metadataFile := file;
      registry := LoadRegistry(file);
    }

    /**
     * `update_document_store(doc_id, texts, metadata)` at `now`: a new store
     * in its own timestamped directory whose every document carries a copy
     * of the base metadata; the entry is replaced and `last_updated` set.
     * The directory of an earlier version is left on disk. `storeFault` is
     * a failure of the embedder inside `from_texts`; an empty `texts` makes
     * `from_texts` raise, and then nothing is saved or registered.
     */
    method UpdateDocumentStore(docId: string, texts: seq<string>, metadata: Option<Dict>, now: DateTime, storeFault: Option<string>)
      returns (r: Result<string>)
      requires Valid() && ValidTime(now)
      modifies this, fs
      ensures Valid() && fs.files == old(fs.files)
      ensures var stamp := Compact(now); var path := VersionPath(docId, stamp);
        && (r.Ok? <==> storeFault.None? && texts != [] && path !in old(fs.files))
        && (storeFault.Some? ==> r == Err(storeFault.value))
        && (storeFault.None? && texts == [] ==> r == Err(NoEmbeddings))
        && (r.Err? ==> registry == old(registry) && metadataFile == old(metadataFile) && fs.indexes == old(fs.indexes))
        && (r.Ok? ==>
              && r.value == path
              && fs.indexes == old(fs.indexes)[path := FromTexts(texts, Some(seq(|texts|, _ => BaseMetadata(docId, metadata, stamp))))]
              && registry == Put(old(registry), docId, StoreInfo(stamp, path, BaseMetadata(docId, metadata, stamp))).(lastUpdated := Some(stamp))
              && metadataFile == Parsed(registry))
    {
      var stamp := Compact(now);
      var path := VersionPath(docId, stamp);
      var base := BaseMetadata(docId, metadata, stamp);
      var metadatas: seq<Dict> := [];
      for i := 0 to |texts|
        invariant |metadatas| == i
        invariant forall j :: 0 <= j < i ==> metadatas[j] == base
      {
        metadatas := metadatas + [base];
      }
      assert metadatas == seq(|texts|, _ => base);
      if storeFault.Some? {
        return Err(storeFault.value);
      }
      if texts == [] {
        return Err(NoEmbeddings);
      }
      var saved := fs.SaveIndex(path, FromTexts(texts, Some(metadatas)));
      if saved.Fail? {
        return Err(saved.error);
      }
      registry := Put(registry, docId, StoreInfo(stamp, path, base)).(lastUpdated := Some(stamp));
      metadataFile := Parsed(registry);
      return Ok(path);
    }

    /**
     * `search_documents(query, filter_dict, k)`: `search` stands for loading
     * a store and `similarity_search_with_score`. Reads only.
     */
    method SearchDocuments(query: string, filter: Option<Dict>, k: int, search: (Index, string, int, Option<Dict>) -> Result<seq<Hit>>)
      returns (r: seq<Hit>)
      requires Valid()
      ensures var live := LivePaths(registry, fs.files, fs.indexes, |registry.order|);
        r == PyPrefix(SortByScore(Gathered(live, fs.indexes, search, query, k, FilterArg(filter))), k)
      ensures LivePaths(registry, fs.files, fs.indexes, |registry.order|) == [] ==> r == []
    {
      var reg := registry;
      var live: seq<string> := [];
      for i := 0 to |reg.order|
        invariant live == LivePaths(reg, fs.files, fs.indexes, i)
      {
        var p := reg.documents[reg.order[i]].path;
        if fs.Exists(p) {
          live := live + [p];
        }
      }
      if live == [] {
        return [];
      }
      var arg := if filter.Some? && filter.value != map[] then filter else None;
      var results: seq<Hit> := [];
      for i := 0 to |live|
        invariant results == Gathered(live[..i], fs.indexes, search, query, k, arg)
      {
        GatheredStep(live, i, fs.indexes, search, query, k, arg);
        var store := fs.LoadIndex(live[i]);
        if store.Ok? {
          var found := search(store.value, query, k, arg);
          if found.Ok? {
            results := results + found.value;
          }
        }
      }
      assert live[..|live|] == live;
      r := PyPrefix(SortByScore(results), k);
    }

    /** `delete_document(doc_id)` at `now`; the registry file is rewritten after a deletion. */
    method DeleteDocument(docId: string, now: DateTime) returns (r: Result<bool>)
      requires Valid() && ValidTime(now)
      modifies this, fs
      ensures Valid() && fs.files == old(fs.files)
      ensures var d := DeleteStep(old(registry), old(fs.files), old(fs.indexes), docId, Compact(now));
        r == d.result && registry == d.registry && fs.indexes == d.indexes
      ensures metadataFile == if r == Ok(true) then Parsed(registry) else old(metadataFile)
    {
      if docId !in registry.documents {
        return Ok(false);
      }
      var p := registry.documents[docId].path;
      if fs.Exists(p) {
        var removed := fs.RemoveTree(p);
        if removed.Fail? {
          return Err(NotADirectory(p));
        }
      }
      registry := Remove(registry, docId).(lastUpdated := Some(Compact(now)));
      metadataFile := Parsed(registry);
      return Ok(true);
    }

    /**
     * `cleanup_old_stores(days)` at `now`: deletes, in registry order, the
     * entries older than `days` days; any error ends the loop and is only
     * logged. Every deletion stamps `last_updated` with the same reading.
     */
    method CleanupOldStores(days: int, now: DateTime)
      requires Valid() && ValidTime(now)
      modifies this, fs
      ensures Valid() && fs.files == old(fs.files)
      ensures (registry, fs.indexes) == CleanupRun(old(registry), old(fs.files), old(fs.indexes),
        Snapshot(old(registry)), Cutoff(now, days), Compact(now))
      ensures metadataFile == old(metadataFile) || metadataFile == Parsed(registry)
    {
      var cutoff := Cutoff(now, days);
      DeleteStale(Snapshot(registry), cutoff, now);
    }

    /** The loop of `cleanup_old_stores` over the snapshot `snap`, against a computed cutoff. */
    method DeleteStale(snap: seq<(string, StoreInfo)>, cutoff: int, now: DateTime)
      requires Valid() && ValidTime(now)
      modifies this, fs
      ensures Valid() && fs.files == old(fs.files)
      ensures (registry, fs.indexes) == CleanupRun(old(registry), old(fs.files), old(fs.indexes), snap, cutoff, Compact(now))
      ensures metadataFile == old(metadataFile) || metadataFile == Parsed(registry)
    {
      ghost var goal := CleanupRun(registry, fs.files, fs.indexes, snap, cutoff, Compact(now));
      var i := 0;
      assert snap[i..] == snap;
      while i < |snap|
        invariant 0 <= i <= |snap|
        invariant Valid() && fs.files == old(fs.files)
        invariant CleanupRun(registry, fs.files, fs.indexes, snap[i..], cutoff, Compact(now)) == goal
        invariant metadataFile == old(metadataFile) || metadataFile == Parsed(registry)
      {
        var id := snap[i].0;
        var info := snap[i].1;
        assert snap[i..][0] == snap[i] && snap[i..][1..] == snap[i + 1..];
        // `strptime(...).timestamp() < cutoff`; a timestamp that does not parse raises.
        var stale := Stale(info, cutoff);
        if stale.None? {
          return;
        }
        if stale.value {
          var d := DeleteDocument(id, now);
          if d.Err? {
            return;
          }
        }
        i := i + 1;
      }
      assert snap[i..] == [];
    }

    /** `get_document_info(doc_id)`: the registry entry, if any. Reads only. */
    method GetDocumentInfo(docId: string) returns (r: Option<StoreInfo>)
      ensures r.Some? <==> docId in registry.documents
      ensures r.Some? ==> r.value == registry.documents[docId]
    {
      if docId in registry.documents {
        return Some(registry.documents[docId]);
      }
      return None;
    }
  }
}
