/**
 * `DocumentService` of services/document_service.py: the hash
 * `embedded_documents` that maps each document id to its metadata record.
 * Records are created by `log_document_start`, merged into by
 * `update_document_status`, read back by `get_document_status` and
 * `get_all_documents`, and removed by `delete_document`.
 */
module Documents {
  import opened Common
  import opened Clock
  import opened Records
  import opened RedisCache

  const Processing := "processing"
  const ChunkingComplete := "chunking_complete"
  const Embedding := "embedding"
  const Completed := "completed"
  const Error := "error"

  /** The arguments of one `update_document_status` call; `None` leaves a field as it was. */
  datatype StatusUpdate = StatusUpdate(
    status: string,
    chunkCount: Option<int>,
    embeddingModel: Option<string>,
    errorMessage: Option<string>)

  /** `f"doc_{now:%Y%m%d_%H%M%S}_{filename}"`. */
  function DocId(now: DateTime, filename: string): (id: string)
    requires ValidTime(now)
    ensures IsPrefix("doc_", id) && IsSuffix(filename, id)
    ensures |id| == 20 + |filename| && id[4..19] == Compact(now) && id[19] == '_'
  {
    var id := "doc_" + Compact(now) + "_" + filename;
    assert id[4..19] == Compact(now);
    assert id[|id| - |filename|..] == filename;
    id
  }

  /**
   * Two uploads get the same id exactly when they carry the same filename
   * within the same second; the second record then replaces the first.
   */
  lemma DocIdCollision(a: DateTime, f: string, b: DateTime, g: string)
    requires ValidTime(a) && ValidTime(b)
    ensures DocId(a, f) == DocId(b, g) <==> a == b && f == g
  {
    if DocId(a, f) == DocId(b, g) {
      CompactInjective(a, b);
      assert f == DocId(a, f)[20..];
      assert g == DocId(b, g)[20..];
    }
  }

  /** The record `log_document_start` stores: processing, no chunks yet, no model, no error. */
  function Initial(id: string, filename: string, stamp: DateTime): (m: DocumentMetadata)
    requires ValidTime(stamp)
    ensures m.docId == id && m.filename == filename && m.status == Processing
    ensures m.chunkCount == Some(0) && m.embeddingModel.None? && m.errorMessage.None?
  {
    DocumentMetadata(id, filename, IsoFormat(stamp), Processing, Some(0), None, None)
  }

  /** A field given by the update wins; an omitted one keeps its stored value. */
  function Override<T>(stored: Option<T>, given: Option<T>): (r: Option<T>)
    ensures given.Some? ==> r == given
    ensures given.None? ==> r == stored
  {
    if given.Some? then given else stored
  }

  /**
   * The record after one update: the status is always replaced, with no
   * check of where it came from; the optional fields follow `Override`;
   * id, filename and timestamp are never touched.
   */
  function Merge(m: DocumentMetadata, u: StatusUpdate): (r: DocumentMetadata)
    ensures r.docId == m.docId && r.filename == m.filename && r.timestamp == m.timestamp
    ensures r.status == u.status
    ensures r.chunkCount.Some? <==> m.chunkCount.Some? || u.chunkCount.Some?
    ensures r.embeddingModel.Some? <==> m.embeddingModel.Some? || u.embeddingModel.Some?
    ensures r.errorMessage.Some? <==> m.errorMessage.Some? || u.errorMessage.Some?
  {
    m.(status := u.status,
       chunkCount := Override(m.chunkCount, u.chunkCount),
       embeddingModel := Override(m.embeddingModel, u.embeddingModel),
       errorMessage := Override(m.errorMessage, u.errorMessage))
  }

  /** Repeating an update changes nothing more. */
  lemma MergeIdempotent(m: DocumentMetadata, u: StatusUpdate)
    ensures Merge(Merge(m, u), u) == Merge(m, u)
  {
  }

  /**
   * Two updates in a row act as one update whose status is the later one
   * and whose fields are the later ones where given.
   */
  lemma MergeTwice(m: DocumentMetadata, u: StatusUpdate, v: StatusUpdate)
    ensures Merge(Merge(m, u), v) == Merge(m, StatusUpdate(v.status,
      Override(u.chunkCount, v.chunkCount),
      Override(u.embeddingModel, v.embeddingModel),
      Override(u.errorMessage, v.errorMessage)))
  {
  }

  /**
   * `update_document_status` on the hash: the stored record under `id` (with
   * its doc_id forced to the key) merged with the update; an unknown id
   * leaves the hash as it was, and no other key is ever written.
   */
  function ApplyUpdate(docs: map<string, DocumentMetadata>, id: string, u: StatusUpdate)
    : (r: map<string, DocumentMetadata>)
    ensures r.Keys == docs.Keys
    ensures forall k :: k in docs && k != id ==> r[k] == docs[k]
    ensures id in docs ==> r[id] == Merge(docs[id].(docId := id), u)
  {
    if id in docs then docs[id := Merge(docs[id].(docId := id), u)] else docs
  }

  /** A sequence of updates to the same document, applied in order. */
  function ApplyAll(docs: map<string, DocumentMetadata>, id: string, us: seq<StatusUpdate>)
    : map<string, DocumentMetadata>
  {
    if us == [] then docs else ApplyAll(ApplyUpdate(docs, id, us[0]), id, us[1..])
  }

  /** Updates to one document never touch another, and never create or drop a key. */
  lemma {:induction false} ApplyAllFrame(docs: map<string, DocumentMetadata>, id: string, us: seq<StatusUpdate>)
    ensures ApplyAll(docs, id, us).Keys == docs.Keys
    ensures forall k :: k in docs && k != id ==> ApplyAll(docs, id, us)[k] == docs[k]
  {
    if us != [] {
      ApplyAllFrame(ApplyUpdate(docs, id, us[0]), id, us[1..]);
    }
  }

  /**
   * After a non-empty sequence of updates to a known document, its status
   * is the last one written, and each optional field is set exactly when it
   * was set before or some update gave it.
   */
  lemma {:induction false} ApplyAllLast(docs: map<string, DocumentMetadata>, id: string, us: seq<StatusUpdate>)
    requires id in docs && us != []
    ensures id in ApplyAll(docs, id, us)
    ensures ApplyAll(docs, id, us)[id].status == us[|us| - 1].status
    ensures ApplyAll(docs, id, us)[id].docId == id
    ensures ApplyAll(docs, id, us)[id].filename == docs[id].filename
    ensures ApplyAll(docs, id, us)[id].timestamp == docs[id].timestamp
    ensures ApplyAll(docs, id, us)[id].errorMessage.Some? <==>
      docs[id].errorMessage.Some? || exists j :: 0 <= j < |us| && us[j].errorMessage.Some?
    ensures ApplyAll(docs, id, us)[id].embeddingModel.Some? <==>
      docs[id].embeddingModel.Some? || exists j :: 0 <= j < |us| && us[j].embeddingModel.Some?
  {
    var d1 := ApplyUpdate(docs, id, us[0]);
    if |us| > 1 {
      ApplyAllLast(d1, id, us[1..]);
      assert forall j :: 1 <= j < |us| ==> us[j] == us[1..][j - 1];
      assert us[1..][|us[1..]| - 1] == us[|us| - 1];
    }
  }

  /** `get_document_status` on the hash: the stored record with its doc_id forced to the key. */
  function Lookup(docs: map<string, DocumentMetadata>, id: string): (r: Option<DocumentMetadata>)
    ensures r.Some? <==> id in docs
    ensures r.Some? ==> r.value.docId == id && r.value == docs[id].(docId := id)
  {
    if id in docs then Some(docs[id].(docId := id)) else None
  }

  /** The `AttributeError` text of a call to the undefined `RedisManager.ensure_connected`. */
  const NoEnsureConnected := "'RedisManager' object has no attribute 'ensure_connected'"

  class DocumentService {
    const redis: RedisManager

    constructor (redis: RedisManager)
      ensures this.redis == redis
    {
      this.redis := redis;
    }

    /**
     * `log_document_start(filename)`: `now` is the reading used for the id
     * and `stamp` the one used for the record's timestamp (the source reads
     * the clock twice). Any earlier record under the same id is replaced.
     */
    method LogDocumentStart(filename: string, now: DateTime, stamp: DateTime) returns (r: Result<string>)
      requires ValidTime(now) && ValidTime(stamp)
      modifies redis
      ensures redis.connected == old(redis.connected)
      ensures r.Ok? <==> old(redis.connected)
      ensures r.Err? ==> r.error == NoClient("hset") && redis.data == old(redis.data)
      ensures r.Ok? ==> r.value == DocId(now, filename)
      ensures r.Ok? ==> redis.data == old(redis.data).(documents :=
        old(redis.data.documents)[r.value := Initial(r.value, filename, stamp)])
    {
      if !redis.connected {
        return Err(NoClient("hset"));
      }
      var id := DocId(now, filename);
      redis.data := redis.data.(documents := redis.data.documents[id := Initial(id, filename, stamp)]);
      return Ok(id);
    }

    /** `update_document_status(doc_id, ...)`: a read-modify-write of that one record, if it exists. */
    method UpdateDocumentStatus(id: string, u: StatusUpdate) returns (r: Outcome)
      modifies redis
      ensures redis.connected == old(redis.connected)
      ensures r.Pass? <==> old(redis.connected)
      ensures r.Fail? ==> r.error == NoClient("hget") && redis.data == old(redis.data)
      ensures r.Pass? ==> redis.data == old(redis.data).(documents :=
        ApplyUpdate(old(redis.data.documents), id, u))
    {
      if !redis.connected {
        return Fail(NoClient("hget"));
      }
      var docs := redis.data.documents;
      if id in docs {
        var m := docs[id].(docId := id);
        redis.data := redis.data.(documents := docs[id := Merge(m, u)]);
      }
      return Pass;
    }

    /** `get_document_status(doc_id)`: reads only. */
    method GetDocumentStatus(id: string) returns (r: Result<Option<DocumentMetadata>>)
      ensures !redis.connected ==> r == Err(NoClient("hget"))
      ensures redis.connected ==> r == Ok(Lookup(redis.data.documents, id))
    {
      if !redis.connected {
        return Err(NoClient("hget"));
      }
      var docs := redis.data.documents;
      if id in docs {
        return Ok(Some(docs[id].(docId := id)));
      }
      return Ok(None);
    }

    /**
     * `get_all_documents()`: one record per stored key, each with its doc_id
     * forced to the key. Redis returns the hash in an order of its own; the
     * model leaves that order open.
     */
    method GetAllDocuments() returns (r: Result<seq<DocumentMetadata>>)
      ensures !redis.connected ==> r == Err(NoClient("hgetall"))
      ensures redis.connected ==> r.Ok?
      ensures r.Ok? ==> |r.value| == |redis.data.documents|
      ensures r.Ok? ==> forall i :: 0 <= i < |r.value| ==>
        r.value[i].docId in redis.data.documents && r.value[i] == redis.data.documents[r.value[i].docId].(docId := r.value[i].docId)
      ensures r.Ok? ==> forall k :: k in redis.data.documents ==>
        exists i :: 0 <= i < |r.value| && r.value[i].docId == k
      ensures r.Ok? ==> forall i, j :: 0 <= i < j < |r.value| ==> r.value[i].docId != r.value[j].docId
    {
      if !redis.connected {
        return Err(NoClient("hgetall"));
      }
      var docs := redis.data.documents;
      var remaining := docs.Keys;
      var out: seq<DocumentMetadata> := [];
      while remaining != {}
        invariant remaining <= docs.Keys
        invariant |out| + |remaining| == |docs|
        invariant forall i :: 0 <= i < |out| ==>
          out[i].docId in docs && out[i].docId !in remaining && out[i] == docs[out[i].docId].(docId := out[i].docId)
        invariant forall k :: k in docs && k !in remaining ==> exists i :: 0 <= i < |out| && out[i].docId == k
        invariant forall i, j :: 0 <= i < j < |out| ==> out[i].docId != out[j].docId
        decreases |remaining|
      {
        var k :| k in remaining;
        var before := out;
        out := out + [docs[k].(docId := k)];
        forall k' | k' in docs && k' !in remaining - {k}
          ensures exists i :: 0 <= i < |out| && out[i].docId == k'
        {
          if k' == k {
            assert out[|out| - 1].docId == k;
          } else {
            var i :| 0 <= i < |before| && before[i].docId == k';
            assert out[i].docId == k';
          }
        }
        remaining := remaining - {k};
      }
      assert remaining == {};
      return Ok(out);
    }

    /**
     * `delete_document(doc_id)` as evidently intended: `HDEL` of that one
     * key, so a later lookup finds nothing and every other record stays.
     */
    method DeleteDocument(id: string) returns (r: Outcome)
      modifies redis
      ensures redis.connected == old(redis.connected)
      ensures r.Pass? <==> old(redis.connected)
      ensures r.Fail? ==> redis.data == old(redis.data)
      ensures r.Pass? ==> redis.data == old(redis.data).(documents := old(redis.data.documents) - {id})
      ensures r.Pass? ==> Lookup(redis.data.documents, id).None?
    {
      if !redis.connected {
        return Fail(NoClient("hdel"));
      }
      redis.data := redis.data.(documents := redis.data.documents - {id});
      return Pass;
    }

    /**
     * `delete_document(doc_id)` as written: it first awaits
     * `redis_manager.ensure_connected()`, which `RedisManager` does not
     * define, so every call raises AttributeError before `HDEL` runs.
     */
    method DeleteDocumentAsWritten(id: string) returns (r: Outcome)
      ensures r == Fail(NoEnsureConnected)
    {
      return Fail(NoEnsureConnected);
    }
  }
}
