/**
 * The records the services keep in Redis, and the Redis keyspace that holds
 * them. The services store these records as JSON text; the model stores the
 * decoded record, which is what every reader gets back after `json.loads`.
 */
module Records {
  import opened Common

  /** `DocumentMetadata` of document_service.py: one record per uploaded document. */
  datatype DocumentMetadata = DocumentMetadata(
    docId: string,
    filename: string,
    timestamp: string,
    status: string,
    chunkCount: Option<int>,
    embeddingModel: Option<string>,
    errorMessage: Option<string>)

  /** One entry of the `calls` and `agent_calls` lists: `{timestamp, query, response}`. */
  datatype CallRecord = CallRecord(timestamp: string, query: string, response: string)

  /** One entry of the `agent_feedback` list: `{timestamp, query_id, rating, comment}`. */
  datatype FeedbackRecord = FeedbackRecord(timestamp: string, queryId: string, rating: int, comment: Option<string>)

  /** A `SETEX` value: the cached answer and the second at which Redis expires it. */
  datatype CacheEntry = CacheEntry(answer: string, expiresAt: int)

  /**
   * The Redis keys the services use. Each field is one key (or, for
   * `responses`, the family of keys `response:<query>`), so writing one
   * field leaves every other key as it was.
   */
  datatype Keyspace = Keyspace(
    responses: map<string, CacheEntry>,            // "response:<query>" (RedisManager)
    calls: seq<CallRecord>,                         // list "calls" (RedisManager)
    feedback: seq<Dict>,                            // list "feedback" (RedisManager)
    documents: map<string, DocumentMetadata>,       // hash "embedded_documents" (DocumentService)
    agentCalls: seq<CallRecord>,                    // list "agent_calls" (CallService)
    agentFeedback: seq<FeedbackRecord>)             // list "agent_feedback" (FeedbackService)
}
