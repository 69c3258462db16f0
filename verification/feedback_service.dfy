/**
 * `FeedbackService` of services/feedback_service.py: the list
 * `agent_feedback`, kept newest first. The rating is any integer and the
 * comment may be absent; nothing is range-checked and nothing is caught.
 */
module Feedback {
  import opened Common
  import opened Clock
  import opened Records
  import opened RedisCache

  /** `get_feedback(limit=100)`. */
  const DefaultLimit := 100

  /** The `FeedbackCreate` request body. */
  datatype FeedbackCreate = FeedbackCreate(queryId: string, rating: int, comment: Option<string>)

  class FeedbackService {
    const redis: RedisManager

    constructor (redis: RedisManager)
      ensures this.redis == redis
    {
      this.redis := redis;
    }

    /** `add_feedback(feedback)`: `LPUSH agent_feedback {timestamp, query_id, rating, comment}`. */
    method AddFeedback(feedback: FeedbackCreate, at: DateTime) returns (r: Outcome)
      requires ValidTime(at)
      modifies redis
      ensures redis.connected == old(redis.connected)
      ensures r.Pass? <==> old(redis.connected)
      ensures r.Fail? ==> r.error == NoClient("lpush") && redis.data == old(redis.data)
      ensures r.Pass? ==> redis.data == old(redis.data).(agentFeedback :=
        [FeedbackRecord(IsoFormat(at), feedback.queryId, feedback.rating, feedback.comment)]
          + old(redis.data.agentFeedback))
    {
      if !redis.connected {
        return Fail(NoClient("lpush"));
      }
      var rec := FeedbackRecord(IsoFormat(at), feedback.queryId, feedback.rating, feedback.comment);
      redis.data := redis.data.(agentFeedback := [rec] + redis.data.agentFeedback);
      return Pass;
    }

    /** `get_feedback(limit)`: at most `limit` records for a positive limit, newest first. */
    method GetFeedback(limit: int) returns (r: Result<seq<FeedbackRecord>>)
      ensures !redis.connected ==> r == Err(NoClient("lrange"))
      ensures redis.connected ==> r == Ok(LRange(redis.data.agentFeedback, 0, limit - 1))
      ensures r.Ok? && limit > 0 ==> r.value == redis.data.agentFeedback[..Min(limit, |redis.data.agentFeedback|)]
      ensures r.Ok? && limit == 0 ==> r.value == redis.data.agentFeedback
    {
      if !redis.connected {
        return Err(NoClient("lrange"));
      }
      RecentEntries(redis.data.agentFeedback, limit);
      return Ok(LRange(redis.data.agentFeedback, 0, limit - 1));
    }
  }

  /**
   * Feedback given after `n` earlier entries is read back first by any read
   * with a positive limit, and its rating and comment come back unchanged.
   */
  lemma {:induction false} FeedbackReadBack(log: seq<FeedbackRecord>, rec: FeedbackRecord, limit: int)
    requires limit >= 1
    ensures |LRange([rec] + log, 0, limit - 1)| == Min(limit, |log| + 1)
    ensures LRange([rec] + log, 0, limit - 1)[0] == rec
  {
    NewestFirst(log, rec, limit);
  }
}
