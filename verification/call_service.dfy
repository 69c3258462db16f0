/**
 * `CallService` of services/call_service.py: the list `agent_calls`, a log
 * of answered agent queries kept newest first. It talks to the client
 * directly, so a missing client raises AttributeError and nothing is caught.
 */
module Calls {
  import opened Common
  import opened Clock
  import opened Records
  import opened RedisCache

  /** `get_calls(limit=100)`. */
  const DefaultLimit := 100

  class CallService {
    const redis: RedisManager

    constructor (redis: RedisManager)
      ensures this.redis == redis
    {
      this.redis := redis;
    }

    /**
     * `add_call(query, response)`: `LPUSH agent_calls {timestamp, query, response}`.
     * Only `agent_calls` changes; in particular `RedisManager`'s own `calls`
     * log is a different key and stays as it was.
     */
    method AddCall(query: string, response: string, at: DateTime) returns (r: Outcome)
      requires ValidTime(at)
      modifies redis
      ensures redis.connected == old(redis.connected)
      ensures r.Pass? <==> old(redis.connected)
      ensures r.Fail? ==> r.error == NoClient("lpush") && redis.data == old(redis.data)
      ensures r.Pass? ==> redis.data == old(redis.data).(agentCalls :=
        [CallRecord(IsoFormat(at), query, response)] + old(redis.data.agentCalls))
    {
      if !redis.connected {
        return Fail(NoClient("lpush"));
      }
      redis.data := redis.data.(agentCalls := [CallRecord(IsoFormat(at), query, response)] + redis.data.agentCalls);
      return Pass;
    }

    /**
     * `get_calls(limit)`: `LRANGE agent_calls 0 (limit - 1)`, that is the
     * `limit` newest records, newest first, or all of them when `limit` is 0
     * (see `RedisCache.RecentEntries`).
     */
    method GetCalls(limit: int) returns (r: Result<seq<CallRecord>>)
      ensures !redis.connected ==> r == Err(NoClient("lrange"))
      ensures redis.connected ==> r == Ok(LRange(redis.data.agentCalls, 0, limit - 1))
      ensures r.Ok? && limit > 0 ==> r.value == redis.data.agentCalls[..Min(limit, |redis.data.agentCalls|)]
      ensures r.Ok? && limit == 0 ==> r.value == redis.data.agentCalls
    {
      if !redis.connected {
        return Err(NoClient("lrange"));
      }
      RecentEntries(redis.data.agentCalls, limit);
      return Ok(LRange(redis.data.agentCalls, 0, limit - 1));
    }
  }
}
