/**
 * `execute_agent` of routes/agent.py: answer a query from the response
 * cache when it holds a non-empty answer, otherwise run the agent, cache
 * its non-empty answer and return it. Every answered query queues one
 * call record. The agent itself (an LLM behind LangChain) is the `Agent`
 * stand-in below, which only records what it was asked.
 */
module AgentRoute {
  import opened Common
  import opened Records
  import opened RedisCache
  import opened Background
  import opened Http

  const EmptyResult := "Empty result from agent"

  datatype AgentResponse = AgentResponse(result: string, source: string, queryId: string)

  /** `BaseAgent.execute(query)`: the answer `respond` gives, or the text of the exception it raises. */
  class Agent {
    const respond: string -> Result<string>
    /** The queries the agent has been run on, in order. */
    var asked: seq<string>

    constructor (respond: string -> Result<string>)
      ensures this.respond == respond && asked == []
    {
      this.respond := respond;
      asked := [];
    }

    method Execute(query: string) returns (r: Result<string>)
      modifies this
      ensures asked == old(asked) + [query] && r == respond(query)
    {
      asked := asked + [query];
      r := respond(query);
    }
  }

  /** What `get_cached_response` gives when it reads: the live answer, or None when the read fails. */
  function CacheRead(responses: map<string, CacheEntry>, query: string, now: int, readFault: bool): Option<string>
  {
    if readFault then None else Live(responses, ResponseKey(query), now)
  }

  /** Python's truthiness of an optional string: present and non-empty. */
  predicate Truthy(s: Option<string>)
  {
    s.Some? && s.value != ""
  }

  class AgentRouter {
    const redis: RedisManager
    const agent: Agent

    constructor (redis: RedisManager, agent: Agent)
      ensures this.redis == redis && this.agent == agent
    {
      this.redis := redis;
      this.agent := agent;
    }

    /**
     * `execute_agent(query, background_tasks)` at second `now`, where
     * `hashText` is `str(hash(query))` in this process and the two faults
     * are failed Redis reads and writes (both swallowed by the manager).
     * Every exception, including the route's own 500 for an empty answer,
     * becomes a 500 whose detail is the exception's text.
     */
    method ExecuteAgent(query: string, hashText: string, now: int, readFault: bool, writeFault: bool, tasks: TaskQueue)
      returns (r: Response<AgentResponse>)
      modifies redis, agent, tasks
      ensures redis.connected == old(redis.connected)
      ensures !old(redis.connected) ==>
        && r == HttpError(500, NotConnected)
        && redis.data == old(redis.data) && agent.asked == old(agent.asked) && tasks.tasks == old(tasks.tasks)
      ensures old(redis.connected) && Truthy(CacheRead(old(redis.data.responses), query, now, readFault)) ==>
        var cached := CacheRead(old(redis.data.responses), query, now, readFault).value;
        && r == Answer(AgentResponse(cached, "cache", "cached_" + hashText))
        && redis.data == old(redis.data) && agent.asked == old(agent.asked)
        && tasks.tasks == old(tasks.tasks) + [AddCall(query, cached)]
      ensures old(redis.connected) && !Truthy(CacheRead(old(redis.data.responses), query, now, readFault)) ==>
        && agent.asked == old(agent.asked) + [query]
        && match agent.respond(query)
           case Err(e) =>
             r == HttpError(500, e) && redis.data == old(redis.data) && tasks.tasks == old(tasks.tasks)
           case Ok(result) =>
             if result == "" then
               && r == HttpError(500, ExceptionText(500, EmptyResult))
               && redis.data == old(redis.data) && tasks.tasks == old(tasks.tasks)
             else
               && r == Answer(AgentResponse(result, "agent", "agent_" + hashText))
               && redis.data == (if writeFault then old(redis.data)
                                 else old(redis.data).(responses := PutResponse(old(redis.data.responses), query, result, DefaultTtl, now)))
               && tasks.tasks == old(tasks.tasks) + [AddCall(query, result)]
      ensures r.Answer? ==> r.body.result != "" && tasks.tasks == old(tasks.tasks) + [AddCall(query, r.body.result)]
      ensures r.HttpError? ==> r.code == 500 && tasks.tasks == old(tasks.tasks)
    {
      var cached := redis.GetCachedResponse(query, now, readFault);
      if cached.Err? {
        return HttpError(500, cached.error);
      }
      if Truthy(cached.value) {
        tasks.Add(AddCall(query, cached.value.value));
        return Answer(AgentResponse(cached.value.value, "cache", "cached_" + hashText));
      }
      var result := agent.Execute(query);
      if result.Err? {
        return HttpError(500, result.error);
      }
      if result.value != "" {
        var _ := redis.CacheResponse(query, result.value, DefaultTtl, now, writeFault);
        tasks.Add(AddCall(query, result.value));
        return Answer(AgentResponse(result.value, "agent", "agent_" + hashText));
      }
      // raise HTTPException(500, ...) inside the try; the generic handler catches it
      return HttpError(500, ExceptionText(500, EmptyResult));
    }
  }

  /**
   * Once the agent's answer has been cached without a fault, the same
   * query asked again before the TTL runs out is a cache hit serving that
   * very answer, so the agent is not run again.
   */
  lemma AnsweredQueryIsCached(responses: map<string, CacheEntry>, query: string, result: string, now: int, later: int)
    requires result != "" && now <= later < now + DefaultTtl
    ensures Truthy(CacheRead(PutResponse(responses, query, result, DefaultTtl, now), query, later, false))
    ensures CacheRead(PutResponse(responses, query, result, DefaultTtl, now), query, later, false) == Some(result)
  {
    CacheRoundTrip(responses, query, result, DefaultTtl, now, later);
  }
}
