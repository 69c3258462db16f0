/**
 * `RedisManager` of cache/redis_manager.py: a client handle that `connect`
 * creates and `disconnect` drops, the response cache (`SETEX` on
 * `response:<query>`), and the `calls` and `feedback` lists (`LPUSH`, read
 * back with `LRANGE`). The Redis server's contents are the `data` field;
 * a failing Redis command (network, server error) is the `fault`
 * parameter of each operation.
 */
module RedisCache {
  import opened Common
  import opened Clock
  import opened Records

  const NotConnected := "Redis not connected"
  const DefaultTtl := 3600
  const ResponsePrefix := "response:"

  /**
   * What the services that call the client directly (`redis_manager._redis.<attr>`)
   * raise when no client exists: Python's AttributeError on `None`.
   */
  function NoClient(attr: string): string
  {
    "'NoneType' object has no attribute '" + attr + "'"
  }

  /** The cache key of a query: the prefix and the query text exactly as given. */
  function ResponseKey(query: string): string
  {
    ResponsePrefix + query
  }

  /** Different queries never share a cache key (no normalisation, no collisions). */
  lemma ResponseKeyInjective(a: string, b: string)
    ensures ResponseKey(a) == ResponseKey(b) <==> a == b
  {
    if ResponseKey(a) == ResponseKey(b) {
      assert a == ResponseKey(a)[|ResponsePrefix|..];
      assert b == ResponseKey(b)[|ResponsePrefix|..];
    }
  }

  /** `GET key` at second `now`: the answer while the entry has not expired. */
  function Live(responses: map<string, CacheEntry>, key: string, now: int): Option<string>
  {
    if key in responses && now < responses[key].expiresAt then Some(responses[key].answer) else None
  }

  /** `SETEX response:<query> ttl answer` at second `now`; Redis refuses a ttl that is not positive. */
  function PutResponse(responses: map<string, CacheEntry>, query: string, answer: string, ttl: int, now: int)
    : map<string, CacheEntry>
  {
    if ttl <= 0 then responses else responses[ResponseKey(query) := CacheEntry(answer, now + ttl)]
  }

  /** A cached answer is read back unchanged by the same query until its TTL runs out. */
  lemma CacheRoundTrip(responses: map<string, CacheEntry>, query: string, answer: string, ttl: int, now: int, later: int)
    requires ttl > 0 && now <= later
    ensures Live(PutResponse(responses, query, answer, ttl, now), ResponseKey(query), later)
      == if later < now + ttl then Some(answer) else None
  {
  }

  /** Caching one query leaves the answer of every other query as it was. */
  lemma CacheOtherQuery(responses: map<string, CacheEntry>, query: string, other: string, answer: string, ttl: int, now: int, later: int)
    requires other != query
    ensures Live(PutResponse(responses, query, answer, ttl, now), ResponseKey(other), later)
      == Live(responses, ResponseKey(other), later)
  {
    ResponseKeyInjective(query, other);
  }

  function Min(a: int, b: int): int { if a < b then a else b }
  function Max(a: int, b: int): int { if a < b then b else a }

  /** `LRANGE key start stop`: inclusive bounds, negative ones counted from the end. */
  function LRange<T>(s: seq<T>, start: int, stop: int): seq<T>
  {
    var n := |s|;
    var a := if start < 0 then Max(start + n, 0) else start;
    var b := if stop < 0 then stop + n else Min(stop, n - 1);
    if a > b || a >= n then [] else s[a..b + 1]
  }

  /**
   * `LRANGE key 0 (limit - 1)` as the services issue it: the `limit` first
   * (newest) entries; a limit of 0 asks for stop -1, which Redis reads as
   * "to the end", so every entry comes back; a negative limit drops that
   * many entries from the end.
   */
  lemma RecentEntries<T>(s: seq<T>, limit: int)
    ensures LRange(s, 0, limit - 1) ==
      if limit > 0 then s[..Min(limit, |s|)]
      else if limit == 0 then s
      else s[..Max(|s| + limit, 0)]
  {
  }

  /** After a head push, the newest entry is the one read first, followed by the older ones. */
  lemma NewestFirst<T>(s: seq<T>, x: T, limit: int)
    requires limit >= 1
    ensures LRange([x] + s, 0, limit - 1) == [x] + s[..Min(limit - 1, |s|)]
  {
    RecentEntries([x] + s, limit);
    assert ([x] + s)[..Min(limit, |s| + 1)] == [x] + s[..Min(limit - 1, |s|)];
  }

  class RedisManager {
    /** `self._redis is not None`. */
    var connected: bool
    /** What the Redis server holds. */
    var data: Keyspace

    /** `RedisManager()`: no client yet; the server already holds `data`. */
    constructor (data: Keyspace)
      ensures !connected && this.data == data
    {
      connected := false;
      this.data := data;
    }

    /**
     * `connect()`: creates a client only when there is none. The client is
     * kept even when the following `PING` fails and the error propagates.
     * The failure text stands in for redis-py's connection error, whose
     * wording names the host, the port and the system error.
     */
    method Connect(reachable: bool) returns (r: Outcome)
      modifies this
      ensures connected && data == old(data)
      ensures r.Fail? <==> !old(connected) && !reachable
    {
      if !connected {
        connected := true;
        if !reachable {
          return Fail("Error connecting to Redis");
        }
      }
      return Pass;
    }

    /** `disconnect()`: closes and drops the client, if any. */
    method Disconnect()
      modifies this
      ensures !connected && data == old(data)
    {
      connected := false;
    }

    /**
     * `get_cached_response(query)`: ConnectionError without a client; the
     * live cached answer of exactly this query, or None on a miss or a
     * failed read.
     */
    method GetCachedResponse(query: string, now: int, fault: bool) returns (r: Result<Option<string>>)
      ensures !connected ==> r == Err(NotConnected)
      ensures connected && fault ==> r == Ok(None)
      ensures connected && !fault ==> r == Ok(Live(data.responses, ResponseKey(query), now))
    {
      if !connected {
        return Err(NotConnected);
      }
      if fault {
        return Ok(None);
      }
      return Ok(Live(data.responses, ResponseKey(query), now));
    }

    /** `cache_response(query, answer, ttl)`: a failed write is swallowed. */
    method CacheResponse(query: string, answer: string, ttl: int, now: int, fault: bool) returns (r: Outcome)
      modifies this
      ensures connected == old(connected)
      ensures r.Fail? <==> !old(connected)
      ensures old(connected) && !fault ==>
        data == old(data).(responses := PutResponse(old(data.responses), query, answer, ttl, now))
      ensures !old(connected) || fault ==> data == old(data)
    {
      if !connected {
        return Fail(NotConnected);
      }
      if !fault {
        data := data.(responses := PutResponse(data.responses, query, answer, ttl, now));
      }
      return Pass;
    }

    /** `store_call(query, response)`: pushes onto the head of `calls`; a failed write is swallowed. */
    method StoreCall(query: string, response: string, at: DateTime, fault: bool) returns (r: Outcome)
      requires ValidTime(at)
      modifies this
      ensures connected == old(connected)
      ensures r.Fail? <==> !old(connected)
      ensures old(connected) && !fault ==>
        data == old(data).(calls := [CallRecord(IsoFormat(at), query, response)] + old(data.calls))
      ensures !old(connected) || fault ==> data == old(data)
    {
      if !connected {
        return Fail(NotConnected);
      }
      if !fault {
        data := data.(calls := [CallRecord(IsoFormat(at), query, response)] + data.calls);
      }
      return Pass;
    }

    /** `get_calls(limit)`: the newest `limit` calls, newest first; [] on a failed read. */
    method GetCalls(limit: int, fault: bool) returns (r: Result<seq<CallRecord>>)
      ensures !connected ==> r == Err(NotConnected)
      ensures connected && fault ==> r == Ok([])
      ensures connected && !fault ==> r == Ok(LRange(data.calls, 0, limit - 1))
    {
      if !connected {
        return Err(NotConnected);
      }
      if fault {
        return Ok([]);
      }
      return Ok(LRange(data.calls, 0, limit - 1));
    }

    /**
     * `store_feedback(feedback)`: pushes onto the head of `feedback`;
     * `fault` is the error of a failed `lpush`, which is raised again.
     */
    method StoreFeedback(feedback: Dict, fault: Option<string>) returns (r: Outcome)
      modifies this
      ensures connected == old(connected)
      ensures r.Pass? <==> old(connected) && fault.None?
      ensures !old(connected) ==> r == Fail(NotConnected)
      ensures old(connected) && fault.Some? ==> r == Fail(fault.value)
      ensures r.Pass? ==> data == old(data).(feedback := [feedback] + old(data.feedback))
      ensures r.Fail? ==> data == old(data)
    {
      if !connected {
        return Fail(NotConnected);
      }
      if fault.Some? {
        return Fail(fault.value);
      }
      data := data.(feedback := [feedback] + data.feedback);
      return Pass;
    }

    /** `get_feedback(limit)`: the newest `limit` entries, newest first; [] on a failed read. */
    method GetFeedback(limit: int, fault: bool) returns (r: Result<seq<Dict>>)
      ensures !connected ==> r == Err(NotConnected)
      ensures connected && fault ==> r == Ok([])
      ensures connected && !fault ==> r == Ok(LRange(data.feedback, 0, limit - 1))
    {
      if !connected {
        return Err(NotConnected);
      }
      if fault {
        return Ok([]);
      }
      return Ok(LRange(data.feedback, 0, limit - 1));
    }
  }
}
