/**
 * The per-key request limiter (`RateLimitService`): a fixed-window counter
 * in the store. Each check increments the key; the window's expiry is set
 * when the count becomes 1; the request is allowed iff the new count is
 * within the limit.
 */
module RateLimit {
  import opened Common
  import opened Numerals
  import opened Kv

  class RateLimitService {
    const redis: RedisService

    constructor(redis: RedisService)
      ensures this.redis == redis
    {
      this.redis := redis;
    }

    /**
     * `check_rate_limit(key, limit, window)`. A failed `incr` yields 0, so an
     * unreachable backend lets the request through for any limit >= 0.
     */
    method CheckRateLimit(key: string, limit: int, windowSeconds: int, now: int) returns (allowed: bool)
      modifies redis`entries
      ensures var c := old(redis.CounterAt(key, now));
              var counted := redis.up && c.Some? && InInt64(c.value + 1);
              var count := if counted then c.value + 1 else 0;
              && allowed == (count <= limit)
              && redis.entries ==
                   if !counted then old(redis.entries)
                   else if count == 1 then
                     (if windowSeconds <= 0 then old(redis.entries) - {key}
                      else old(redis.entries)[key := Entry(Text("1"), Some(now + windowSeconds))])
                   else old(redis.entries)[key := Entry(Text(Decimal(count)), old(redis.KeptExpiry(key, now)))]
      ensures !redis.up ==> allowed == (0 <= limit)
    {
      var count := redis.Incr(key, 1, now);
      if count == 1 {
        var _ := redis.Expire(key, windowSeconds, now);
      }
      allowed := count <= limit;
    }

    /** `get_remaining_limit`: `limit` when nothing is counted (or on error), else `max(0, limit - count)`. */
    function GetRemainingLimit(key: string, limit: int, now: int): (r: int)
      reads redis
      ensures redis.Get(key, now).None? ==> r == limit
      ensures r == limit || 0 <= r
      ensures redis.Get(key, now).Some? && ParseInt(redis.Get(key, now).value).Some? ==>
                r == Max(0, limit - ParseInt(redis.Get(key, now).value).value)
    {
      var current := redis.Get(key, now);
      if current.None? then limit
      else match ParseInt(current.value)
        case Some(c) => Max(0, limit - c)
        case None => limit
    }

    /** `reset_limit`: deletes the counter, so the next check counts 1. Always True. */
    method ResetLimit(key: string, now: int) returns (ok: bool)
      modifies redis`entries
      ensures ok
      ensures redis.up ==> redis.CounterAt(key, now) == Some(0) && redis.entries == old(redis.entries) - {key}
      ensures !redis.up ==> redis.entries == old(redis.entries)
    {
      var _ := redis.Delete(key, now);
      ok := true;
    }
  }

  /**
   * From an absent key, checks made within one window (all before the first
   * call's time plus the window) allow exactly the first `limit` calls, and
   * what remains afterwards is `max(0, limit - calls)`.
   */
  method BurstWithinWindow(svc: RateLimitService, key: string, limit: int, windowSeconds: int, times: seq<int>)
    returns (results: seq<bool>)
    requires svc.redis.up && windowSeconds > 0
    requires 0 < |times| < Int64Max
    requires svc.redis.Lookup(key, times[0]).None?
    requires forall i :: 0 <= i < |times| ==> times[i] < times[0] + windowSeconds
    modifies svc.redis`entries
    ensures |results| == |times|
    ensures forall i :: 0 <= i < |times| ==> results[i] == (i < limit)
    ensures svc.GetRemainingLimit(key, limit, times[|times| - 1]) == Max(0, limit - |times|)
  {
    var redis := svc.redis;
    results := [];
    var i := 0;
    while i < |times|
      invariant 0 <= i <= |times|
      invariant |results| == i
      invariant forall j :: 0 <= j < i ==> results[j] == (j < limit)
      invariant i > 0 ==> key in redis.entries && redis.entries[key] == Entry(Text(Decimal(i)), Some(times[0] + windowSeconds))
      invariant i == 0 ==> redis.Lookup(key, times[0]).None?
    {
      if i > 0 {
        RedisIntExactlyDecimal(Decimal(i), i);
        assert redis.CounterAt(key, times[i]) == Some(i);
      }
      var ok := svc.CheckRateLimit(key, limit, windowSeconds, times[i]);
      results := results + [ok];
      i := i + 1;
    }
    ParseIntOfDecimal(|times|);
  }
}
