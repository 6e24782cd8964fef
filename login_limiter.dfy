/**
 * The login lockout (`LoginRateLimiter`): an attempts counter under
 * `login_attempts:<id>` that lives 300 s after the last failure, and a
 * lockout marker under `login_lockout:<id>` holding the instant the lockout
 * ends. A check refuses only while the counter is at the maximum AND the
 * marker is present and in the future, so the lockout is enforced only while
 * the attempts key is alive.
 */
module LoginLimit {
  import opened Common
  import opened Numerals
  import opened Kv

  const AttemptWindowSeconds: int := 300

  function AttemptsKey(identifier: string): string { "login_attempts:" + identifier }

  function LockoutKey(identifier: string): string { "login_lockout:" + identifier }

  lemma KeysDistinct(identifier: string)
    ensures AttemptsKey(identifier) != LockoutKey(identifier)
  {
    assert AttemptsKey(identifier)[6] == 'a';
    assert LockoutKey(identifier)[6] == 'l';
  }

  /** The message of the `ValueError` that `int()` raises on a non-integer. */
  const NotAnInteger: string := "invalid literal for int() with base 10"

  /** `int(text)` with the exception it raises. */
  function IntOrRaise(text: string): (r: Outcome<int>)
    ensures r.Ok? <==> ParseInt(text).Some?
    ensures r.Ok? ==> r.value == ParseInt(text).value
  {
    match ParseInt(text)
    case Some(n) => Ok(n)
    case None => Raised(NotAnInteger)
  }

  datatype LockoutInfo = LockoutInfo(isLocked: bool, remainingSeconds: int, attempts: int)

  class LoginRateLimiter {
    const redis: RedisService
    const maxAttempts: int
    const windowSeconds: int
    const lockoutSeconds: int

    constructor(redis: RedisService, maxAttemptsSetting: int, lockoutMinutesSetting: int)
      ensures this.redis == redis && maxAttempts == maxAttemptsSetting
      ensures windowSeconds == AttemptWindowSeconds && lockoutSeconds == lockoutMinutesSetting * 60
    {
      this.redis := redis;
      maxAttempts := maxAttemptsSetting;
      windowSeconds := AttemptWindowSeconds;
      lockoutSeconds := lockoutMinutesSetting * 60;
    }

    /** The attempts `check_rate_limit` reads: 0 when the key is absent (or the store unreachable). */
    function Attempts(identifier: string, now: int): Outcome<int>
      reads redis
    {
      var text := redis.Get(AttemptsKey(identifier), now);
      if text.None? then Ok(0) else IntOrRaise(text.value)
    }

    /** The marker is present and names an instant after `now`. */
    predicate LockoutPending(identifier: string, now: int)
      reads redis
    {
      var marker := redis.Get(LockoutKey(identifier), now);
      marker.Some? && ParseInt(marker.value).Some? && now < ParseInt(marker.value).value
    }

    /**
     * `check_rate_limit`: False exactly when the attempts reached the maximum
     * and the lockout marker lies in the future. `int()` on a corrupted value
     * raises.
     */
    function CheckRateLimit(identifier: string, now: int): (r: Outcome<bool>)
      reads redis
      ensures r == Ok(false) <==>
                Attempts(identifier, now).Ok? && Attempts(identifier, now).value >= maxAttempts
                && LockoutPending(identifier, now)
      ensures Attempts(identifier, now).Ok? && Attempts(identifier, now).value < maxAttempts ==> r == Ok(true)
      ensures redis.Lookup(AttemptsKey(identifier), now).None? ==> r == Ok(true) || maxAttempts <= 0
      ensures redis.Lookup(AttemptsKey(identifier), now).None? && 0 < maxAttempts ==> r == Ok(true)
    {
      match Attempts(identifier, now)
      case Raised(m) => Raised(m)
      case Ok(attempts) =>
        if attempts >= maxAttempts then
          var marker := redis.Get(LockoutKey(identifier), now);
          if marker.Some? then
            match IntOrRaise(marker.value)
            case Raised(m) => Raised(m)
            case Ok(until) => Ok(!(now < until))
          else Ok(true)
        else Ok(true)
    }

    /** The first half of `record_failed_attempt`: `incr` then `expire(key, 300)`. */
    method CountFailure(identifier: string, now: int) returns (attempts: int)
      modifies redis`entries
      requires windowSeconds > 0
      ensures var key := AttemptsKey(identifier);
              var c := old(redis.CounterAt(key, now));
              var counted := redis.up && c.Some? && InInt64(c.value + 1);
              && attempts == (if counted then c.value + 1 else 0)
              && redis.entries ==
                   if counted then old(redis.entries)[key := Entry(Text(Decimal(c.value + 1)), Some(now + windowSeconds))]
                   else if redis.up && old(redis.Lookup(key, now)).Some? then
                     old(redis.entries)[key := old(redis.entries)[key].(expiresAt := Some(now + windowSeconds))]
                   else old(redis.entries)
    {
      var key := AttemptsKey(identifier);
      attempts := redis.Incr(key, 1, now);
      var _ := redis.Expire(key, windowSeconds, now);
    }

    /**
     * `record_failed_attempt`: one more attempt, whose key then lives 300 s;
     * when the count reaches the maximum the marker is (re)set to
     * `now + lockout` with that TTL, so each further failure extends it.
     */
    method RecordFailedAttempt(identifier: string, now: int)
      modifies redis`entries
      requires windowSeconds > 0
      ensures var key := AttemptsKey(identifier);
              var c := old(redis.CounterAt(key, now));
              var counted := redis.up && c.Some? && InInt64(c.value + 1);
              var attempts := if counted then c.value + 1 else 0;
              var counting :=
                if counted then old(redis.entries)[key := Entry(Text(Decimal(c.value + 1)), Some(now + windowSeconds))]
                else if redis.up && old(redis.Lookup(key, now)).Some? then
                  old(redis.entries)[key := old(redis.entries)[key].(expiresAt := Some(now + windowSeconds))]
                else old(redis.entries);
              redis.entries ==
                if redis.up && attempts >= maxAttempts && lockoutSeconds > 0 then
                  counting[LockoutKey(identifier) := Entry(Text(Decimal(now + lockoutSeconds)), Some(now + lockoutSeconds))]
                else counting
    {
      var attempts := CountFailure(identifier, now);
      if attempts >= maxAttempts {
        var lockoutUntil := now + lockoutSeconds;
        var _ := redis.Set(LockoutKey(identifier), Decimal(lockoutUntil), Some(lockoutSeconds), false, now);
      }
    }

    /**
     * After a failure that brings the count to `a >= max`, every check before
     * both the attempts key and the marker expire refuses.
     */
    lemma LockedAfterFailure(identifier: string, now: int, a: int, t: int)
      requires a >= maxAttempts && lockoutSeconds > 0 && windowSeconds > 0
      requires redis.up
      requires AttemptsKey(identifier) in redis.entries
      requires redis.entries[AttemptsKey(identifier)] == Entry(Text(Decimal(a)), Some(now + windowSeconds))
      requires LockoutKey(identifier) in redis.entries
      requires redis.entries[LockoutKey(identifier)] == Entry(Text(Decimal(now + lockoutSeconds)), Some(now + lockoutSeconds))
      requires now <= t < now + Min(windowSeconds, lockoutSeconds)
      ensures CheckRateLimit(identifier, t) == Ok(false)
    {
      ParseIntOfDecimal(a);
      ParseIntOfDecimal(now + lockoutSeconds);
      assert Attempts(identifier, t) == Ok(a);
      assert LockoutPending(identifier, t);
    }

    /** `clear_attempts`: deletes both keys; afterwards every check allows. */
    method ClearAttempts(identifier: string, now: int)
      modifies redis`entries
      ensures 0 < maxAttempts ==> forall t :: CheckRateLimit(identifier, t) == Ok(true)
      ensures var keys := {AttemptsKey(identifier), LockoutKey(identifier)};
              redis.entries == if redis.up then old(redis.entries) - keys else old(redis.entries)
    {
      var _ := redis.Delete(AttemptsKey(identifier), now);
      var _ := redis.Delete(LockoutKey(identifier), now);
      assert redis.up ==> AttemptsKey(identifier) !in redis.entries;
    }

    /**
     * `get_lockout_info`: remaining = `max(0, until - now)`, locked iff
     * something remains; attempts default to 0.
     */
    function GetLockoutInfo(identifier: string, now: int): (r: Outcome<LockoutInfo>)
      reads redis
      ensures r.Ok? ==> r.value.remainingSeconds >= 0 && (r.value.isLocked <==> r.value.remainingSeconds > 0)
      ensures r.Ok? ==> Attempts(identifier, now) == Ok(r.value.attempts)
      ensures r.Ok? ==> (r.value.isLocked <==> LockoutPending(identifier, now))
      ensures r.Ok? && r.value.isLocked && r.value.attempts >= maxAttempts ==> CheckRateLimit(identifier, now) == Ok(false)
      ensures redis.Get(LockoutKey(identifier), now).None? && r.Ok? ==> r.value.remainingSeconds == 0
    {
      var marker := redis.Get(LockoutKey(identifier), now);
      var attempts := Attempts(identifier, now);
      if marker.Some? then
        match IntOrRaise(marker.value)
        case Raised(m) => Raised(m)
        case Ok(until) =>
          var remaining := until - now;
          match attempts
          case Raised(m) => Raised(m)
          case Ok(a) => Ok(LockoutInfo(remaining > 0, Max(0, remaining), a))
      else
        match attempts
        case Raised(m) => Raised(m)
        case Ok(a) => Ok(LockoutInfo(false, 0, a))
    }
  }

  /**
   * From a clean slate, `max` failures at one instant lock the identifier
   * out: every check until the earlier of the two expiries refuses, and none
   * before the last failure did.
   */
  method LockoutAfterRepeatedFailures(limiter: LoginRateLimiter, identifier: string, now: int)
    returns (checks: seq<bool>)
    requires limiter.redis.up && limiter.windowSeconds > 0 && limiter.lockoutSeconds > 0
    requires 1 <= limiter.maxAttempts < Int64Max
    requires limiter.redis.Lookup(AttemptsKey(identifier), now).None?
    modifies limiter.redis`entries
    ensures |checks| == limiter.maxAttempts
    ensures forall i :: 0 <= i < |checks| ==> checks[i]
    ensures forall t :: now <= t < now + Min(limiter.windowSeconds, limiter.lockoutSeconds) ==>
              limiter.CheckRateLimit(identifier, t) == Ok(false)
  {
    var redis := limiter.redis;
    var key := AttemptsKey(identifier);
    var lockKey := LockoutKey(identifier);
    KeysDistinct(identifier);
    checks := [];
    var i := 0;
    while i < limiter.maxAttempts
      invariant 0 <= i <= limiter.maxAttempts
      invariant |checks| == i && forall j :: 0 <= j < i ==> checks[j]
      invariant i == 0 ==> redis.Lookup(key, now).None?
      invariant i > 0 ==> key in redis.entries && redis.entries[key] == Entry(Text(Decimal(i)), Some(now + limiter.windowSeconds))
      invariant i == limiter.maxAttempts ==>
                  lockKey in redis.entries &&
                  redis.entries[lockKey] == Entry(Text(Decimal(now + limiter.lockoutSeconds)), Some(now + limiter.lockoutSeconds))
    {
      if i > 0 {
        RedisIntExactlyDecimal(Decimal(i), i);
        ParseIntOfDecimal(i);
        assert redis.CounterAt(key, now) == Some(i);
      }
      var check := limiter.CheckRateLimit(identifier, now);
      checks := checks + [check == Ok(true)];
      limiter.RecordFailedAttempt(identifier, now);
      i := i + 1;
    }
    forall t | now <= t < now + Min(limiter.windowSeconds, limiter.lockoutSeconds)
      ensures limiter.CheckRateLimit(identifier, t) == Ok(false)
    {
      limiter.LockedAfterFailure(identifier, now, limiter.maxAttempts, t);
    }
  }
}
