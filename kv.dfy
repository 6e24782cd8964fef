/**
 * The Redis wrapper (`RedisService`): a key/value store whose entries carry
 * an absolute expiry instant on an explicit integer clock (epoch seconds).
 * `up` says whether the backend answers; when it does not, every wrapper
 * swallows the `RedisError` and returns its fixed default, leaving the store
 * as it was. A command applied to a key of the wrong type is also a
 * `RedisError`.
 */
module Kv {
  import opened Common
  import opened Numerals
  import opened PyValues

  datatype Value =
    | Text(s: string)
    | List(items: seq<string>)
    | Members(elems: set<string>)
    | Hash(fields: map<string, string>)

  /** A stored value and the instant at which it expires (None: no TTL). */
  datatype Entry = Entry(value: Value, expiresAt: Option<int>)

  /** A key holds its value until the clock reaches its expiry instant. */
  predicate LiveAt(e: Entry, now: int)
  {
    e.expiresAt.None? || now < e.expiresAt.value
  }

  /**
   * The slice `[lo, hi)` that `LRANGE`/`LTRIM start stop` select from a list
   * of length `n`: negative indices count from the end, `stop` is inclusive
   * and out-of-range indices are clamped.
   */
  function Window(n: nat, start: int, stop: int): (r: (nat, nat))
    ensures r.0 <= r.1 <= n
  {
    var lo := if start < 0 then Max(0, n + start) else start;
    var hi := if stop < 0 then n + stop else Min(stop, n - 1);
    if lo > hi || lo >= n then (0, 0) else (lo, hi + 1)
  }

  /** `0 .. k-1` selects the first `k` items; `k == 0` makes `stop` -1, which selects them all. */
  lemma HeadWindow(n: nat, k: int)
    requires k >= 0
    ensures Window(n, 0, k - 1) == (0, if k == 0 then n else Min(k, n))
  {
  }

  /** The messages as `cache_conversation_history` serialises them, in input order. */
  function Dumps(codec: JsonCodec, messages: seq<PyValue>): (r: seq<string>)
    ensures |r| == |messages|
    ensures forall i :: 0 <= i < |messages| ==> r[i] == codec.dumps(messages[i])
  {
    seq(|messages|, i requires 0 <= i < |messages| => codec.dumps(messages[i]))
  }

  lemma DumpsStep(codec: JsonCodec, messages: seq<PyValue>, i: nat)
    requires i < |messages|
    ensures Dumps(codec, messages[..i + 1]) == Dumps(codec, messages[..i]) + [codec.dumps(messages[i])]
  {
  }

  /** Pushing `d` to the head of a list built from `done` extends `done` by `d`. */
  lemma PushStep(current: seq<string>, done: seq<string>, d: string, base: seq<string>)
    requires current == Reversed(done) + base
    ensures Reversed([d]) + current == Reversed(done + [d]) + base
  {
    ReversedSnoc(done, d);
    assert Reversed([d]) == [d];
  }

  /** The entries that decode, in list order; undecodable ones are skipped. */
  function Decoded(codec: JsonCodec, raw: seq<string>): seq<PyValue>
    decreases |raw|
  {
    if |raw| == 0 then []
    else
      Decoded(codec, raw[..|raw| - 1])
      + match codec.loads(raw[|raw| - 1]) { case Some(v) => [v] case None => [] }
  }

  /** With a sound codec, decoding what was serialised gives the messages back. */
  lemma {:induction false} DecodedDumps(codec: JsonCodec, messages: seq<PyValue>)
    requires Sound(codec)
    requires forall i :: 0 <= i < |messages| ==> Serializable(messages[i])
    ensures Decoded(codec, Dumps(codec, messages)) == messages
    decreases |messages|
  {
    if |messages| > 0 {
      var n := |messages| - 1;
      assert Dumps(codec, messages)[..n] == Dumps(codec, messages[..n]);
      DecodedDumps(codec, messages[..n]);
      assert codec.loads(codec.dumps(messages[n])) == Some(messages[n]);
      assert messages == messages[..n] + [messages[n]];
    }
  }

  /** The first `maxMessages` items, as `ltrim(k, 0, maxMessages - 1)` keeps them. */
  function KeepHead(items: seq<string>, maxMessages: int): seq<string>
  {
    var w := Window(|items|, 0, maxMessages - 1);
    items[w.0..w.1]
  }

  /** The key every per-conversation cache uses. */
  function HistoryKey(conversationId: string): string { "chat_history:" + conversationId }

  function UserCacheKey(userId: string): string { "user_cache:" + userId }

  const OnlineUsersKey: string := "online_users"

  function ActivityKey(userId: string): string { "user_activity:" + userId }

  function GlobalStatsKey(today: string, endpoint: string): string
  {
    "api_stats:global:" + today + ":" + endpoint
  }

  function UserStatsKey(userId: string, today: string, endpoint: string): string
  {
    "api_stats:user:" + userId + ":" + today + ":" + endpoint
  }

  /** What `get_api_stats` reports. */
  datatype ApiStats = ApiStats(endpoint: string, date: string, totalCalls: int)

  /** The global and the per-user counters never share a key. */
  lemma StatsKeysDistinct(userId: string, today: string, endpoint: string)
    ensures GlobalStatsKey(today, endpoint) != UserStatsKey(userId, today, endpoint)
  {
    assert GlobalStatsKey(today, endpoint)[10] == 'g';
    assert UserStatsKey(userId, today, endpoint)[10] == 'u';
  }

  /** Seven days, the retention of the call counters. */
  const StatsRetention: int := 86400 * 7

  /** No activity key is ever the online-users set. */
  lemma ActivityKeyIsNotOnlineSet(userId: string)
    ensures ActivityKey(userId) != OnlineUsersKey
  {
    assert |ActivityKey(userId)| > |OnlineUsersKey|;
  }

  function LookupIn(m: map<string, Entry>, k: string, now: int): Option<Value>
  {
    if k in m && LiveAt(m[k], now) then Some(m[k].value) else None
  }

  /** The expiry a write-in-place keeps: the live entry's, or none for a fresh key. */
  function KeptExpiryIn(m: map<string, Entry>, k: string, now: int): (r: Option<int>)
    ensures r.None? || now < r.value
  {
    if LookupIn(m, k, now).Some? then m[k].expiresAt else None
  }

  /** The list under `k` (an absent key is the empty list); None when `k` holds another type. */
  function ListIn(m: map<string, Entry>, k: string, now: int): Option<seq<string>>
  {
    match LookupIn(m, k, now)
    case None => Some([])
    case Some(List(items)) => Some(items)
    case Some(_) => None
  }

  function SetIn(m: map<string, Entry>, k: string, now: int): Option<set<string>>
  {
    match LookupIn(m, k, now)
    case None => Some({})
    case Some(Members(e)) => Some(e)
    case Some(_) => None
  }

  function HashIn(m: map<string, Entry>, k: string, now: int): Option<map<string, string>>
  {
    match LookupIn(m, k, now)
    case None => Some(map[])
    case Some(Hash(h)) => Some(h)
    case Some(_) => None
  }

  /** The integer `INCR` sees under `k`: 0 for an absent key, None for a non-integer. */
  function CounterIn(m: map<string, Entry>, k: string, now: int): Option<int>
  {
    match LookupIn(m, k, now)
    case None => Some(0)
    case Some(Text(t)) => RedisInt(t)
    case Some(_) => None
  }

  /** The store after `k` is given list `items`, keeping its expiry; an emptied list disappears. */
  function PutList(m: map<string, Entry>, k: string, items: seq<string>, now: int): (r: map<string, Entry>)
    ensures ListIn(r, k, now) == Some(items)
    ensures r - {k} == m - {k}
  {
    if |items| == 0 then m - {k} else m[k := Entry(List(items), KeptExpiryIn(m, k, now))]
  }

  function PutSet(m: map<string, Entry>, k: string, e: set<string>, now: int): (r: map<string, Entry>)
    ensures SetIn(r, k, now) == Some(e)
    ensures r - {k} == m - {k}
  {
    if e == {} then m - {k} else m[k := Entry(Members(e), KeptExpiryIn(m, k, now))]
  }

  function PutHash(m: map<string, Entry>, k: string, h: map<string, string>, now: int): (r: map<string, Entry>)
    ensures HashIn(r, k, now) == Some(h)
    ensures r - {k} == m - {k}
  {
    if |h| == 0 then m - {k} else m[k := Entry(Hash(h), KeptExpiryIn(m, k, now))]
  }

  /** Two stores that differ at most at `k` agree on every other key. */
  lemma AgreeOutside(m1: map<string, Entry>, m2: map<string, Entry>, k: string, j: string, now: int)
    requires m1 - {k} == m2 - {k} && j != k
    ensures LookupIn(m1, j, now) == LookupIn(m2, j, now)
    ensures j in m1 <==> j in m2
    ensures j in m1 ==> m1[j] == m2[j]
  {
    assert j in m1 <==> j in m1 - {k};
    assert j in m2 <==> j in m2 - {k};
    if j in m1 {
      assert m1[j] == (m1 - {k})[j];
      assert m2[j] == (m2 - {k})[j];
    }
  }

  class RedisService {
    var entries: map<string, Entry>
    var up: bool

    constructor(reachable: bool)
      ensures entries == map[] && up == reachable
    {
      entries := map[];
      up := reachable;
    }

    /** The value `k` holds at `now`, if it is live. */
    function Lookup(k: string, now: int): Option<Value>
      reads this
    {
      LookupIn(entries, k, now)
    }

    function KeptExpiry(k: string, now: int): Option<int>
      reads this
    {
      KeptExpiryIn(entries, k, now)
    }

    function ListAt(k: string, now: int): Option<seq<string>>
      reads this
    {
      ListIn(entries, k, now)
    }

    function SetAt(k: string, now: int): Option<set<string>>
      reads this
    {
      SetIn(entries, k, now)
    }

    function HashAt(k: string, now: int): Option<map<string, string>>
      reads this
    {
      HashIn(entries, k, now)
    }

    function CounterAt(k: string, now: int): Option<int>
      reads this
    {
      CounterIn(entries, k, now)
    }

    function WithList(k: string, items: seq<string>, now: int): map<string, Entry>
      reads this
    {
      PutList(entries, k, items, now)
    }

    function WithSet(k: string, m: set<string>, now: int): map<string, Entry>
      reads this
    {
      PutSet(entries, k, m, now)
    }

    function WithHash(k: string, h: map<string, string>, now: int): map<string, Entry>
      reads this
    {
      PutHash(entries, k, h, now)
    }

    // ---------------------------------------------------------------- strings

    /** `get`: the live string, or None when absent, empty, of another type, or unreachable. */
    function Get(k: string, now: int): (r: Option<string>)
      reads this
      ensures !up ==> r == None
      ensures r.Some? ==> r.value != "" && Lookup(k, now) == Some(Text(r.value))
      ensures up && Lookup(k, now).Some? && Lookup(k, now).value.Text? && Lookup(k, now).value.s != "" ==> r.Some?
    {
      if !up then None
      else match Lookup(k, now)
        case Some(Text(s)) => if s == "" then None else Some(s)
        case _ => None
    }

    /**
     * `set(k, v, ex, nx)`: a non-positive `ex` is refused by Redis; with `nx`
     * a live key is left alone. True iff the value was written.
     */
    method Set(k: string, v: string, ex: Option<int>, nx: bool, now: int) returns (ok: bool)
      modifies this`entries
      ensures ok <==> up && (ex.None? || ex.value > 0) && !(nx && old(Lookup(k, now)).Some?)
      ensures ok ==> entries == old(entries)[k := Entry(Text(v), if ex.Some? then Some(now + ex.value) else None)]
      ensures !ok ==> entries == old(entries)
    {
      ok := up && (ex.None? || ex.value > 0) && !(nx && Lookup(k, now).Some?);
      if ok {
        entries := entries[k := Entry(Text(v), if ex.Some? then Some(now + ex.value) else None)];
      }
    }

    /** `delete(k)`: the number of live keys removed. */
    method Delete(k: string, now: int) returns (n: int)
      modifies this`entries
      ensures n == if up && old(Lookup(k, now)).Some? then 1 else 0
      ensures entries == if up then old(entries) - {k} else old(entries)
    {
      if !up {
        return 0;
      }
      n := if Lookup(k, now).Some? then 1 else 0;
      entries := entries - {k};
    }

    function Exists(k: string, now: int): (r: bool)
      reads this
      ensures r <==> up && Lookup(k, now).Some?
    {
      up && Lookup(k, now).Some?
    }

    /** `expire(k, s)`: True iff `k` is live; a non-positive timeout deletes it at once. */
    method Expire(k: string, seconds: int, now: int) returns (ok: bool)
      modifies this`entries
      ensures ok <==> up && old(Lookup(k, now)).Some?
      ensures entries == if !ok then old(entries)
                         else if seconds <= 0 then old(entries) - {k}
                         else old(entries)[k := old(entries)[k].(expiresAt := Some(now + seconds))]
    {
      ok := up && Lookup(k, now).Some?;
      if ok {
        if seconds <= 0 {
          entries := entries - {k};
        } else {
          entries := entries[k := entries[k].(expiresAt := Some(now + seconds))];
        }
      }
    }

    /** `ttl(k)`: -2 for an absent key, -1 for a key with no expiry or an unreachable backend. */
    function Ttl(k: string, now: int): (r: int)
      reads this
      ensures !up ==> r == -1
      ensures up && Lookup(k, now).None? ==> r == -2
      ensures up && Lookup(k, now).Some? ==> (r == -1 <==> entries[k].expiresAt.None?)
      ensures r >= 0 ==> up && Lookup(k, now).Some? && now + r == entries[k].expiresAt.value
    {
      if !up then -1
      else if Lookup(k, now).None? then -2
      else if entries[k].expiresAt.None? then -1
      else entries[k].expiresAt.value - now
    }

    // --------------------------------------------------------------- counters

    /**
     * `incr(k, amount)`: adds `amount` to the integer under `k` (0 when absent),
     * keeping its expiry, and returns the new value; an amount outside 64 bits,
     * a non-integer value, a 64-bit overflow or an unreachable backend return
     * 0 and change nothing.
     */
    method Incr(k: string, amount: int, now: int) returns (n: int)
      modifies this`entries
      ensures var c := old(CounterAt(k, now));
              var ok := up && InInt64(amount) && c.Some? && InInt64(c.value + amount);
              && n == (if ok then c.value + amount else 0)
              && entries == if ok then old(entries)[k := Entry(Text(Decimal(c.value + amount)), old(KeptExpiry(k, now)))]
                            else old(entries)
    {
      var c := CounterAt(k, now);
      if up && InInt64(amount) && c.Some? && InInt64(c.value + amount) {
        n := c.value + amount;
        entries := entries[k := Entry(Text(Decimal(n)), KeptExpiry(k, now))];
      } else {
        n := 0;
      }
    }

    /**
     * `decr(k, amount)`: `DECRBY` refuses an amount outside 64 bits and the
     * least one, whose negation does not fit; otherwise it is `INCRBY` by
     * `-amount`.
     */
    method Decr(k: string, amount: int, now: int) returns (n: int)
      modifies this`entries
      ensures var c := old(CounterAt(k, now));
              var ok := up && InInt64(amount) && amount != Int64Min && c.Some? && InInt64(c.value - amount);
              && n == (if ok then c.value - amount else 0)
              && entries == if ok then old(entries)[k := Entry(Text(Decimal(c.value - amount)), old(KeptExpiry(k, now)))]
                            else old(entries)
    {
      if InInt64(amount) && amount != Int64Min {
        n := Incr(k, -amount, now);
      } else {
        n := 0;
      }
    }

    // ------------------------------------------------------------------ lists

    /** `lpush(k, *values)`: each value goes to the head in turn, so the last ends up first. */
    method LPush(k: string, values: seq<string>, now: int) returns (n: int)
      modifies this`entries
      ensures var l := old(ListAt(k, now));
              var ok := up && |values| > 0 && l.Some?;
              && n == (if ok then |values| + |l.value| else 0)
              && entries == if ok then old(WithList(k, Reversed(values) + l.value, now)) else old(entries)
    {
      var l := ListAt(k, now);
      if up && |values| > 0 && l.Some? {
        entries := WithList(k, Reversed(values) + l.value, now);
        n := |values| + |l.value|;
      } else {
        n := 0;
      }
    }

    method RPush(k: string, values: seq<string>, now: int) returns (n: int)
      modifies this`entries
      ensures var l := old(ListAt(k, now));
              var ok := up && |values| > 0 && l.Some?;
              && n == (if ok then |values| + |l.value| else 0)
              && entries == if ok then old(WithList(k, l.value + values, now)) else old(entries)
    {
      var l := ListAt(k, now);
      if up && |values| > 0 && l.Some? {
        entries := WithList(k, l.value + values, now);
        n := |values| + |l.value|;
      } else {
        n := 0;
      }
    }

    /** `lpop(k)`: removes the head; an empty-string head is removed but reported as None. */
    method LPop(k: string, now: int) returns (r: Option<string>)
      modifies this`entries
      ensures var l := old(ListAt(k, now));
              if up && l.Some? && |l.value| > 0 then
                && entries == old(WithList(k, l.value[1..], now))
                && r == (if l.value[0] == "" then None else Some(l.value[0]))
              else entries == old(entries) && r == None
    {
      var l := ListAt(k, now);
      if up && l.Some? && |l.value| > 0 {
        entries := WithList(k, l.value[1..], now);
        r := if l.value[0] == "" then None else Some(l.value[0]);
      } else {
        r := None;
      }
    }

    method RPop(k: string, now: int) returns (r: Option<string>)
      modifies this`entries
      ensures var l := old(ListAt(k, now));
              if up && l.Some? && |l.value| > 0 then
                var last := l.value[|l.value| - 1];
                && entries == old(WithList(k, l.value[..|l.value| - 1], now))
                && r == (if last == "" then None else Some(last))
              else entries == old(entries) && r == None
    {
      var l := ListAt(k, now);
      if up && l.Some? && |l.value| > 0 {
        var last := l.value[|l.value| - 1];
        entries := WithList(k, l.value[..|l.value| - 1], now);
        r := if last == "" then None else Some(last);
      } else {
        r := None;
      }
    }

    /** `lrange(k, start, stop)`: the selected slice; [] when absent, of another type, or unreachable. */
    function LRange(k: string, start: int, stop: int, now: int): (r: seq<string>)
      reads this
      ensures !up || ListAt(k, now).None? ==> r == []
      ensures up && ListAt(k, now).Some? ==>
                var w := Window(|ListAt(k, now).value|, start, stop);
                r == ListAt(k, now).value[w.0..w.1]
    {
      if !up then []
      else match ListAt(k, now)
        case None => []
        case Some(items) =>
          var w := Window(|items|, start, stop);
          items[w.0..w.1]
    }

    /** `ltrim(k, start, stop)`: keeps only the selected slice; an emptied list is removed. */
    method LTrim(k: string, start: int, stop: int, now: int) returns (ok: bool)
      modifies this`entries
      ensures ok <==> up && old(ListAt(k, now)).Some?
      ensures ok ==> var items := old(ListAt(k, now)).value;
                     var w := Window(|items|, start, stop);
                     entries == old(WithList(k, items[w.0..w.1], now))
      ensures !ok ==> entries == old(entries)
    {
      var l := ListAt(k, now);
      ok := up && l.Some?;
      if ok {
        var w := Window(|l.value|, start, stop);
        entries := WithList(k, l.value[w.0..w.1], now);
      }
    }

    /** `llen(k)`: the length of the list `lrange(k, 0, -1)` reads, 0 otherwise. */
    function LLen(k: string, now: int): (r: int)
      reads this
      ensures r == |LRange(k, 0, -1, now)|
    {
      if up && ListAt(k, now).Some? then
        HeadWindow(|ListAt(k, now).value|, 0);
        |ListAt(k, now).value|
      else 0
    }

    // ------------------------------------------------------------------- sets

    /** `sadd(k, *members)`: the number of members that were not there yet. */
    method SAdd(k: string, members: set<string>, now: int) returns (n: int)
      modifies this`entries
      ensures var m := old(SetAt(k, now));
              var ok := up && members != {} && m.Some?;
              && n == (if ok then |members - m.value| else 0)
              && entries == if ok then old(WithSet(k, m.value + members, now)) else old(entries)
    {
      var m := SetAt(k, now);
      if up && members != {} && m.Some? {
        n := |members - m.value|;
        entries := WithSet(k, m.value + members, now);
      } else {
        n := 0;
      }
    }

    /** `srem(k, *members)`: the number of members removed; an emptied set is removed. */
    method SRem(k: string, members: set<string>, now: int) returns (n: int)
      modifies this`entries
      ensures var m := old(SetAt(k, now));
              var ok := up && members != {} && m.Some?;
              && n == (if ok then |m.value * members| else 0)
              && entries == if ok then old(WithSet(k, m.value - members, now)) else old(entries)
    {
      var m := SetAt(k, now);
      if up && members != {} && m.Some? {
        n := |m.value * members|;
        entries := WithSet(k, m.value - members, now);
      } else {
        n := 0;
      }
    }

    function SIsMember(k: string, member: string, now: int): (r: bool)
      reads this
      ensures r <==> up && SetAt(k, now).Some? && member in SetAt(k, now).value
    {
      up && SetAt(k, now).Some? && member in SetAt(k, now).value
    }

    function SMembers(k: string, now: int): (r: set<string>)
      reads this
      ensures r == if up && SetAt(k, now).Some? then SetAt(k, now).value else {}
    {
      if up && SetAt(k, now).Some? then SetAt(k, now).value else {}
    }

    function SCard(k: string, now: int): (r: int)
      reads this
      ensures r == |SMembers(k, now)|
    {
      if up && SetAt(k, now).Some? then |SetAt(k, now).value| else 0
    }

    // ----------------------------------------------------------------- hashes

    /** `hset(k, f, v)`: 1 when `f` is a new field, 0 when it was overwritten or on error. */
    method HSet(k: string, field: string, v: string, now: int) returns (n: int)
      modifies this`entries
      ensures var h := old(HashAt(k, now));
              var ok := up && h.Some?;
              && n == (if ok && field !in h.value then 1 else 0)
              && entries == if ok then old(WithHash(k, h.value[field := v], now)) else old(entries)
    {
      var h := HashAt(k, now);
      if up && h.Some? {
        n := if field !in h.value then 1 else 0;
        entries := WithHash(k, h.value[field := v], now);
      } else {
        n := 0;
      }
    }

    function HGet(k: string, field: string, now: int): (r: Option<string>)
      reads this
      ensures r.Some? <==> up && HashAt(k, now).Some? && field in HashAt(k, now).value && HashAt(k, now).value[field] != ""
      ensures r.Some? ==> r.value == HashAt(k, now).value[field]
    {
      if up && HashAt(k, now).Some? && field in HashAt(k, now).value && HashAt(k, now).value[field] != ""
      then Some(HashAt(k, now).value[field])
      else None
    }

    /** `hmset(k, mapping)`: an empty mapping is refused by the client. */
    method HMSet(k: string, mapping: map<string, string>, now: int) returns (ok: bool)
      modifies this`entries
      ensures var h := old(HashAt(k, now));
              && (ok <==> up && |mapping| > 0 && h.Some?)
              && entries == if ok then old(WithHash(k, h.value + mapping, now)) else old(entries)
    {
      var h := HashAt(k, now);
      ok := up && |mapping| > 0 && h.Some?;
      if ok {
        entries := WithHash(k, h.value + mapping, now);
      }
    }

    /** `hgetall(k)`: every field `hget` reads, and the fields holding an empty value besides. */
    function HGetAll(k: string, now: int): (r: map<string, string>)
      reads this
      ensures forall f :: HGet(k, f, now).Some? ==> f in r && r[f] == HGet(k, f, now).value
      ensures forall f :: f in r && r[f] != "" ==> HGet(k, f, now) == Some(r[f])
      ensures !up || HashAt(k, now).None? ==> r == map[]
    {
      if up && HashAt(k, now).Some? then HashAt(k, now).value else map[]
    }

    /** `hdel(k, *fields)`: the number of fields removed; an emptied hash is removed. */
    method HDel(k: string, fields: set<string>, now: int) returns (n: int)
      modifies this`entries
      ensures var h := old(HashAt(k, now));
              var ok := up && fields != {} && h.Some?;
              && n == (if ok then |h.value.Keys * fields| else 0)
              && entries == if ok then old(WithHash(k, h.value - fields, now)) else old(entries)
    {
      var h := HashAt(k, now);
      if up && fields != {} && h.Some? {
        n := |h.value.Keys * fields|;
        entries := WithHash(k, h.value - fields, now);
      } else {
        n := 0;
      }
    }

    // ------------------------------------------------------------ JSON values

    /** `get_json(k)`: the decoded value; None when absent, empty or undecodable. */
    function GetJson(k: string, codec: JsonCodec, now: int): (r: Option<PyValue>)
      reads this
      ensures Get(k, now).None? ==> r == None
      ensures Get(k, now).Some? ==> r == codec.loads(Get(k, now).value)
    {
      var data := Get(k, now);
      if data.None? then None else codec.loads(data.value)
    }

    /**
     * `set_json(k, v, ex)`: a value `json.dumps` refuses is not written;
     * otherwise as `set`. What was written reads back as `v`.
     */
    method SetJson(k: string, v: PyValue, ex: Option<int>, codec: JsonCodec, now: int) returns (ok: bool)
      modifies this`entries
      ensures ok <==> Serializable(v) && up && (ex.None? || ex.value > 0)
      ensures ok ==> entries == old(entries)[k := Entry(Text(codec.dumps(v)), if ex.Some? then Some(now + ex.value) else None)]
      ensures !ok ==> entries == old(entries)
      ensures ok && Sound(codec) ==> GetJson(k, codec, now) == Some(v)
    {
      if !Serializable(v) {
        return false;
      }
      ok := Set(k, codec.dumps(v), ex, false, now);
    }

    /** `cache_user_info`: the profile as JSON under `user_cache:<id>`. */
    method CacheUserInfo(userId: string, userData: PyValue, expireSeconds: int, codec: JsonCodec, now: int) returns (ok: bool)
      modifies this`entries
      ensures ok <==> Serializable(userData) && up && expireSeconds > 0
      ensures ok && Sound(codec) ==> GetCachedUserInfo(userId, codec, now) == Some(userData)
      ensures entries - {UserCacheKey(userId)} == old(entries) - {UserCacheKey(userId)}
    {
      ok := SetJson(UserCacheKey(userId), userData, Some(expireSeconds), codec, now);
    }

    function GetCachedUserInfo(userId: string, codec: JsonCodec, now: int): (r: Option<PyValue>)
      reads this
      ensures !up ==> r == None
    {
      GetJson(UserCacheKey(userId), codec, now)
    }

    // ------------------------------------------------------------------ locks

    /**
     * `acquire_lock`: set-if-absent with a TTL. Returns the identifier (the
     * caller's, or one naming the current asyncio coroutine when none is given) iff the lock was free.
     */
    method AcquireLock(lockKey: string, timeout: int, identifier: Option<string>, taskTag: string, now: int)
      returns (r: Option<string>)
      modifies this`entries
      ensures var id := if identifier.None? || identifier.value == "" then taskTag else identifier.value;
              && (r.Some? <==> up && timeout > 0 && old(Lookup(lockKey, now)).None?)
              && (r.Some? ==> r.value == id && entries == old(entries)[lockKey := Entry(Text(id), Some(now + timeout))])
      ensures r.None? ==> entries == old(entries)
    {
      var id := if identifier.None? || identifier.value == "" then taskTag else identifier.value;
      var ok := Set(lockKey, id, Some(timeout), true, now);
      r := if ok then Some(id) else None;
    }

    /** `release_lock`: compare-and-delete; True iff the caller held the lock and it was removed. */
    method ReleaseLock(lockKey: string, identifier: string, now: int) returns (ok: bool)
      modifies this`entries
      ensures ok <==> up && old(Lookup(lockKey, now)) == Some(Text(identifier))
      ensures entries == if ok then old(entries) - {lockKey} else old(entries)
    {
      ok := up && Lookup(lockKey, now) == Some(Text(identifier));
      if ok {
        entries := entries - {lockKey};
      }
    }

    // --------------------------------------------------- conversation history

    /**
     * `cache_conversation_history`: pushes each message to the head in input
     * order (the newest ends up first), keeps the first `maxMessages` entries
     * and sets the TTL. A message `json.dumps` refuses ends the call with
     * False, after the earlier ones were pushed. An unreachable backend is
     * silent: nothing changes and the result is True.
     */
    method CacheConversationHistory(conversationId: string, messages: seq<PyValue>, maxMessages: int,
                                    expireSeconds: int, codec: JsonCodec, now: int) returns (ok: bool)
      modifies this`entries
      ensures ok <==> forall i :: 0 <= i < |messages| ==> Serializable(messages[i])
      ensures !up ==> entries == old(entries)
      ensures entries - {HistoryKey(conversationId)} == old(entries) - {HistoryKey(conversationId)}
      ensures ok && up && old(ListAt(HistoryKey(conversationId), now)).Some? && expireSeconds > 0 ==>
                var l := KeepHead(Reversed(Dumps(codec, messages)) + old(ListAt(HistoryKey(conversationId), now)).value, maxMessages);
                && ListAt(HistoryKey(conversationId), now) == Some(l)
                && (|l| > 0 ==> Ttl(HistoryKey(conversationId), now) == expireSeconds)
      ensures !ok && up && old(ListAt(HistoryKey(conversationId), now)).Some? ==>
                exists n :: 0 <= n < |messages| && !Serializable(messages[n]) &&
                  ListAt(HistoryKey(conversationId), now)
                  == Some(Reversed(Dumps(codec, messages[..n])) + old(ListAt(HistoryKey(conversationId), now)).value)
    {
      var key := HistoryKey(conversationId);
      var pushed := PushMessages(key, messages, codec, now);
      if pushed < |messages| {
        return false;
      }
      assert messages[..pushed] == messages;
      ghost var full := ListAt(key, now);
      var _ := LTrim(key, 0, maxMessages - 1, now);
      ghost var trimmed := entries;
      var _ := Expire(key, expireSeconds, now);
      if up && full.Some? && expireSeconds > 0 {
        var l := KeepHead(full.value, maxMessages);
        assert ListIn(trimmed, key, now) == Some(l);
        if |l| > 0 {
          assert entries == trimmed[key := trimmed[key].(expiresAt := Some(now + expireSeconds))];
        }
      }
      return true;
    }

    /**
     * The loop of `cache_conversation_history`: `lpush` of each message in
     * turn, stopping at the first one `json.dumps` refuses. Returns how many
     * were pushed.
     */
    method PushMessages(key: string, messages: seq<PyValue>, codec: JsonCodec, now: int) returns (pushed: nat)
      modifies this`entries
      ensures pushed <= |messages|
      ensures forall j :: 0 <= j < pushed ==> Serializable(messages[j])
      ensures pushed < |messages| ==> !Serializable(messages[pushed])
      ensures !up ==> entries == old(entries)
      ensures entries - {key} == old(entries) - {key}
      ensures up && old(ListAt(key, now)).Some? ==>
                ListAt(key, now) == Some(Reversed(Dumps(codec, messages[..pushed])) + old(ListAt(key, now)).value)
    {
      var before := ListAt(key, now);
      pushed := 0;
      assert Dumps(codec, messages[..0]) == [];
      assert Reversed<string>([]) == [];
      assert before.Some? ==> [] + before.value == before.value;
      while pushed < |messages|
        invariant 0 <= pushed <= |messages|
        invariant forall j :: 0 <= j < pushed ==> Serializable(messages[j])
        invariant !up ==> entries == old(entries)
        invariant entries - {key} == old(entries) - {key}
        invariant up && before.Some? ==> ListAt(key, now) == Some(Reversed(Dumps(codec, messages[..pushed])) + before.value)
      {
        if !Serializable(messages[pushed]) {
          return;
        }
        var d := codec.dumps(messages[pushed]);
        ghost var current := ListAt(key, now);
        var _ := LPush(key, [d], now);
        if up && before.Some? {
          DumpsStep(codec, messages, pushed);
          PushStep(current.value, Dumps(codec, messages[..pushed]), d, before.value);
        }
        pushed := pushed + 1;
      }
    }

    /**
     * `get_cached_conversation_history`: the decodable entries among the first
     * `limit` (all of them when `limit` is 0, since the stop index is then -1).
     */
    method GetCachedConversationHistory(conversationId: string, limit: int, codec: JsonCodec, now: int)
      returns (messages: seq<PyValue>)
      ensures messages == Decoded(codec, LRange(HistoryKey(conversationId), 0, limit - 1, now))
      ensures limit >= 1 ==> |messages| <= limit
    {
      var raw := LRange(HistoryKey(conversationId), 0, limit - 1, now);
      messages := [];
      for i := 0 to |raw|
        invariant messages == Decoded(codec, raw[..i])
        invariant |messages| <= i
      {
        assert raw[..i + 1][..i] == raw[..i];
        match codec.loads(raw[i]) {
          case Some(v) => messages := messages + [v];
          case None =>
        }
      }
      assert raw[..|raw|] == raw;
      if limit >= 1 && up && ListAt(HistoryKey(conversationId), now).Some? {
        HeadWindow(|ListAt(HistoryKey(conversationId), now).value|, limit);
      }
    }

    // ------------------------------------------------------------- statistics

    /** One step of `record_api_call`: `incr(k)` then `expire(k, seven days)`. */
    method BumpDailyCounter(k: string, now: int)
      modifies this`entries
      ensures entries - {k} == old(entries) - {k}
      ensures var c := old(CounterAt(k, now));
              up && c.Some? && InInt64(c.value + 1) ==>
                && Get(k, now) == Some(Decimal(c.value + 1))
                && CounterAt(k, now) == Some(c.value + 1)
                && Ttl(k, now) == StatsRetention
    {
      ghost var c := CounterAt(k, now);
      var _ := Incr(k, 1, now);
      ghost var mid := entries;
      var _ := Expire(k, StatsRetention, now);
      if up && c.Some? && InInt64(c.value + 1) {
        var v := c.value + 1;
        assert mid[k].value == Text(Decimal(v)) && LiveAt(mid[k], now);
        assert entries[k] == Entry(Text(Decimal(v)), Some(now + StatsRetention));
        RedisIntExactlyDecimal(Decimal(v), v);
      }
    }

    /**
     * `record_api_call`: bumps the day's global counter for the endpoint and,
     * only when a user id is given, the user's counter; each gets a seven-day
     * TTL. Always True.
     */
    method RecordApiCall(endpoint: string, userId: Option<string>, today: string, now: int) returns (ok: bool)
      modifies this`entries
      ensures ok
      ensures var g := GlobalStatsKey(today, endpoint);
              var c := old(CounterAt(g, now));
              up && c.Some? && InInt64(c.value + 1) ==>
                && CounterAt(g, now) == Some(c.value + 1)
                && Ttl(g, now) == StatsRetention
                && GetApiStats(endpoint, None, today, now).totalCalls == c.value + 1
      ensures userId.None? || userId.value == "" ==>
                entries - {GlobalStatsKey(today, endpoint)} == old(entries) - {GlobalStatsKey(today, endpoint)}
      ensures userId.Some? && userId.value != "" ==>
                var u := UserStatsKey(userId.value, today, endpoint);
                var c := old(CounterAt(u, now));
                up && c.Some? && InInt64(c.value + 1) ==> CounterAt(u, now) == Some(c.value + 1) && Ttl(u, now) == StatsRetention
    {
      var g := GlobalStatsKey(today, endpoint);
      ghost var gc := CounterAt(g, now);
      BumpDailyCounter(g, now);
      if up && gc.Some? && InInt64(gc.value + 1) {
        ParseIntOfDecimal(gc.value + 1);
      }
      if userId.Some? && userId.value != "" {
        var u := UserStatsKey(userId.value, today, endpoint);
        StatsKeysDistinct(userId.value, today, endpoint);
        AgreeOutside(entries, old(entries), g, u, now);
        BumpOtherCounter(u, g, now);
      }
      ok := true;
    }

    /** The user's daily counter bumped after the global one, which it leaves as it is. */
    method BumpOtherCounter(u: string, g: string, now: int)
      modifies this`entries
      requires u != g
      ensures entries - {u} == old(entries) - {u}
      ensures var c := old(CounterAt(u, now));
              up && c.Some? && InInt64(c.value + 1) ==> CounterAt(u, now) == Some(c.value + 1) && Ttl(u, now) == StatsRetention
      ensures Get(g, now) == old(Get(g, now)) && CounterAt(g, now) == old(CounterAt(g, now)) && Ttl(g, now) == old(Ttl(g, now))
    {
      BumpDailyCounter(u, now);
      AgreeOutside(entries, old(entries), u, g, now);
    }

    /** `get_api_stats`: the day's global count (today when no date is given), 0 when absent or unparsable. */
    function GetApiStats(endpoint: string, date: Option<string>, today: string, now: int): (r: ApiStats)
      reads this
      ensures r.date == (if date.None? || date.value == "" then today else date.value)
      ensures Get(GlobalStatsKey(r.date, endpoint), now).None? ==> r.totalCalls == 0
    {
      var d := if date.None? || date.value == "" then today else date.value;
      var count := Get(GlobalStatsKey(d, endpoint), now);
      ApiStats(endpoint, d, if count.Some? then ParseInt(count.value).GetOr(0) else 0)
    }

    // ----------------------------------------------------------- online users

    /** `add_online_user`: joins the online set and marks activity for `expireSeconds`. Always True. */
    method AddOnlineUser(userId: string, expireSeconds: int, now: int) returns (ok: bool)
      modifies this`entries
      ensures ok
      ensures var m := old(SetAt(OnlineUsersKey, now));
              var joined := if up && m.Some? then old(WithSet(OnlineUsersKey, m.value + {userId}, now)) else old(entries);
              entries == if up && expireSeconds > 0
                         then joined[ActivityKey(userId) := Entry(Text("active"), Some(now + expireSeconds))]
                         else joined
      ensures up && old(SetAt(OnlineUsersKey, now)).Some? ==> SMembers(OnlineUsersKey, now) == old(SMembers(OnlineUsersKey, now)) + {userId}
      ensures up && expireSeconds > 0 ==> Exists(ActivityKey(userId), now)
    {
      ActivityKeyIsNotOnlineSet(userId);
      var _ := SAdd(OnlineUsersKey, {userId}, now);
      var _ := Set(ActivityKey(userId), "active", Some(expireSeconds), false, now);
      ok := true;
    }

    /** `remove_online_user`: leaves the online set and drops the activity key. Always True. */
    method RemoveOnlineUser(userId: string, now: int) returns (ok: bool)
      modifies this`entries
      ensures ok
      ensures var m := old(SetAt(OnlineUsersKey, now));
              var left := if up && m.Some? then old(WithSet(OnlineUsersKey, m.value - {userId}, now)) else old(entries);
              entries == if up then left - {ActivityKey(userId)} else left
      ensures userId !in SMembers(OnlineUsersKey, now)
      ensures !Exists(ActivityKey(userId), now)
    {
      ActivityKeyIsNotOnlineSet(userId);
      var _ := SRem(OnlineUsersKey, {userId}, now);
      var _ := Delete(ActivityKey(userId), now);
      ok := true;
    }

    function GetOnlineUsersCount(now: int): (r: int)
      reads this
      ensures r == |SMembers(OnlineUsersKey, now)|
    {
      SCard(OnlineUsersKey, now)
    }

    /**
     * `cleanup_offline_users`: removes from the online set exactly the members
     * whose activity key is gone, and returns how many there were.
     */
    method CleanupOfflineUsers(now: int) returns (n: int)
      modifies this`entries
      ensures var offline := set u | u in old(SMembers(OnlineUsersKey, now)) && !old(Exists(ActivityKey(u), now));
              && n == |offline|
              && SMembers(OnlineUsersKey, now) == old(SMembers(OnlineUsersKey, now)) - offline
      ensures entries - {OnlineUsersKey} == old(entries) - {OnlineUsersKey}
    {
      var online := SMembers(OnlineUsersKey, now);
      var offline: set<string> := {};
      var rest := online;
      while rest != {}
        invariant rest <= online
        invariant offline == set u | u in online - rest && !Exists(ActivityKey(u), now)
        decreases |rest|
      {
        var u :| u in rest;
        if !Exists(ActivityKey(u), now) {
          offline := offline + {u};
        }
        rest := rest - {u};
      }
      assert online - rest == online;
      if offline != {} {
        var _ := SRem(OnlineUsersKey, offline, now);
      }
      n := |offline|;
    }
  }
}
