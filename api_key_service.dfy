/**
 * `APIKeyService`: issues keys into the `api_keys` collection and the cache,
 * looks them up cache-first, records usage into `usage_records`, keeps each
 * key's token counters and debits the owner's account in `accounts`.
 */
module ApiKeys {
  import opened Common
  import opened Numerals
  import opened PyValues
  import opened Kv
  import opened DocStore
  import opened Billing
  import opened Credentials

  const SecondsPerDay: int := 86400

  /** The expiry of a key made at `now` that lasts `expiresDays` days; a missing or zero count never expires. */
  function ExpiryAfter(expiresDays: Option<int>, now: int): Option<int>
  {
    if expiresDays.Some? && expiresDays.value != 0 then Some(now + expiresDays.value * SecondsPerDay) else None
  }

  /** `datetime.min` and `datetime.max` (to the second) as epoch seconds. */
  const DatetimeMinSecond: int := -62135596800
  const DatetimeMaxSecond: int := 253402300799

  /** The largest day count, in magnitude, a `timedelta` holds. */
  const TimedeltaMaxDays: int := 999999999

  const Overflow: string := "OverflowError"

  predicate InDatetimeRange(t: int)
  {
    DatetimeMinSecond <= t <= DatetimeMaxSecond
  }

  /**
   * `expires_at = now + timedelta(days=expires_days)` under `if
   * expires_days:`, as Python computes it: `timedelta` refuses a count past
   * its bound and the sum refuses an instant outside `datetime`'s years 1
   * to 9999, both with `OverflowError`.
   */
  function ExpiryRaising(expiresDays: Option<int>, now: int): (r: Outcome<Option<int>>)
    ensures r.Ok? ==> r.value == ExpiryAfter(expiresDays, now)
    ensures r.Ok? && r.value.Some? ==> InDatetimeRange(r.value.value)
    ensures r.Raised? ==> r.message == Overflow && expiresDays.Some? && expiresDays.value != 0
    ensures ExpiryAfter(expiresDays, now).None? ==> r == Ok(None)
  {
    match ExpiryAfter(expiresDays, now)
    case None => Ok(None)
    case Some(t) =>
      if expiresDays.value < -TimedeltaMaxDays || TimedeltaMaxDays < expiresDays.value || !InDatetimeRange(t) then
        Raised(Overflow)
      else Ok(Some(t))
  }

  /**
   * With the clock inside `datetime`'s range, the only thing that decides
   * the raise is whether the expiry falls inside it too: `timedelta`'s own
   * bound lies beyond it.
   */
  lemma ExpiryRaisesIffOutOfRange(days: int, now: int)
    requires InDatetimeRange(now) && days != 0
    ensures ExpiryRaising(Some(days), now).Raised? <==> !InDatetimeRange(now + days * SecondsPerDay)
  {
    if days > TimedeltaMaxDays {
      assert days * SecondsPerDay >= (TimedeltaMaxDays + 1) * SecondsPerDay;
    } else if days < -TimedeltaMaxDays {
      assert days * SecondsPerDay <= -(TimedeltaMaxDays + 1) * SecondsPerDay;
    }
  }

  /** The message of the validation error a malformed record raises. */
  const ValidationError: string := "ValidationError"

  // ------------------------------------------------------------- filters

  function WithHash(keyHash: string): Stored<ApiKey> -> bool
  {
    (s: Stored<ApiKey>) => s.doc.keyHash == keyHash
  }

  function OwnedBy(userId: string): Stored<ApiKey> -> bool
  {
    (s: Stored<ApiKey>) => s.doc.userId == userId
  }

  /** `{"_id": id, "user_id": owner}`. */
  function ByIdAndOwner(id: string, userId: string): Stored<ApiKey> -> bool
  {
    (s: Stored<ApiKey>) => s.id == id && s.doc.userId == userId
  }

  /** `{"_id": id}` for an id the caller may not have: a missing id matches nothing. */
  function ByKeyId(id: Option<string>): Stored<ApiKey> -> bool
  {
    (s: Stored<ApiKey>) => id.Some? && s.id == id.value
  }

  function AccountOf(userId: string): Stored<Account> -> bool
  {
    (s: Stored<Account>) => s.doc.userId == userId
  }

  function CreatedAt(k: ApiKey): int { k.createdAt }

  /** A key document read back as a record: its `_id` is the record's id. */
  function Loaded(s: Stored<ApiKey>): ApiKey
  {
    s.doc.(id := Some(s.id))
  }

  function LoadedAccount(s: Stored<Account>): Account
  {
    s.doc.(id := Some(s.id))
  }

  // ------------------------------------------------------------- updates

  /** `{"status": status, "updated_at": now}`, wrapped in `$set`. */
  function SetStatus(status: KeyStatus, now: int): ApiKey -> ApiKey
  {
    (k: ApiKey) => k.(status := status, updatedAt := now)
  }

  /** `update_token_usage`'s `$inc` of the three counters and `$set` of the two times. */
  function AddTokens(tokens: int, now: int): ApiKey -> ApiKey
  {
    (k: ApiKey) => k.(totalTokensUsed := k.totalTokensUsed + tokens,
                     monthlyTokensUsed := k.monthlyTokensUsed + tokens,
                     dailyTokensUsed := k.dailyTokensUsed + tokens,
                     lastUsedAt := Some(now), updatedAt := now)
  }

  /**
   * The update `charge_account` sends, chosen on the account it read: the
   * credit branch `$inc`s the credit by `-cost`; the balance branch `$set`s
   * the credit to 0 and `$inc`s the balance by the read credit's shortfall.
   */
  function DebitUpdate(read: Account, cost: int, now: int): Account -> Account
  {
    if read.creditCents >= cost then
      (a: Account) => a.(creditCents := a.creditCents - cost,
                         totalSpentCents := a.totalSpentCents + cost,
                         monthlySpentCents := a.monthlySpentCents + cost,
                         dailySpentCents := a.dailySpentCents + cost,
                         updatedAt := now)
    else
      (a: Account) => a.(creditCents := 0,
                         balanceCents := a.balanceCents - (cost - read.creditCents),
                         totalSpentCents := a.totalSpentCents + cost,
                         monthlySpentCents := a.monthlySpentCents + cost,
                         dailySpentCents := a.dailySpentCents + cost,
                         updatedAt := now)
  }

  /** Applied to the account it was chosen on (whatever its id), the update is the debit. */
  lemma DebitUpdateIsCharge(read: Account, stored: Account, cost: int, now: int)
    requires stored == read.(id := stored.id)
    ensures DebitUpdate(read, cost, now)(stored) == Charge(stored, cost, now)
  {
  }

  // --------------------------------------------------------------- usage

  /** The fields of `usage_data` the service reads; None is a missing key. */
  datatype UsageData = UsageData(
    model: Option<string>,
    promptTokens: Option<int>,
    completionTokens: Option<int>,
    endpoint: Option<string>,
    httpMethod: Option<string>)

  /**
   * The record `record_usage` builds: the model defaults to gpt-3.5-turbo,
   * an unknown model is priced at its rate, the total is the sum and the
   * cost the truncated price.
   */
  function UsageFor(key: ApiKey, data: UsageData, now: int): (r: UsageRecord)
    ensures r.model == Some(data.model.GetOr(DefaultModel))
    ensures r.promptTokens == data.promptTokens.GetOr(0) && r.completionTokens == data.completionTokens.GetOr(0)
    ensures r.totalTokens == r.promptTokens + r.completionTokens
    ensures r.costCents == Cost(r.promptTokens, r.completionTokens, RateFor(r.model.value))
    ensures data.model.Some? && data.model.value !in DefaultRates() ==>
              r.costCents == Cost(r.promptTokens, r.completionTokens, DefaultRates()[DefaultModel])
    ensures r.promptTokens >= 0 && r.completionTokens >= 0 ==>
              0 <= r.costCents * 1000 <= r.promptTokens * RateFor(r.model.value).promptPricePer1k
                                         + r.completionTokens * RateFor(r.model.value).completionPricePer1k
    ensures r.endpoint == data.endpoint.GetOr("/chat/completions") && r.httpMethod == data.httpMethod.GetOr("POST")
    ensures r.id.None? && r.apiKeyId == key.id && r.userId == key.userId && r.timestamp == now
  {
    var model := data.model.GetOr(DefaultModel);
    var prompt := data.promptTokens.GetOr(0);
    var completion := data.completionTokens.GetOr(0);
    UsageRecord(None, key.id, key.userId, data.endpoint.GetOr("/chat/completions"), data.httpMethod.GetOr("POST"),
                prompt, completion, prompt + completion, Cost(prompt, completion, RateFor(model)), Some(model), now)
  }

  // ------------------------------------------------------------- service

  class ApiKeyService {
    const redis: RedisService
    const keys: Collection<ApiKey>
    const accounts: Collection<Account>
    const usage: Collection<UsageRecord>
    const codec: JsonCodec

    constructor(redis: RedisService, keys: Collection<ApiKey>, accounts: Collection<Account>,
                usage: Collection<UsageRecord>, codec: JsonCodec)
      ensures this.redis == redis && this.keys == keys && this.accounts == accounts
      ensures this.usage == usage && this.codec == codec
    {
      this.redis := redis;
      this.keys := keys;
      this.accounts := accounts;
      this.usage := usage;
      this.codec := codec;
    }

    /** The cached value `get_by_hash` accepts (`if cached:`). */
    function CacheHit(keyHash: string, now: int): (r: Option<PyValue>)
      reads redis
      ensures r.Some? ==> Truthy(r.value) && redis.GetJson(CacheKey(keyHash), codec, now) == r
      ensures var cached := redis.GetJson(CacheKey(keyHash), codec, now);
              r.None? <==> cached.None? || !Truthy(cached.value)
    {
      var cached := redis.GetJson(CacheKey(keyHash), codec, now);
      if cached.Some? && Truthy(cached.value) then cached else None
    }

    /** What `get_by_hash` answers in the current state. */
    function KeyByHash(keyHash: string, now: int): (r: Outcome<Option<ApiKey>>)
      reads redis, keys
      ensures CacheHit(keyHash, now).None? ==>
                (r == Ok(None) <==> keys.FindOne(WithHash(keyHash)).None?)
      ensures CacheHit(keyHash, now).None? && keys.FindOne(WithHash(keyHash)).Some? ==>
                var s := keys.FindOne(WithHash(keyHash)).value;
                r == Ok(Some(Loaded(s))) && r.value.value.keyHash == keyHash && r.value.value.id == Some(s.id)
      ensures CacheHit(keyHash, now).Some? ==>
                r == (if KeyFromJson(CacheHit(keyHash, now).value).Some? then Ok(KeyFromJson(CacheHit(keyHash, now).value))
                      else Raised(ValidationError))
    {
      var cached := CacheHit(keyHash, now);
      if cached.Some? then
        match KeyFromJson(cached.value)
        case Some(k) => Ok(Some(k))
        case None => Raised(ValidationError)
      else
        match keys.FindOne(WithHash(keyHash))
        case None => Ok(None)
        case Some(s) => Ok(Some(Loaded(s)))
    }

    /** Once a record is cached under its hash, the lookup returns it. */
    lemma CachedKeyAnswers(k: ApiKey, now: int)
      requires redis.GetJson(CacheKey(k.keyHash), codec, now) == Some(KeyToJson(k))
      ensures KeyByHash(k.keyHash, now) == Ok(Some(k))
    {
      KeyJsonRoundTrip(k);
    }

    /**
     * `create_api_key`: a fresh active record for the owner, stored (without
     * id) and cached for an hour under its hash; returns the record with the
     * stored id and the secret.
     */
    method CreateApiKey(userId: string, data: ApiKeyCreate, randomPart: string, sha256Hex: string -> string,
                        now: int, generatedId: string)
      returns (record: ApiKey, secret: string)
      modifies keys`docs, redis`entries
      ensures secret == GenerateApiKey(randomPart, sha256Hex).0 && StartsWith(secret, "sk-higo-")
      ensures record.keyId == DisplayId(secret) && record.keyHash == HashApiKey(secret, sha256Hex)
      ensures record.status == Active && record.userId == userId && record.name == data.name
      ensures record.keyType == data.keyType && record.monthlyQuota == data.monthlyQuota
      ensures record.dailyQuota == data.dailyQuota
      ensures record.rateLimitRpm == data.rateLimitRpm && record.rateLimitTpm == data.rateLimitTpm
      ensures record.totalTokensUsed == 0 && record.monthlyTokensUsed == 0 && record.dailyTokensUsed == 0
      ensures record.lastUsedAt.None? && record.createdAt == now && record.updatedAt == now
      ensures record.expiresAt == ExpiryAfter(data.expiresDays, now)
      ensures var inserted := keys.up && !old(keys.HasId(generatedId));
              && record.id == (if inserted then Some(generatedId) else None)
              && keys.docs == if inserted then old(keys.docs) + [Stored(generatedId, record.(id := None))] else old(keys.docs)
      ensures redis.entries ==
                if redis.up then old(redis.entries)[CacheKey(record.keyHash) :=
                                   Entry(Text(codec.dumps(KeyToJson(record))), Some(now + CacheTtlSeconds))]
                else old(redis.entries)
      ensures redis.up && Sound(codec) ==> KeyByHash(record.keyHash, now) == Ok(Some(record))
    {
      var pair := GenerateApiKey(randomPart, sha256Hex);
      secret := pair.0;
      var keyHash := pair.1;
      var expiresAt := ExpiryAfter(data.expiresDays, now);
      var created := ApiKey(None, DisplayId(secret), keyHash, userId, data.name, data.keyType, Active,
                            data.monthlyQuota, data.dailyQuota, data.rateLimitRpm, data.rateLimitTpm,
                            0, 0, 0, None, now, expiresAt, now);
      var id := keys.InsertOne(created, None, generatedId);
      record := created.(id := id);
      var _ := redis.SetJson(CacheKey(keyHash), KeyToJson(record), Some(CacheTtlSeconds), codec, now);
      if redis.up && Sound(codec) {
        CachedKeyAnswers(record, now);
      }
    }

    /**
     * The cache write of `create_api_key` as the service performs it: the
     * dump keeps `datetime` values, `json.dumps` refuses it and nothing is
     * cached.
     */
    method CacheAsWritten(record: ApiKey, now: int) returns (ok: bool)
      modifies redis`entries
      ensures !ok
      ensures redis.entries == old(redis.entries)
    {
      KeyDumpAsWrittenRefused(record);
      ok := redis.SetJson(CacheKey(record.keyHash), KeyDumpAsWritten(record), Some(CacheTtlSeconds), codec, now);
    }

    /**
     * `get_by_hash`: a cache hit is decoded and returned without consulting
     * the store; on a miss the store's first record with the hash is
     * returned and cached for an hour, and an unknown hash gives None with
     * the cache unchanged.
     */
    method GetByHash(keyHash: string, now: int) returns (r: Outcome<Option<ApiKey>>)
      modifies redis`entries
      ensures r == old(KeyByHash(keyHash, now))
      ensures old(CacheHit(keyHash, now)).Some? || r == Ok(None) ==> redis.entries == old(redis.entries)
      ensures old(CacheHit(keyHash, now)).None? && r.Ok? && r.value.Some? ==>
                redis.entries ==
                  if redis.up then old(redis.entries)[CacheKey(keyHash) :=
                                     Entry(Text(codec.dumps(KeyToJson(r.value.value))), Some(now + CacheTtlSeconds))]
                  else old(redis.entries)
      ensures redis.up && Sound(codec) && r.Ok? && r.value.Some? ==> KeyByHash(keyHash, now) == r
    {
      ghost var expected := KeyByHash(keyHash, now);
      var cached := redis.GetJson(CacheKey(keyHash), codec, now);
      if cached.Some? && Truthy(cached.value) {
        var k := KeyFromJson(cached.value);
        return if k.Some? then Ok(k) else Raised(ValidationError);
      }
      assert CacheHit(keyHash, now).None?;
      var doc := keys.FindOne(WithHash(keyHash));
      if doc.None? {
        assert expected == Ok(None);
        return Ok(None);
      }
      var k := Loaded(doc.value);
      assert expected == Ok(Some(k));
      var _ := redis.SetJson(CacheKey(keyHash), KeyToJson(k), Some(CacheTtlSeconds), codec, now);
      r := Ok(Some(k));
      if redis.up && Sound(codec) {
        CachedKeyAnswers(k, now);
      }
    }

    /**
     * `update_status`: rewrites status and `updated_at` of the record with
     * that id and leaves the cache alone, so a cached copy keeps answering
     * with the old status until it expires.
     */
    method UpdateStatus(apiKeyId: Option<string>, status: KeyStatus, now: int)
      modifies keys`docs
      ensures keys.docs == if keys.up then UpdatedFirst(old(keys.docs), ByKeyId(apiKeyId), SetStatus(status, now))
                           else old(keys.docs)
      ensures forall h :: old(CacheHit(h, now)).Some? ==> KeyByHash(h, now) == old(KeyByHash(h, now))
    {
      var _ := keys.UpdateOne(ByKeyId(apiKeyId), SetStatus(status, now));
    }

    /** `update_token_usage`: adds the tokens to the three counters and stamps the use. */
    method UpdateTokenUsage(apiKeyId: Option<string>, tokens: int, now: int)
      modifies keys`docs
      ensures keys.docs == if keys.up then UpdatedFirst(old(keys.docs), ByKeyId(apiKeyId), AddTokens(tokens, now))
                           else old(keys.docs)
    {
      var _ := keys.UpdateOne(ByKeyId(apiKeyId), AddTokens(tokens, now));
    }

    /** `get_account_by_user_id`: the owner's first account, read back with its id. */
    function GetAccountByUserId(userId: string): (r: Option<Account>)
      reads accounts
      ensures r.Some? <==> accounts.FindOne(AccountOf(userId)).Some?
      ensures r.Some? ==> r.value.userId == userId
      ensures r.Some? ==> r.value == LoadedAccount(accounts.FindOne(AccountOf(userId)).value)
    {
      match accounts.FindOne(AccountOf(userId))
      case None => None
      case Some(s) => Some(LoadedAccount(s))
    }

    /**
     * `charge_account`: no account, no change; otherwise the owner's first
     * account is debited, credit first and then balance.
     */
    method ChargeAccount(userId: string, cost: int, now: int)
      modifies accounts`docs
      ensures var i := FirstIndex(old(accounts.docs), AccountOf(userId));
              accounts.docs ==
                if accounts.up && i.Some? then
                  old(accounts.docs)[i.value := old(accounts.docs)[i.value].(doc := Charge(old(accounts.docs)[i.value].doc, cost, now))]
                else old(accounts.docs)
    {
      var account := GetAccountByUserId(userId);
      if account.None? {
        return;
      }
      var i := FirstIndex(accounts.docs, AccountOf(userId));
      DebitUpdateIsCharge(account.value, accounts.docs[i.value].doc, cost, now);
      var _ := accounts.UpdateOne(AccountOf(userId), DebitUpdate(account.value, cost, now));
    }

    /**
     * What `record_usage` leaves behind: the record appended, the key's
     * counters raised by its total, and the owner charged its cost.
     */
    twostate predicate UsageRecorded(key: ApiKey, data: UsageData, now: int, usageId: string)
      reads usage, keys, accounts
    {
      var base := UsageFor(key, data, now);
      var inserted := usage.up && !old(usage.HasId(usageId));
      var i := FirstIndex(old(accounts.docs), AccountOf(key.userId));
      && usage.docs == (if inserted then old(usage.docs) + [Stored(usageId, base)] else old(usage.docs))
      && keys.docs == (if keys.up then UpdatedFirst(old(keys.docs), ByKeyId(key.id), AddTokens(base.totalTokens, now))
                       else old(keys.docs))
      && accounts.docs
         == (if accounts.up && i.Some? then
               old(accounts.docs)[i.value := old(accounts.docs)[i.value].(doc := Charge(old(accounts.docs)[i.value].doc, base.costCents, now))]
             else old(accounts.docs))
    }

    /**
     * `record_usage`, in order: append the usage record, add its total to the
     * key's counters, then charge the owner its cost.
     */
    method RecordUsage(key: ApiKey, data: UsageData, now: int, generatedId: string) returns (record: UsageRecord)
      modifies usage`docs, keys`docs, accounts`docs
      ensures record == UsageFor(key, data, now).(id := if usage.up && !old(usage.HasId(generatedId)) then Some(generatedId) else None)
      ensures UsageRecorded(key, data, now, generatedId)
    {
      var base := UsageFor(key, data, now);
      var id := usage.InsertOne(base, None, generatedId);
      record := base.(id := id);
      UpdateTokenUsage(key.id, record.totalTokens, now);
      ChargeAccount(key.userId, record.costCents, now);
    }

    /**
     * `create_account`: a new account of the named type with balance 0 and
     * a 500-cent credit; a name that is no account type raises.
     */
    method CreateAccount(userId: string, accountType: string, now: int, generatedId: string) returns (r: Outcome<Account>)
      modifies accounts`docs
      ensures r.Raised? <==> AccountTypeNamed(accountType).None?
      ensures r.Raised? ==> accounts.docs == old(accounts.docs)
      ensures r.Ok? ==> r.value.accountType.Name() == accountType && r.value.userId == userId
      ensures r.Ok? ==> r.value.balanceCents == 0 && r.value.creditCents == 500 && r.value.Funds() == 500
      ensures r.Ok? ==> r.value.totalSpentCents == 0 && r.value.monthlySpentCents == 0 && r.value.dailySpentCents == 0
      ensures r.Ok? ==> var inserted := accounts.up && !old(accounts.HasId(generatedId));
                        && r.value.id == (if inserted then Some(generatedId) else None)
                        && accounts.docs == if inserted then old(accounts.docs) + [Stored(generatedId, r.value.(id := None))]
                                            else old(accounts.docs)
    {
      var t := AccountTypeNamed(accountType);
      if t.None? {
        return Raised(ValidationError);
      }
      var account := NewAccount(userId, t.value, 0, 500, now);
      var id := accounts.InsertOne(account, None, generatedId);
      r := Ok(account.(id := id));
    }

    /** `get_user_api_keys`: the owner's keys, newest first. */
    function GetUserApiKeys(userId: string): (r: seq<ApiKey>)
      reads keys
      ensures forall i :: 0 <= i < |r| ==> r[i].userId == userId
      ensures forall i, j :: 0 <= i < j < |r| ==> r[j].createdAt <= r[i].createdAt
      ensures forall i :: 0 <= i < |r| ==> exists k :: 0 <= k < |keys.docs| && r[i] == Loaded(keys.docs[k])
      ensures keys.up ==> forall s :: s in keys.docs && s.doc.userId == userId ==> Loaded(s) in r
      ensures !keys.up ==> r == []
    {
      var docs := keys.FindMany(OwnedBy(userId), Some(CreatedAt), None);
      OwnedKeysLoaded(keys.docs, docs, userId);
      OwnedKeysComplete(keys.docs, docs, userId, keys.up);
      LoadAll(docs)
    }

    /**
     * `revoke_api_key`: marks the owner's key revoked; if that changed the
     * record, the cache entry of its hash is dropped. False (and nothing
     * changed) when no key has both that id and that owner.
     */
    method RevokeApiKey(apiKeyId: string, userId: string, now: int) returns (result: bool)
      modifies keys`docs, redis`entries
      ensures var i := FirstIndex(old(keys.docs), ByIdAndOwner(apiKeyId, userId));
              result == (keys.up && i.Some? && SetStatus(Revoked, now)(old(keys.docs)[i.value].doc) != old(keys.docs)[i.value].doc)
      ensures keys.docs == if result then UpdatedFirst(old(keys.docs), ByIdAndOwner(apiKeyId, userId), SetStatus(Revoked, now))
                           else old(keys.docs)
      ensures !result ==> redis.entries == old(redis.entries)
      ensures var i := FirstIndex(old(keys.docs), ByIdAndOwner(apiKeyId, userId));
              result && old(UniqueIds(keys.docs)) ==>
                redis.entries == if redis.up then old(redis.entries) - {CacheKey(old(keys.docs)[i.value].doc.keyHash)}
                                 else old(redis.entries)
    {
      ghost var before := keys.docs;
      ghost var i := FirstIndex(keys.docs, ByIdAndOwner(apiKeyId, userId));
      result := keys.UpdateOne(ByIdAndOwner(apiKeyId, userId), SetStatus(Revoked, now));
      if result {
        var doc := keys.FindOne(ById(apiKeyId));
        if UniqueIds(before) {
          OnlyDocWithId(keys.docs, i.value, apiKeyId);
          assert doc == Some(keys.docs[i.value]);
        }
        if doc.Some? {
          var _ := redis.Delete(CacheKey(doc.value.doc.keyHash), now);
        }
      }
    }
  }

  /** In a unique-id collection the document at `i` is the one `find_one({"_id": id})` returns. */
  lemma OnlyDocWithId<T>(docs: seq<Stored<T>>, i: nat, id: string)
    requires UniqueIds(docs) && i < |docs| && docs[i].id == id
    ensures FirstIndex(docs, ById(id)) == Some(i)
  {
    assert ById<T>(id)(docs[i]);
  }

  lemma OwnedKeysLoaded(all: seq<Stored<ApiKey>>, docs: seq<Stored<ApiKey>>, userId: string)
    requires forall i :: 0 <= i < |docs| ==> OwnedBy(userId)(docs[i]) && docs[i] in all
    requires SortedDesc(docs, CreatedAt)
    ensures forall i :: 0 <= i < |LoadAll(docs)| ==> LoadAll(docs)[i].userId == userId
    ensures forall i, j :: 0 <= i < j < |LoadAll(docs)| ==> LoadAll(docs)[j].createdAt <= LoadAll(docs)[i].createdAt
    ensures forall i :: 0 <= i < |LoadAll(docs)| ==> exists k :: 0 <= k < |all| && LoadAll(docs)[i] == Loaded(all[k])
  {
    var r := LoadAll(docs);
    forall i | 0 <= i < |r|
      ensures r[i].userId == userId
    {
      assert OwnedBy(userId)(docs[i]);
    }
    forall i | 0 <= i < |LoadAll(docs)|
      ensures exists k :: 0 <= k < |all| && LoadAll(docs)[i] == Loaded(all[k])
    {
      LoadedFromAll(all, docs[i]);
      assert LoadAll(docs)[i] == Loaded(docs[i]);
    }
    assert forall i :: 0 <= i < |LoadAll(docs)| ==> exists k :: 0 <= k < |all| && LoadAll(docs)[i] == Loaded(all[k]);
    forall i, j | 0 <= i < j < |r|
      ensures r[j].createdAt <= r[i].createdAt
    {
      assert CreatedAt(docs[j].doc) <= CreatedAt(docs[i].doc);
    }
  }

  lemma LoadedFromAll(all: seq<Stored<ApiKey>>, d: Stored<ApiKey>)
    requires d in all
    ensures exists k :: 0 <= k < |all| && Loaded(d) == Loaded(all[k])
  {
    var k :| 0 <= k < |all| && all[k] == d;
    assert Loaded(d) == Loaded(all[k]);
  }

  /** When the read is complete, every key of the owner is among the loaded records. */
  lemma OwnedKeysComplete(all: seq<Stored<ApiKey>>, docs: seq<Stored<ApiKey>>, userId: string, complete: bool)
    requires complete ==> multiset(docs) == multiset(Filter(all, OwnedBy(userId)))
    ensures complete ==> forall s :: s in all && s.doc.userId == userId ==> Loaded(s) in LoadAll(docs)
  {
    var r := LoadAll(docs);
    forall s | complete && s in all && s.doc.userId == userId
      ensures Loaded(s) in r
    {
      FilterCounts(all, OwnedBy(userId), s);
      assert s in multiset(docs);
      var i :| 0 <= i < |docs| && docs[i] == s;
      assert r[i] == Loaded(s);
    }
  }

  /** Documents read back as records, in order. */
  function LoadAll(docs: seq<Stored<ApiKey>>): (r: seq<ApiKey>)
    ensures |r| == |docs|
    ensures forall i :: 0 <= i < |r| ==> r[i] == Loaded(docs[i])
  {
    seq(|docs|, i requires 0 <= i < |docs| => Loaded(docs[i]))
  }
}
