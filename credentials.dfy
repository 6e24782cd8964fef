/**
 * API-key records and the pure half of the credential scheme: the status and
 * type enums, the stored record with its defaults, the bounds a creation
 * request must satisfy, the secret format `sk-higo-<random>` with its hash,
 * the display id, and the JSON form a record takes in the cache.
 * SHA-256 and the random generator are parameters.
 */
module Credentials {
  import opened Common
  import opened Numerals
  import opened PyValues

  datatype KeyStatus = Active | Suspended | Expired | Revoked
  {
    function Name(): string
    {
      match this
      case Active => "active"
      case Suspended => "suspended"
      case Expired => "expired"
      case Revoked => "revoked"
    }
  }

  /** `APIKeyStatus(value)`: exactly the four names are accepted. */
  function KeyStatusNamed(name: string): (r: Option<KeyStatus>)
    ensures r.Some? ==> r.value.Name() == name
  {
    if name == "active" then Some(Active)
    else if name == "suspended" then Some(Suspended)
    else if name == "expired" then Some(Expired)
    else if name == "revoked" then Some(Revoked)
    else None
  }

  lemma KeyStatusNamesRoundTrip(s: KeyStatus)
    ensures KeyStatusNamed(s.Name()) == Some(s)
  {
  }

  datatype KeyType = Development | Production | Enterprise
  {
    function Name(): string
    {
      match this
      case Development => "development"
      case Production => "production"
      case Enterprise => "enterprise"
    }
  }

  function KeyTypeNamed(name: string): (r: Option<KeyType>)
    ensures r.Some? ==> r.value.Name() == name
  {
    if name == "development" then Some(Development)
    else if name == "production" then Some(Production)
    else if name == "enterprise" then Some(Enterprise)
    else None
  }

  lemma KeyTypeNamesRoundTrip(t: KeyType)
    ensures KeyTypeNamed(t.Name()) == Some(t)
  {
  }

  /** An `APIKey`; times are epoch seconds. `id` is the document's `_id` once stored. */
  datatype ApiKey = ApiKey(
    id: Option<string>,
    keyId: string,
    keyHash: string,
    userId: string,
    name: string,
    keyType: KeyType,
    status: KeyStatus,
    monthlyQuota: Option<int>,
    dailyQuota: Option<int>,
    rateLimitRpm: int,
    rateLimitTpm: int,
    totalTokensUsed: int,
    monthlyTokensUsed: int,
    dailyTokensUsed: int,
    lastUsedAt: Option<int>,
    createdAt: int,
    expiresAt: Option<int>,
    updatedAt: int)

  const DefaultRpm: int := 60
  const DefaultTpm: int := 10000

  /** `APIKey(key_id=..., key_hash=..., user_id=..., name=..., created_at=..., updated_at=...)` with every other field defaulted. */
  function NewApiKey(keyId: string, keyHash: string, userId: string, name: string, createdAt: int, updatedAt: int): ApiKey
  {
    ApiKey(None, keyId, keyHash, userId, name, Development, Active, None, None, DefaultRpm, DefaultTpm,
           0, 0, 0, None, createdAt, None, updatedAt)
  }

  /** A fresh record is an active development key, limited to 60 requests and 10000 tokens a minute, unused so far. */
  lemma NewApiKeyDefaults(keyId: string, keyHash: string, userId: string, name: string, createdAt: int, updatedAt: int)
    ensures var k := NewApiKey(keyId, keyHash, userId, name, createdAt, updatedAt);
            && k.keyType == Development && k.status == Active
            && k.rateLimitRpm == 60 && k.rateLimitTpm == 10000
            && k.totalTokensUsed == 0 && k.monthlyTokensUsed == 0 && k.dailyTokensUsed == 0
            && k.lastUsedAt.None? && k.expiresAt.None? && k.monthlyQuota.None? && k.dailyQuota.None?
  {
  }

  /** The body of a creation request (`APIKeyCreate`). */
  datatype ApiKeyCreate = ApiKeyCreate(
    name: string,
    keyType: KeyType,
    monthlyQuota: Option<int>,
    dailyQuota: Option<int>,
    rateLimitRpm: int,
    rateLimitTpm: int,
    expiresDays: Option<int>)

  /** The request fields' declared bounds. */
  predicate ValidCreate(c: ApiKeyCreate)
  {
    && 1 <= |c.name| <= 100
    && (c.monthlyQuota.None? || c.monthlyQuota.value > 0)
    && (c.dailyQuota.None? || c.dailyQuota.value > 0)
    && 0 < c.rateLimitRpm <= 1000
    && 0 < c.rateLimitTpm <= 100000
    && (c.expiresDays.None? || 0 < c.expiresDays.value <= 365)
  }

  /** A request field that validation can reject. */
  datatype CreateField = NameField | MonthlyQuotaField | DailyQuotaField | RpmField | TpmField | ExpiresDaysField
  {
    function Name(): string
    {
      match this
      case NameField => "name"
      case MonthlyQuotaField => "monthly_quota"
      case DailyQuotaField => "daily_quota"
      case RpmField => "rate_limit_rpm"
      case TpmField => "rate_limit_tpm"
      case ExpiresDaysField => "expires_days"
    }
  }

  /** The field's value lies within its declared bounds. */
  predicate FieldOk(c: ApiKeyCreate, f: CreateField)
  {
    match f
    case NameField => 1 <= |c.name| <= 100
    case MonthlyQuotaField => c.monthlyQuota.None? || c.monthlyQuota.value > 0
    case DailyQuotaField => c.dailyQuota.None? || c.dailyQuota.value > 0
    case RpmField => 0 < c.rateLimitRpm <= 1000
    case TpmField => 0 < c.rateLimitTpm <= 100000
    case ExpiresDaysField => c.expiresDays.None? || 0 < c.expiresDays.value <= 365
  }

  const AllFields: seq<CreateField> :=
    [NameField, MonthlyQuotaField, DailyQuotaField, RpmField, TpmField, ExpiresDaysField]

  function Failing(c: ApiKeyCreate, fields: seq<CreateField>): (r: seq<CreateField>)
    ensures |r| <= |fields|
    ensures forall f :: f in r <==> f in fields && !FieldOk(c, f)
  {
    if |fields| == 0 then []
    else (if FieldOk(c, fields[0]) then [] else [fields[0]]) + Failing(c, fields[1..])
  }

  /** The fields validation reports, in declaration order: those out of bounds. */
  function CreateErrors(c: ApiKeyCreate): (r: seq<CreateField>)
    ensures |r| <= 6
    ensures forall f :: f in r <==> !FieldOk(c, f)
    ensures r == [] <==> ValidCreate(c)
  {
    var r := Failing(c, AllFields);
    assert forall f :: f in AllFields by {
      forall f
        ensures f in AllFields
      {
        assert f.NameField? || f.MonthlyQuotaField? || f.DailyQuotaField? || f.RpmField? || f.TpmField? || f.ExpiresDaysField?;
      }
    }
    assert ValidCreate(c) <==> FieldOk(c, NameField) && FieldOk(c, MonthlyQuotaField) && FieldOk(c, DailyQuotaField)
                               && FieldOk(c, RpmField) && FieldOk(c, TpmField) && FieldOk(c, ExpiresDaysField);
    if r == [] then r
    else
      assert !FieldOk(c, r[0]);
      r
  }

  /** What the API answers about a key (`APIKeyResponse`); `key` is the secret, present only right after creation. */
  datatype ApiKeyResponse = ApiKeyResponse(
    id: string,
    keyId: string,
    key: Option<string>,
    name: string,
    keyType: KeyType,
    status: KeyStatus,
    monthlyQuota: Option<int>,
    dailyQuota: Option<int>,
    rateLimitRpm: int,
    rateLimitTpm: int,
    totalTokensUsed: int,
    monthlyTokensUsed: int,
    dailyTokensUsed: int,
    createdAt: int,
    expiresAt: Option<int>)

  /** `APIKeyResponse(**key.model_dump())`: `key` takes its default; a record without an id is refused. */
  function Describe(k: ApiKey): (r: Option<ApiKeyResponse>)
    ensures r.Some? <==> k.id.Some?
    ensures r.Some? ==> r.value.key.None? && r.value.id == k.id.value && r.value.keyId == k.keyId
    ensures r.Some? ==> r.value.status == k.status && r.value.totalTokensUsed == k.totalTokensUsed
  {
    match k.id
    case None => None
    case Some(id) =>
      Some(ApiKeyResponse(id, k.keyId, None, k.name, k.keyType, k.status, k.monthlyQuota, k.dailyQuota,
                          k.rateLimitRpm, k.rateLimitTpm, k.totalTokensUsed, k.monthlyTokensUsed,
                          k.dailyTokensUsed, k.createdAt, k.expiresAt))
  }

  // ------------------------------------------------------------ secrets

  const SecretPrefix: string := "sk-higo"

  /** `hash_api_key`: the hex SHA-256 of the secret. */
  function HashApiKey(secret: string, sha256Hex: string -> string): string
  {
    sha256Hex(secret)
  }

  /**
   * `generate_api_key`: `"sk-higo" + "-" + token_urlsafe(32)` and its hash;
   * the random part is a parameter.
   */
  function GenerateApiKey(randomPart: string, sha256Hex: string -> string): (r: (string, string))
    ensures StartsWith(r.0, "sk-higo-") && StartsWith(r.0, "sk-")
    ensures r.0[|"sk-higo-"|..] == randomPart
    ensures r.1 == HashApiKey(r.0, sha256Hex)
  {
    var secret := SecretPrefix + "-" + randomPart;
    assert secret[..3] == "sk-";
    (secret, HashApiKey(secret, sha256Hex))
  }

  /** Two different random parts never give the same secret. */
  lemma GeneratedSecretsDistinct(r1: string, r2: string, sha256Hex: string -> string)
    requires r1 != r2
    ensures GenerateApiKey(r1, sha256Hex).0 != GenerateApiKey(r2, sha256Hex).0
  {
    assert GenerateApiKey(r1, sha256Hex).0[8..] == r1;
  }

  /** The id shown for a key: `secret[:20] + "..."`. */
  function DisplayId(secret: string): (r: string)
    ensures |r| == Min(20, |secret|) + 3
    ensures StartsWith(r, Take(secret, 20)) && r[|r| - 3..] == "..."
  {
    Take(secret, 20) + "..."
  }

  /**
   * For a generated secret the display id keeps the `sk-higo-` prefix; with a
   * random part of at least 12 characters (`token_urlsafe(32)` gives 43) it
   * is the first 20 characters and 23 long.
   */
  lemma DisplayIdOfGenerated(randomPart: string, sha256Hex: string -> string)
    ensures StartsWith(DisplayId(GenerateApiKey(randomPart, sha256Hex).0), "sk-higo-")
    ensures |randomPart| >= 12 ==>
              |DisplayId(GenerateApiKey(randomPart, sha256Hex).0)| == 23
              && DisplayId(GenerateApiKey(randomPart, sha256Hex).0)[..20] == GenerateApiKey(randomPart, sha256Hex).0[..20]
  {
    var secret := GenerateApiKey(randomPart, sha256Hex).0;
    var d := DisplayId(secret);
    assert d[..|Take(secret, 20)|] == Take(secret, 20);
    assert Take(secret, 20)[..8] == secret[..8];
  }

  // ------------------------------------------------------------ cache form

  /** The cache key of a record. */
  function CacheKey(keyHash: string): string { "api_key:" + keyHash }

  const CacheTtlSeconds: int := 3600

  function OptStr(v: Option<string>): PyValue
  {
    if v.Some? then PyStr(v.value) else PyNone
  }

  function OptWith(v: Option<int>, time: int -> PyValue): PyValue
  {
    if v.Some? then time(v.value) else PyNone
  }

  function EpochInt(t: int): PyValue { PyInt(t) }

  function DateTime(t: int): PyValue { PyDateTime(t) }

  /**
   * `model_dump()` of a record, with `time` rendering each timestamp. The
   * service dumps with `datetime` values; the cache form renders epoch
   * integers instead.
   */
  function KeyDump(k: ApiKey, time: int -> PyValue): PyValue
  {
    PyDict(map[
      "id" := OptStr(k.id),
      "key_id" := PyStr(k.keyId),
      "key_hash" := PyStr(k.keyHash),
      "user_id" := PyStr(k.userId),
      "name" := PyStr(k.name),
      "type" := PyStr(k.keyType.Name()),
      "status" := PyStr(k.status.Name()),
      "monthly_quota" := OptWith(k.monthlyQuota, EpochInt),
      "daily_quota" := OptWith(k.dailyQuota, EpochInt),
      "rate_limit_rpm" := PyInt(k.rateLimitRpm),
      "rate_limit_tpm" := PyInt(k.rateLimitTpm),
      "total_tokens_used" := PyInt(k.totalTokensUsed),
      "monthly_tokens_used" := PyInt(k.monthlyTokensUsed),
      "daily_tokens_used" := PyInt(k.dailyTokensUsed),
      "last_used_at" := OptWith(k.lastUsedAt, time),
      "created_at" := time(k.createdAt),
      "expires_at" := OptWith(k.expiresAt, time),
      "updated_at" := time(k.updatedAt)])
  }

  /** The dump as the service builds it: timestamps stay `datetime` objects. */
  function KeyDumpAsWritten(k: ApiKey): PyValue
  {
    KeyDump(k, DateTime)
  }

  /** `json.dumps` refuses every such dump, so `set_json` never writes the cache. */
  lemma KeyDumpAsWrittenRefused(k: ApiKey)
    ensures !Serializable(KeyDumpAsWritten(k))
  {
    var f := KeyDumpAsWritten(k).fields;
    assert "created_at" in f && f["created_at"] == PyDateTime(k.createdAt);
  }

  /** The cache form: the same dump with epoch-second integers. */
  function KeyToJson(k: ApiKey): (v: PyValue)
    ensures Serializable(v) && Truthy(v)
  {
    var v := KeyDump(k, EpochInt);
    assert "id" in v.fields;
    v
  }

  function StrAt(f: map<string, PyValue>, key: string): Option<string>
  {
    if key in f && f[key].PyStr? then Some(f[key].s) else None
  }

  function IntAt(f: map<string, PyValue>, key: string): Option<int>
  {
    if key in f && f[key].PyInt? then Some(f[key].i) else None
  }

  /** An optional integer field: Some(None) for null, None for anything malformed. */
  function OptIntAt(f: map<string, PyValue>, key: string): Option<Option<int>>
  {
    if key !in f then None
    else match f[key]
      case PyNone => Some(None)
      case PyInt(i) => Some(Some(i))
      case _ => None
  }

  function OptStrAt(f: map<string, PyValue>, key: string): Option<Option<string>>
  {
    if key !in f then None
    else match f[key]
      case PyNone => Some(None)
      case PyStr(s) => Some(Some(s))
      case _ => None
  }

  function EnumAt<E>(f: map<string, PyValue>, key: string, named: string -> Option<E>): Option<E>
  {
    var s := StrAt(f, key);
    if s.Some? then named(s.value) else None
  }

  /** `APIKey(**cached)` on the cache form: None when a field is missing or of the wrong kind. */
  function KeyFromJson(v: PyValue): Option<ApiKey>
  {
    if !v.PyDict? then None
    else
      var f := v.fields;
      var id := OptStrAt(f, "id");
      var keyId := StrAt(f, "key_id");
      var keyHash := StrAt(f, "key_hash");
      var userId := StrAt(f, "user_id");
      var name := StrAt(f, "name");
      var keyType := EnumAt(f, "type", KeyTypeNamed);
      var status := EnumAt(f, "status", KeyStatusNamed);
      var monthly := OptIntAt(f, "monthly_quota");
      var daily := OptIntAt(f, "daily_quota");
      var rpm := IntAt(f, "rate_limit_rpm");
      var tpm := IntAt(f, "rate_limit_tpm");
      var total := IntAt(f, "total_tokens_used");
      var monthUsed := IntAt(f, "monthly_tokens_used");
      var dayUsed := IntAt(f, "daily_tokens_used");
      var lastUsed := OptIntAt(f, "last_used_at");
      var created := IntAt(f, "created_at");
      var expires := OptIntAt(f, "expires_at");
      var updated := IntAt(f, "updated_at");
      if id.Some? && keyId.Some? && keyHash.Some? && userId.Some? && name.Some? && keyType.Some? && status.Some?
         && monthly.Some? && daily.Some? && rpm.Some? && tpm.Some? && total.Some? && monthUsed.Some? && dayUsed.Some?
         && lastUsed.Some? && created.Some? && expires.Some? && updated.Some?
      then
        Some(ApiKey(id.value, keyId.value, keyHash.value, userId.value, name.value, keyType.value, status.value,
                    monthly.value, daily.value, rpm.value, tpm.value, total.value, monthUsed.value, dayUsed.value,
                    lastUsed.value, created.value, expires.value, updated.value))
      else None
  }

  lemma OptIntRoundTrip(f: map<string, PyValue>, key: string, v: Option<int>)
    requires key in f && f[key] == OptWith(v, EpochInt)
    ensures OptIntAt(f, key) == Some(v)
  {
  }

  /** The identifying fields of a dump. */
  lemma KeyDumpIdentity(k: ApiKey, time: int -> PyValue)
    ensures var f := KeyDump(k, time).fields;
            && "id" in f && f["id"] == OptStr(k.id)
            && "key_id" in f && f["key_id"] == PyStr(k.keyId)
            && "key_hash" in f && f["key_hash"] == PyStr(k.keyHash)
  {
  }

  /** The owner, name and type fields of a dump. */
  lemma KeyDumpOwner(k: ApiKey, time: int -> PyValue)
    ensures var f := KeyDump(k, time).fields;
            && "user_id" in f && f["user_id"] == PyStr(k.userId)
            && "name" in f && f["name"] == PyStr(k.name)
            && "type" in f && f["type"] == PyStr(k.keyType.Name())
  {
  }

  /** The status and quota fields of a dump. */
  lemma KeyDumpLimits(k: ApiKey, time: int -> PyValue)
    ensures var f := KeyDump(k, time).fields;
            && "status" in f && f["status"] == PyStr(k.status.Name())
            && "monthly_quota" in f && f["monthly_quota"] == OptWith(k.monthlyQuota, EpochInt)
            && "daily_quota" in f && f["daily_quota"] == OptWith(k.dailyQuota, EpochInt)
  {
  }

  /** The rate limit and total usage fields of a dump. */
  lemma KeyDumpRates(k: ApiKey, time: int -> PyValue)
    ensures var f := KeyDump(k, time).fields;
            && "rate_limit_rpm" in f && f["rate_limit_rpm"] == PyInt(k.rateLimitRpm)
            && "rate_limit_tpm" in f && f["rate_limit_tpm"] == PyInt(k.rateLimitTpm)
            && "total_tokens_used" in f && f["total_tokens_used"] == PyInt(k.totalTokensUsed)
  {
  }

  /** The usage and time fields of a dump. */
  lemma KeyDumpTimes(k: ApiKey, time: int -> PyValue)
    ensures var f := KeyDump(k, time).fields;
            && "monthly_tokens_used" in f && f["monthly_tokens_used"] == PyInt(k.monthlyTokensUsed)
            && "daily_tokens_used" in f && f["daily_tokens_used"] == PyInt(k.dailyTokensUsed)
            && "last_used_at" in f && f["last_used_at"] == OptWith(k.lastUsedAt, time)
            && "created_at" in f && f["created_at"] == time(k.createdAt)
            && "expires_at" in f && f["expires_at"] == OptWith(k.expiresAt, time)
            && "updated_at" in f && f["updated_at"] == time(k.updatedAt)
  {
  }

  /** Decoding reads each field back, whatever else the dict holds. */
  lemma DecodeFields(f: map<string, PyValue>, k: ApiKey)
    requires "id" in f && f["id"] == OptStr(k.id)
    requires "key_id" in f && f["key_id"] == PyStr(k.keyId)
    requires "key_hash" in f && f["key_hash"] == PyStr(k.keyHash)
    requires "user_id" in f && f["user_id"] == PyStr(k.userId)
    requires "name" in f && f["name"] == PyStr(k.name)
    requires "type" in f && f["type"] == PyStr(k.keyType.Name())
    requires "status" in f && f["status"] == PyStr(k.status.Name())
    requires "monthly_quota" in f && f["monthly_quota"] == OptWith(k.monthlyQuota, EpochInt)
    requires "daily_quota" in f && f["daily_quota"] == OptWith(k.dailyQuota, EpochInt)
    requires "rate_limit_rpm" in f && f["rate_limit_rpm"] == PyInt(k.rateLimitRpm)
    requires "rate_limit_tpm" in f && f["rate_limit_tpm"] == PyInt(k.rateLimitTpm)
    requires "total_tokens_used" in f && f["total_tokens_used"] == PyInt(k.totalTokensUsed)
    requires "monthly_tokens_used" in f && f["monthly_tokens_used"] == PyInt(k.monthlyTokensUsed)
    requires "daily_tokens_used" in f && f["daily_tokens_used"] == PyInt(k.dailyTokensUsed)
    requires "last_used_at" in f && f["last_used_at"] == OptWith(k.lastUsedAt, EpochInt)
    requires "created_at" in f && f["created_at"] == PyInt(k.createdAt)
    requires "expires_at" in f && f["expires_at"] == OptWith(k.expiresAt, EpochInt)
    requires "updated_at" in f && f["updated_at"] == PyInt(k.updatedAt)
    ensures KeyFromJson(PyDict(f)) == Some(k)
  {
    KeyTypeNamesRoundTrip(k.keyType);
    KeyStatusNamesRoundTrip(k.status);
    OptIntRoundTrip(f, "monthly_quota", k.monthlyQuota);
    OptIntRoundTrip(f, "daily_quota", k.dailyQuota);
    OptIntRoundTrip(f, "last_used_at", k.lastUsedAt);
    OptIntRoundTrip(f, "expires_at", k.expiresAt);
  }

  /** A record read back from its cache form is the record. */
  lemma KeyJsonRoundTrip(k: ApiKey)
    ensures KeyFromJson(KeyToJson(k)) == Some(k)
  {
    KeyDumpIdentity(k, EpochInt);
    KeyDumpOwner(k, EpochInt);
    KeyDumpLimits(k, EpochInt);
    KeyDumpRates(k, EpochInt);
    KeyDumpTimes(k, EpochInt);
    DecodeFields(KeyToJson(k).fields, k);
  }
}
