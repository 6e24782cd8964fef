/**
 * `APIKeyAuth.verify_api_key`: the bearer credential is checked for
 * presence and the `sk-` prefix, hashed, looked up through the key service,
 * and accepted only when the record is active and not past its expiry; a
 * key found past its expiry is marked expired on the way out.
 */
module KeyAuth {
  import opened Common
  import opened Kv
  import opened DocStore
  import opened Credentials
  import opened ApiKeys

  /** What the dependency produces: the key, a 401 with its detail, or the lookup's own error. */
  datatype AuthResult = Accepted(key: ApiKey) | Rejected(detail: string) | Failed(message: string)

  const MissingKey: string := "Missing API key"
  const BadFormat: string := "Invalid API key format"
  const UnknownKey: string := "Invalid API key"
  const ExpiredKey: string := "API key has expired"

  /** The credential is present, non-empty and starts with `sk-`, so it is looked up. */
  predicate LookedUp(credentials: Option<string>)
  {
    credentials.Some? && credentials.value != "" && StartsWith(credentials.value, "sk-")
  }

  /** `expires_at and now > expires_at`: the expiry instant itself still passes. */
  predicate PastExpiry(k: ApiKey, now: int)
  {
    k.expiresAt.Some? && now > k.expiresAt.value
  }

  /** The lookup found an active key past its expiry, which is then marked expired. */
  predicate MarksExpired(credentials: Option<string>, lookup: Outcome<Option<ApiKey>>, now: int)
  {
    LookedUp(credentials) && lookup.Ok? && lookup.value.Some?
    && lookup.value.value.status == Active && PastExpiry(lookup.value.value, now)
  }

  /** The checks of `verify_api_key` in order, given what the lookup answered. */
  function Verdict(credentials: Option<string>, lookup: Outcome<Option<ApiKey>>, now: int): (r: AuthResult)
    ensures r.Accepted? <==> LookedUp(credentials) && lookup.Ok? && lookup.value.Some?
                             && lookup.value.value.status == Active && !PastExpiry(lookup.value.value, now)
    ensures r.Accepted? ==> lookup == Ok(Some(r.key))
    ensures r.Failed? <==> LookedUp(credentials) && lookup.Raised?
    ensures r.Failed? ==> r.message == lookup.message
    ensures credentials.None? || credentials.value == "" ==> r == Rejected(MissingKey)
    ensures credentials.Some? && credentials.value != "" && !StartsWith(credentials.value, "sk-") ==> r == Rejected(BadFormat)
    ensures LookedUp(credentials) && lookup == Ok(None) ==> r == Rejected(UnknownKey)
    ensures LookedUp(credentials) && lookup.Ok? && lookup.value.Some? && lookup.value.value.status != Active ==>
              r == Rejected("API key is " + lookup.value.value.status.Name())
    ensures r == Rejected(ExpiredKey) <==> MarksExpired(credentials, lookup, now)
  {
    if credentials.None? || credentials.value == "" then Rejected(MissingKey)
    else if !StartsWith(credentials.value, "sk-") then Rejected(BadFormat)
    else match lookup
      case Raised(message) => Failed(message)
      case Ok(None) => Rejected(UnknownKey)
      case Ok(Some(k)) =>
        if k.status != Active then Rejected("API key is " + k.status.Name())
        else if PastExpiry(k, now) then Rejected(ExpiredKey)
        else Accepted(k)
  }

  /** A key is accepted until the second it expires, and rejected from the next second on. */
  lemma ExpiryBoundary(credentials: Option<string>, k: ApiKey, now: int)
    requires LookedUp(credentials) && k.status == Active && k.expiresAt == Some(now)
    ensures Verdict(credentials, Ok(Some(k)), now) == Accepted(k)
    ensures Verdict(credentials, Ok(Some(k)), now + 1) == Rejected(ExpiredKey)
  {
  }

  /** A suspended, expired or revoked key is refused whatever the clock says, and never re-marked. */
  lemma InactiveAlwaysRejected(credentials: Option<string>, k: ApiKey, t1: int, t2: int)
    requires LookedUp(credentials) && k.status != Active
    ensures Verdict(credentials, Ok(Some(k)), t1) == Verdict(credentials, Ok(Some(k)), t2)
    ensures Verdict(credentials, Ok(Some(k)), t1).Rejected?
    ensures !MarksExpired(credentials, Ok(Some(k)), t1)
  {
  }

  lemma RevokedVerdict(credentials: Option<string>, k: ApiKey, now: int)
    requires LookedUp(credentials) && k.status == Revoked
    ensures Verdict(credentials, Ok(Some(k)), now) == Rejected("API key is revoked")
  {
  }

  /**
   * A `datetime` as the key record holds it: its epoch second and whether
   * it carries a time zone. `motor`, opened without `tz_aware`, reads
   * every BSON date back without one.
   */
  datatype Stamp = Stamp(seconds: int, aware: bool)

  /** The expiry of a key record as it comes out of the store: a naive `datetime`. */
  function StoredExpiry(expiresAt: Option<int>): (r: Option<Stamp>)
    ensures r.Some? <==> expiresAt.Some?
    ensures r.Some? ==> r.value == Stamp(expiresAt.value, false)
  {
    if expiresAt.Some? then Some(Stamp(expiresAt.value, false)) else None
  }

  const NaiveAwareCompare: string := "TypeError: can't compare offset-naive and offset-aware datetimes"

  /**
   * The expiry test as written: `expires_at and datetime.now(timezone.utc)
   * > expires_at`. Python refuses to order an aware and a naive `datetime`.
   */
  function ExpiryTestAsWritten(now: int, expiresAt: Option<Stamp>): (r: Outcome<bool>)
    ensures r.Raised? <==> expiresAt.Some? && !expiresAt.value.aware
    ensures r.Raised? ==> r.message == NaiveAwareCompare
    ensures r.Ok? ==> (r.value <==> expiresAt.Some? && now > expiresAt.value.seconds)
  {
    match expiresAt
    case None => Ok(false)
    case Some(e) => if e.aware then Ok(now > e.seconds) else Raised(NaiveAwareCompare)
  }

  /** Every active key with an expiry, read from the store, makes the test raise, however far off the expiry is. */
  lemma StoredExpiryRaises(k: ApiKey, now: int)
    requires k.expiresAt.Some?
    ensures ExpiryTestAsWritten(now, StoredExpiry(k.expiresAt)) == Raised(NaiveAwareCompare)
  {
  }

  /** The corrected test: with both instants in UTC it is `PastExpiry`, and it never raises. */
  lemma ExpiryTestCorrected(k: ApiKey, now: int)
    ensures var aware := if k.expiresAt.Some? then Some(Stamp(k.expiresAt.value, true)) else None;
            ExpiryTestAsWritten(now, aware) == Ok(PastExpiry(k, now))
  {
  }

  class ApiKeyAuth {
    const service: ApiKeyService

    constructor(service: ApiKeyService)
      ensures this.service == service
    {
      this.service := service;
    }

    /** What `get_by_hash` would answer for the credential, or nothing when it is not looked up. */
    function Lookup(credentials: Option<string>, sha256Hex: string -> string, now: int): (r: Outcome<Option<ApiKey>>)
      reads service, service.redis, service.keys
      ensures !LookedUp(credentials) ==> r == Ok(None)
      ensures LookedUp(credentials) ==> r == service.KeyByHash(HashApiKey(credentials.value, sha256Hex), now)
    {
      if LookedUp(credentials) then service.KeyByHash(HashApiKey(credentials.value, sha256Hex), now) else Ok(None)
    }

    /**
     * `verify_api_key`: the verdict on what the lookup found; the lookup's
     * own cache refill is its only other effect, except that an active key
     * past its expiry has its record marked expired.
     */
    method VerifyApiKey(credentials: Option<string>, sha256Hex: string -> string, now: int) returns (r: AuthResult)
      modifies service.redis`entries, service.keys`docs
      ensures r == Verdict(credentials, old(Lookup(credentials, sha256Hex, now)), now)
      ensures !LookedUp(credentials) ==> service.redis.entries == old(service.redis.entries)
      ensures var lookup := old(Lookup(credentials, sha256Hex, now));
              service.keys.docs ==
                if MarksExpired(credentials, lookup, now) && service.keys.up then
                  UpdatedFirst(old(service.keys.docs), ByKeyId(lookup.value.value.id), SetStatus(Expired, now))
                else old(service.keys.docs)
      ensures LookedUp(credentials) ==>
                var h := HashApiKey(credentials.value, sha256Hex);
                var lookup := old(service.KeyByHash(h, now));
                if old(service.CacheHit(h, now)).Some? || lookup == Ok(None) then
                  service.redis.entries == old(service.redis.entries)
                else lookup.Ok? ==>
                  service.redis.entries ==
                    if service.redis.up then old(service.redis.entries)[CacheKey(h) :=
                      Entry(Text(service.codec.dumps(KeyToJson(lookup.value.value))), Some(now + CacheTtlSeconds))]
                    else old(service.redis.entries)
    {
      if credentials.None? || credentials.value == "" {
        return Rejected(MissingKey);
      }
      if !StartsWith(credentials.value, "sk-") {
        return Rejected(BadFormat);
      }
      var keyHash := HashApiKey(credentials.value, sha256Hex);
      var found := service.GetByHash(keyHash, now);
      match found
      case Raised(message) => r := Failed(message);
      case Ok(None) => r := Rejected(UnknownKey);
      case Ok(Some(k)) =>
        if k.status != Active {
          r := Rejected("API key is " + k.status.Name());
        } else if PastExpiry(k, now) {
          service.UpdateStatus(k.id, Expired, now);
          r := Rejected(ExpiredKey);
        } else {
          r := Accepted(k);
        }
    }

    /**
     * Revocation takes effect at once: after `revoke_api_key` succeeds on a
     * live key, the same secret is refused with "API key is revoked", even
     * if the key had been cached.
     */
    method RevokeThenVerify(secret: string, sha256Hex: string -> string, userId: string, i: nat, now: int)
      returns (revoked: bool, r: AuthResult)
      modifies service.redis`entries, service.keys`docs
      requires service.keys.up && UniqueIds(service.keys.docs)
      requires i < |service.keys.docs| && service.keys.docs[i].doc.userId == userId
      requires service.keys.docs[i].doc.status != Revoked
      requires LookedUp(Some(secret))
      requires FirstIndex(service.keys.docs, WithHash(HashApiKey(secret, sha256Hex))) == Some(i)
      ensures revoked
      ensures r == Rejected("API key is revoked")
    {
      var h := HashApiKey(secret, sha256Hex);
      revoked := RevokeAt(h, userId, i, now);
      FoundUncached(h, i, now);
      ghost var k := Loaded(service.keys.docs[i]);
      assert Lookup(Some(secret), sha256Hex, now) == Ok(Some(k));
      RevokedVerdict(Some(secret), k, now);
      r := VerifyApiKey(Some(secret), sha256Hex, now);
    }

    /** `revoke_api_key` on the key at `i`: afterwards it is uncached and still the first with its hash. */
    method RevokeAt(h: string, userId: string, i: nat, now: int) returns (revoked: bool)
      modifies service.redis`entries, service.keys`docs
      requires service.keys.up && UniqueIds(service.keys.docs)
      requires i < |service.keys.docs| && service.keys.docs[i].doc.userId == userId
      requires service.keys.docs[i].doc.status != Revoked
      requires FirstIndex(service.keys.docs, WithHash(h)) == Some(i)
      ensures revoked && service.keys.up && service.CacheHit(h, now).None?
      ensures i < |service.keys.docs| && service.keys.docs[i].doc.status == Revoked
      ensures FirstIndex(service.keys.docs, WithHash(h)) == Some(i)
    {
      ghost var before := service.keys.docs;
      var id := service.keys.docs[i].id;
      OnlyDocWithIdAndOwner(before, i, id, userId);
      revoked := service.RevokeApiKey(id, userId, now);
      assert service.keys.docs[i].doc == before[i].doc.(status := Revoked, updatedAt := now);
      assert WithHash(h)(before[i]);
      if service.redis.up {
        assert CacheKey(h) !in service.redis.entries;
      }
      WithHashAfterUpdate(before, service.keys.docs, i, h);
    }

    /** With nothing cached, the lookup answers with the store's first document of that hash. */
    lemma FoundUncached(h: string, i: nat, now: int)
      requires service.keys.up && service.CacheHit(h, now).None?
      requires FirstIndex(service.keys.docs, WithHash(h)) == Some(i)
      ensures service.KeyByHash(h, now) == Ok(Some(Loaded(service.keys.docs[i])))
    {
      assert service.keys.FindOne(WithHash(h)) == Some(service.keys.docs[i]);
    }
  }

  /** In a unique-id collection the document at `i` is the first one with its id and owner. */
  lemma OnlyDocWithIdAndOwner(docs: seq<Stored<ApiKey>>, i: nat, id: string, userId: string)
    requires UniqueIds(docs) && i < |docs| && docs[i].id == id && docs[i].doc.userId == userId
    ensures FirstIndex(docs, ByIdAndOwner(id, userId)) == Some(i)
  {
    assert ByIdAndOwner(id, userId)(docs[i]);
  }

  /** Rewriting the document at `i` without touching its hash keeps it the first with that hash. */
  lemma WithHashAfterUpdate(before: seq<Stored<ApiKey>>, after: seq<Stored<ApiKey>>, i: nat, h: string)
    requires FirstIndex(before, WithHash(h)) == Some(i)
    requires |after| == |before| && after[i].doc.keyHash == h
    requires forall j :: 0 <= j < |after| && j != i ==> after[j] == before[j]
    ensures FirstIndex(after, WithHash(h)) == Some(i)
  {
    assert WithHash(h)(after[i]);
    forall j | 0 <= j < i
      ensures !WithHash(h)(after[j])
    {
      assert after[j] == before[j];
    }
  }
}
