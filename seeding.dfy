/**
 * The key generation tool (`APIKeyGenerator` and its interactive run): it
 * seeds a test user and a funded developer account unless they exist, then
 * stores one active test key with fixed quotas and hands out its secret. The
 * operator's answers are stripped of surrounding whitespace, and an empty
 * answer takes the default.
 */
module Seeding {
  import opened Common
  import opened Numerals
  import opened DocStore
  import opened Billing
  import opened Credentials
  import opened ApiKeys
  import opened KeyAuth
  import opened Users

  // ------------------------------------------------------------ the answers

  /** The characters `str.strip()` removes: Python's whitespace (`str.isspace`). */
  predicate IsSpace(c: char)
  {
    ('\t' <= c <= '\r') || ('\U{1C}' <= c <= ' ') || c == '\U{85}' || c == '\U{A0}' || c == '\U{1680}'
    || ('\U{2000}' <= c <= '\U{200A}') || c == '\U{2028}' || c == '\U{2029}' || c == '\U{202F}'
    || c == '\U{205F}' || c == '\U{3000}'
  }

  predicate AllSpace(s: string)
  {
    forall k :: 0 <= k < |s| ==> IsSpace(s[k])
  }

  /** Neither end of `s` is whitespace. */
  predicate Trimmed(s: string)
  {
    s != [] ==> !IsSpace(s[0]) && !IsSpace(s[|s| - 1])
  }

  /** `lstrip()`: the suffix left after the leading whitespace. */
  function TrimStart(s: string): (r: string)
    ensures |r| <= |s| && r == s[|s| - |r|..]
    ensures AllSpace(s[..|s| - |r|])
    ensures r != [] ==> !IsSpace(r[0])
    decreases |s|
  {
    if |s| > 0 && IsSpace(s[0]) then
      var r := TrimStart(s[1..]);
      SpaceBeforeTail(s, |s| - |r|);
      r
    else s
  }

  /** A space in front of a run of spaces is a longer run. */
  lemma SpaceBeforeTail(s: string, k: nat)
    requires 0 < k <= |s| && IsSpace(s[0]) && AllSpace(s[1..][..k - 1])
    ensures AllSpace(s[..k])
  {
    forall j | 0 < j < k
      ensures IsSpace(s[j])
    {
      assert s[j] == s[1..][..k - 1][j - 1];
    }
  }

  /** `rstrip()`: the prefix left before the trailing whitespace. */
  function TrimEnd(s: string): (r: string)
    ensures |r| <= |s| && r == s[..|r|]
    ensures AllSpace(s[|r|..])
    ensures r != [] ==> !IsSpace(r[|r| - 1])
    decreases |s|
  {
    if |s| > 0 && IsSpace(s[|s| - 1]) then
      var r := TrimEnd(s[..|s| - 1]);
      SpaceAfterHead(s, |r|);
      r
    else s
  }

  /** A space after a run of spaces is a longer run. */
  lemma SpaceAfterHead(s: string, k: nat)
    requires k < |s| && IsSpace(s[|s| - 1]) && AllSpace(s[..|s| - 1][k..])
    ensures AllSpace(s[k..])
  {
    forall j | k <= j < |s| - 1
      ensures IsSpace(s[j])
    {
      assert s[j] == s[..|s| - 1][k..][j - k];
    }
  }

  /**
   * `strip()`: `s` is whitespace, then the result, then whitespace, and the
   * result neither starts nor ends with whitespace.
   */
  function Strip(s: string): (r: string)
    ensures exists i, j :: 0 <= i <= j <= |s| && r == s[i..j] && AllSpace(s[..i]) && AllSpace(s[j..])
    ensures Trimmed(r)
  {
    var t := TrimStart(s);
    var r := TrimEnd(t);
    var i := |s| - |t|;
    var j := i + |r|;
    assert s[i..j] == r && s[j..] == t[|r|..];
    r
  }

  /** Whitespace on either side of a trimmed answer is exactly what `strip()` removes. */
  lemma StripPadding(pre: string, t: string, post: string)
    requires AllSpace(pre) && AllSpace(post) && Trimmed(t)
    ensures Strip(pre + t + post) == t
  {
    if t == [] {
      assert pre + t + post == pre + post;
      SpaceConcat(pre, post);
      StripAllSpace(pre + post);
    } else {
      StripPaddedText(pre, t, post);
    }
  }

  lemma StripPaddedText(pre: string, t: string, post: string)
    requires AllSpace(pre) && AllSpace(post) && Trimmed(t) && t != []
    ensures Strip(pre + t + post) == t
  {
    var s := pre + t + post;
    assert s == pre + (t + post);
    TrimStartPadding(pre, t + post);
    assert TrimStart(s) == t + post;
    TrimEndPadding(t, post);
    assert TrimEnd(t + post) == t;
  }

  lemma SpaceConcat(a: string, b: string)
    requires AllSpace(a) && AllSpace(b)
    ensures AllSpace(a + b)
  {
    forall k | 0 <= k < |a + b|
      ensures IsSpace((a + b)[k])
    {
      if k >= |a| {
        assert (a + b)[k] == b[k - |a|];
      }
    }
  }

  /** A text of whitespace only strips to nothing. */
  lemma StripAllSpace(s: string)
    requires AllSpace(s)
    ensures Strip(s) == []
  {
    TrimStartPadding(s, []);
    assert s + [] == s;
  }

  lemma {:induction false} TrimStartPadding(pre: string, s: string)
    requires AllSpace(pre) && (s != [] ==> !IsSpace(s[0]))
    ensures TrimStart(pre + s) == s
    decreases |pre|
  {
    if pre != [] {
      assert (pre + s)[1..] == pre[1..] + s;
      TrimStartPadding(pre[1..], s);
    }
  }

  lemma {:induction false} TrimEndPadding(s: string, post: string)
    requires AllSpace(post) && (s != [] ==> !IsSpace(s[|s| - 1]))
    ensures TrimEnd(s + post) == s
    decreases |post|
  {
    if post != [] {
      var p := post[..|post| - 1];
      assert (s + post)[..|s + post| - 1] == s + p;
      TrimEndPadding(s, p);
    } else {
      assert s + post == s;
    }
  }

  /** Stripping twice is stripping once. */
  lemma StripIdempotent(s: string)
    ensures Strip(Strip(s)) == Strip(s)
  {
    var t := Strip(s);
    StripPadding([], t, []);
    assert [] + t + [] == t;
  }

  /** `input().strip() or default`. */
  function Answer(raw: string, default: string): (r: string)
    ensures Strip(raw) != [] ==> r == Strip(raw)
    ensures Strip(raw) == [] ==> r == default
  {
    var s := Strip(raw);
    if s == [] then default else s
  }

  const DefaultUsername: string := "test_user"
  const DefaultKeyName: string := "Test API Key"

  /** The menu `1`/`2`/`3` (default `1`); anything else is a development key. */
  function TypeChoice(raw: string): (r: KeyType)
    ensures r == Production <==> Answer(raw, "1") == "2"
    ensures r == KeyType.Enterprise <==> Answer(raw, "1") == "3"
    ensures Strip(raw) == [] ==> r == Development
  {
    var choice := Answer(raw, "1");
    if choice == "2" then Production else if choice == "3" then KeyType.Enterprise else Development
  }

  /** `int(s) if s.isdigit() else None` on the stripped answer; an empty answer is no expiry. */
  function ExpiryInput(raw: string): (r: Option<int>)
    ensures r.Some? <==> Strip(raw) != [] && AllDigits(Strip(raw))
    ensures r.Some? ==> r.value == DigitsValue(Strip(raw)) && r.value >= 0
  {
    var s := Strip(raw);
    if |s| > 0 && AllDigits(s) then Some(DigitsValue(s)) else None
  }

  /** A day count typed with any surrounding whitespace is read back as that count. */
  lemma ExpiryOfTyped(pre: string, n: nat, post: string)
    requires AllSpace(pre) && AllSpace(post)
    ensures ExpiryInput(pre + Natural(n) + post) == Some(n)
  {
    var t := Natural(n);
    NaturalShape(n);
    assert IsDigit(t[0]) && IsDigit(t[|t| - 1]);
    StripPadding(pre, t, post);
  }

  /** A negative or signed count is not all digits, so the key never expires. */
  lemma SignedExpiryIgnored(n: nat)
    ensures ExpiryInput("-" + Natural(n)) == None
    ensures ExpiryInput("") == None
  {
    var t := "-" + Natural(n);
    assert !IsSpace(t[0]);
    NaturalShape(n);
    assert IsDigit(Natural(n)[|Natural(n)| - 1]);
    assert t[|t| - 1] == Natural(n)[|Natural(n)| - 1];
    StripPadding([], t, []);
    assert [] + t + [] == t;
    assert !IsDigit(Strip(t)[0]);
  }

  // -------------------------------------------------------------- the seeds

  /** The test user document: placeholder hash and salt, active, stamped `now`. */
  function TestUserDoc(username: string, now: int): (d: UserDoc)
    ensures d.username == username && d.isActive == Some(true)
    ensures d.email == Some(username + "@example.com")
  {
    UserDoc(username, Some(username + "@example.com"), "test_hash", "test_salt", Some(true), Some(now), Some(now))
  }

  /** The test account: developer, 10000 cents of balance and 500 of credit. */
  const TestBalanceCents: int := 10000
  const TestCreditCents: int := 500

  /** The fixed limits of a test key. */
  const TestMonthlyQuota: int := 100000
  const TestDailyQuota: int := 10000
  const TestRateLimitRpm: int := 60
  const TestRateLimitTpm: int := 10000

  /** What `generate_test_api_key` returns: the stored record and the full secret. */
  datatype IssuedKey = IssuedKey(record: ApiKey, secret: string)

  /**
   * The test key for these inputs: the fresh secret and its hash, active,
   * owned and named as asked, with the fixed test limits, unused, stamped
   * `now` and expiring at `expiresAt`.
   */
  predicate IsTestKey(k: IssuedKey, userId: string, name: string, keyType: KeyType, expiresAt: Option<int>,
                      randomPart: string, sha256Hex: string -> string, now: int)
  {
    var record := k.record;
    && k.secret == GenerateApiKey(randomPart, sha256Hex).0
    && record.keyId == DisplayId(k.secret) && record.keyHash == HashApiKey(k.secret, sha256Hex)
    && record.status == Active && record.userId == userId && record.name == name && record.keyType == keyType
    && record.monthlyQuota == Some(TestMonthlyQuota) && record.dailyQuota == Some(TestDailyQuota)
    && record.rateLimitRpm == TestRateLimitRpm && record.rateLimitTpm == TestRateLimitTpm
    && record.totalTokensUsed == 0 && record.monthlyTokensUsed == 0 && record.dailyTokensUsed == 0
    && record.lastUsedAt.None? && record.createdAt == now && record.updatedAt == now
    && record.expiresAt == expiresAt
  }

  /**
   * Any clock after 1970 is less than 3000000 days before `datetime.max`,
   * so such an expiry answer, which `isdigit` lets through, makes the
   * expiry raise `OverflowError`.
   */
  lemma LongExpiryRaises(pre: string, n: nat, post: string, now: int)
    requires AllSpace(pre) && AllSpace(post) && 0 <= now <= DatetimeMaxSecond && n >= 3000000
    ensures ExpiryRaising(ExpiryInput(pre + Natural(n) + post), now) == Raised(Overflow)
  {
    ExpiryOfTyped(pre, n, post);
    ExpiryRaisesIffOutOfRange(n, now);
  }

  class ApiKeyGenerator {
    const users: Collection<UserDoc>
    const accounts: Collection<Account>
    const keys: Collection<ApiKey>

    constructor(users: Collection<UserDoc>, accounts: Collection<Account>, keys: Collection<ApiKey>)
      ensures this.users == users && this.accounts == accounts && this.keys == keys
    {
      this.users := users;
      this.accounts := accounts;
      this.keys := keys;
    }

    /**
     * `create_test_user`: the id of the first user with that name, or else
     * the fresh uuid, under which the test document is stored; the storing
     * may fail unnoticed, and the uuid is returned all the same.
     */
    method CreateTestUser(username: string, now: int, uuid: string) returns (userId: string)
      modifies users`docs
      ensures old(users.FindOne(ByUsername(username))).Some? ==>
                userId == old(users.FindOne(ByUsername(username))).value.id && users.docs == old(users.docs)
      ensures old(users.FindOne(ByUsername(username))).None? ==>
                && userId == uuid
                && users.docs == if users.up && !old(users.HasId(uuid))
                                 then old(users.docs) + [Stored(uuid, TestUserDoc(username, now))]
                                 else old(users.docs)
      ensures users.up && !old(users.HasId(uuid)) ==>
                users.FindOne(ByUsername(username)).Some? && users.FindOne(ByUsername(username)).value.id == userId
    {
      var existing := users.FindOne(ByUsername(username));
      if existing.Some? {
        return existing.value.id;
      }
      ghost var before := users.docs;
      var doc := TestUserDoc(username, now);
      var _ := users.InsertOne(doc, Some(uuid), uuid);
      userId := uuid;
      if users.up && !old(users.HasId(uuid)) {
        AppendedIsFirst(before, Stored(uuid, doc), ByUsername(username));
      }
    }

    /**
     * `create_test_account`: the user's first account, read back, or else a
     * new funded developer account carrying the id the store gave it; once
     * stored, the same call would read it back unchanged.
     */
    method CreateTestAccount(userId: string, now: int, generatedId: string) returns (account: Account)
      modifies accounts`docs
      ensures old(accounts.FindOne(AccountOf(userId))).Some? ==>
                account == LoadedAccount(old(accounts.FindOne(AccountOf(userId))).value)
                && accounts.docs == old(accounts.docs)
      ensures old(accounts.FindOne(AccountOf(userId))).None? ==>
                var created := NewAccount(userId, Developer, TestBalanceCents, TestCreditCents, now);
                var inserted := accounts.up && !old(accounts.HasId(generatedId));
                && account == created.(id := if inserted then Some(generatedId) else None)
                && accounts.docs == if inserted then old(accounts.docs) + [Stored(generatedId, created)]
                                    else old(accounts.docs)
      ensures account.userId == userId
      ensures account.id.Some? ==>
                accounts.FindOne(AccountOf(userId)).Some?
                && LoadedAccount(accounts.FindOne(AccountOf(userId)).value) == account
    {
      var existing := accounts.FindOne(AccountOf(userId));
      if existing.Some? {
        return LoadedAccount(existing.value);
      }
      ghost var before := accounts.docs;
      var created := NewAccount(userId, Developer, TestBalanceCents, TestCreditCents, now);
      var id := accounts.InsertOne(created, None, generatedId);
      account := created.(id := id);
      if id.Some? {
        AppendedIsFirst(before, Stored(generatedId, created), AccountOf(userId));
      }
    }

    /**
     * `generate_test_api_key`: an active key with the fixed test limits,
     * stored (without id, and not cached) and returned with its secret; a
     * non-zero day count sets the expiry, and one that takes the expiry
     * out of `datetime`'s range raises before anything is stored. Unless
     * the count is negative the secret passes `verify_api_key` at once.
     */
    method GenerateTestApiKey(userId: string, name: string, keyType: KeyType, expiresDays: Option<int>,
                              randomPart: string, sha256Hex: string -> string, now: int, generatedId: string)
      returns (r: Outcome<IssuedKey>)
      modifies keys`docs
      ensures r.Raised? <==> ExpiryRaising(expiresDays, now).Raised?
      ensures r.Raised? ==> r.message == Overflow && keys.docs == old(keys.docs)
      ensures r.Ok? ==>
                var record := r.value.record;
                && IsTestKey(r.value, userId, name, keyType, ExpiryAfter(expiresDays, now), randomPart, sha256Hex, now)
                && StartsWith(r.value.secret, "sk-higo-")
                && (record.expiresAt.Some? ==> InDatetimeRange(record.expiresAt.value))
                && var inserted := keys.up && !old(keys.HasId(generatedId));
                   && record.id == (if inserted then Some(generatedId) else None)
                   && keys.docs == if inserted then old(keys.docs) + [Stored(generatedId, record.(id := None))] else old(keys.docs)
      ensures r.Ok? && (expiresDays.None? || expiresDays.value >= 0) ==>
                Verdict(Some(r.value.secret), Ok(Some(r.value.record)), now) == Accepted(r.value.record)
    {
      var pair := GenerateApiKey(randomPart, sha256Hex);
      var secret := pair.0;
      var keyHash := pair.1;
      var expiresAt := ExpiryRaising(expiresDays, now);
      if expiresAt.Raised? {
        return Raised(expiresAt.message);
      }
      var created := ApiKey(None, DisplayId(secret), keyHash, userId, name, keyType, Active,
                            Some(TestMonthlyQuota), Some(TestDailyQuota), TestRateLimitRpm, TestRateLimitTpm,
                            0, 0, 0, None, now, expiresAt.value, now);
      var id := keys.InsertOne(created, None, generatedId);
      r := Ok(IssuedKey(created.(id := id), secret));
    }

    /** The first two steps of the run: the user named by the answer, and that user's account. */
    method SeedOwner(rawUsername: string, uuid: string, accountId: string, now: int)
      returns (userId: string, account: Account)
      modifies users`docs, accounts`docs
      ensures var username := Answer(rawUsername, DefaultUsername);
              var found := old(users.FindOne(ByUsername(username)));
              && userId == (if found.Some? then found.value.id else uuid)
              && users.docs == (if found.None? && users.up && !old(users.HasId(uuid))
                                then old(users.docs) + [Stored(uuid, TestUserDoc(username, now))]
                                else old(users.docs))
      ensures var found := old(accounts.FindOne(AccountOf(userId)));
              var inserted := found.None? && accounts.up && !old(accounts.HasId(accountId));
              && account.userId == userId
              && accounts.docs == if inserted
                                  then old(accounts.docs) + [Stored(accountId, NewAccount(userId, Developer, TestBalanceCents,
                                                                                          TestCreditCents, now))]
                                  else old(accounts.docs)
    {
      assert users as object != accounts as object;
      userId := CreateTestUser(Answer(rawUsername, DefaultUsername), now, uuid);
      account := CreateTestAccount(userId, now, accountId);
    }

    /**
     * The interactive run without its printing: the answers pick the user
     * name, key name, key type and expiry; the key is made for the seeded
     * user, whose account is seeded too. A day count too large for
     * `datetime` ends the run with `OverflowError` once the user and the
     * account are in place.
     */
    method Session(rawUsername: string, rawKeyName: string, rawType: string, rawExpiry: string,
                   uuid: string, accountId: string, keyDocId: string,
                   randomPart: string, sha256Hex: string -> string, now: int)
      returns (userId: string, account: Account, r: Outcome<IssuedKey>)
      modifies users`docs, accounts`docs, keys`docs
      ensures var username := Answer(rawUsername, DefaultUsername);
              var found := old(users.FindOne(ByUsername(username)));
              && userId == (if found.Some? then found.value.id else uuid)
              && users.docs == (if found.None? && users.up && !old(users.HasId(uuid))
                                then old(users.docs) + [Stored(uuid, TestUserDoc(username, now))]
                                else old(users.docs))
      ensures var found := old(accounts.FindOne(AccountOf(userId)));
              var inserted := found.None? && accounts.up && !old(accounts.HasId(accountId));
              && account.userId == userId
              && accounts.docs == if inserted
                                  then old(accounts.docs) + [Stored(accountId, NewAccount(userId, Developer, TestBalanceCents,
                                                                                          TestCreditCents, now))]
                                  else old(accounts.docs)
      ensures r.Raised? <==> ExpiryRaising(ExpiryInput(rawExpiry), now).Raised?
      ensures r.Raised? ==> keys.docs == old(keys.docs)
      ensures r.Ok? ==>
                var record := r.value.record;
                && IsTestKey(r.value, userId, Answer(rawKeyName, DefaultKeyName), TypeChoice(rawType),
                             ExpiryAfter(ExpiryInput(rawExpiry), now), randomPart, sha256Hex, now)
                && keys.docs == (if keys.up && !old(keys.HasId(keyDocId))
                                 then old(keys.docs) + [Stored(keyDocId, record.(id := None))]
                                 else old(keys.docs))
                && Verdict(Some(r.value.secret), Ok(Some(record)), now) == Accepted(record)
    {
      // Three collections of different document types: none is another.
      assert keys as object != users as object && keys as object != accounts as object;
      userId, account := SeedOwner(rawUsername, uuid, accountId, now);
      r := GenerateTestApiKey(userId, Answer(rawKeyName, DefaultKeyName), TypeChoice(rawType),
                              ExpiryInput(rawExpiry), randomPart, sha256Hex, now, keyDocId);
    }
  }
}
