# HiGO API gateway: a verified model

HiGO is a FastAPI service for pet-health consultations. The service does not answer questions itself. It meters and protects them:

- callers present `sk-higo-` API keys, which are hashed, cached in Redis and checked in a fixed order;
- every call is rate-limited by a fixed-window counter, and logins by an attempts counter with a lockout marker;
- usage is priced from a per-model rate table in integer cents and debited from an account, promotional credit first;
- text and image consultations are streamed from a language model as server-sent events (the `data:` framing of section 9.2 of the WHATWG HTML standard) and saved as conversation turns in MongoDB;
- images are first sent to a multimodal API in a request signed with HMAC-SHA256 (RFC 2104). The signature travels as Base64 (RFC 4648 section 4) over compact, key-sorted JSON (RFC 8259).

This project models that core in Dafny:

- Redis is a map of entries with absolute expiry instants on an explicit integer clock (`Kv`).
- MongoDB is an insertion-ordered sequence of documents per collection (`DocStore`), and each service holds the stores it uses as objects.
- SHA-256, HMAC-SHA256, PBKDF2, the JSON codec of the cache, the language model, the random generators and the clock are parameters.
- The JSON text of the signer, UTF-8 and Base64 are written out, because the signature depends on their exact bytes.

Around the core sit three tools:

- the operator's key manager and the seeding script (`KeyAdmin`, `Seeding`);
- the password rules and user store (`Passwords`, `Users`);
- the one-off script that migrates the code base from `logging` to the project's `get_logger` (`LogMigration`).

Where the code and its documentation disagree, the model follows the code. For example, image consultation fails only when the joined descriptions are empty, so two empty descriptions (`"\n"`) let it go on (`Chat.EmptyTextsRule`).

Modules, in dependency order:

- `Common`, `Numerals`, `PyValues`: options, outcomes of calls that may raise, decimal text, Python values;
- `Kv`: the Redis wrapper, locks, the conversation cache, API call counters and online users;
- `RateLimit`, `LoginLimit`: the request limiter and the login lockout;
- `Billing`, `Credentials`: accounts, rates and the debit; key records, secrets and their cache form;
- `KeyAuth`, `ApiKeys`: the credential check and the key service;
- `KeyAdmin`, `Seeding`: the operator tools;
- `Passwords`, `Users`: password rules and the user store;
- `DocStore`, `Conversations`: the document store and the conversation log;
- `JsonText`, `Encodings`, `Signature`, `Vision`: the signed multimodal call;
- `Chat`, `ChatApi`: the consultation service and its endpoints;
- `LogMigration`: the migration script.

## Model

| member | source | states |
|---|---|---|
| Kv.Window | app/services/storage/redis_service.py:183-199 | the `[lo, hi)` slice Redis selects for `LRANGE`/`LTRIM start stop`, always inside the list |
| Kv.HeadWindow | app/services/storage/redis_service.py:376-388 | `0 .. k-1` selects the first `k` items, and `k == 0` (stop -1) selects the whole list |
| Kv.DecodedDumps | app/services/storage/redis_service.py:371-394 | with a sound JSON codec, decoding the serialised messages gives the messages back |
| Kv.StatsKeysDistinct | app/services/storage/redis_service.py:409-416 | the global and the per-user daily counters never share a key |
| Kv.ActivityKeyIsNotOnlineSet | app/services/storage/redis_service.py:445-454 | no `user_activity:` key is the `online_users` set |
| Kv.RedisService.Get | app/services/storage/redis_service.py:78-85 | the live string value, or None when absent, expired, empty, of another type or unreachable |
| Kv.RedisService.Set | app/services/storage/redis_service.py:87-95 | written iff reachable, `ex` positive or absent and, with `nx`, no live key; True iff written; the new entry carries `now + ex` |
| Kv.RedisService.Delete | app/services/storage/redis_service.py:97-103 | returns 1 iff a live key was removed; unreachable: nothing changes and 0 |
| Kv.RedisService.Exists | app/services/storage/redis_service.py:105-111 | True iff reachable and the key is live |
| Kv.RedisService.Expire | app/services/storage/redis_service.py:113-119 | True iff the key is live; a non-positive timeout deletes it, otherwise only its expiry changes |
| Kv.RedisService.Ttl | app/services/storage/redis_service.py:121-129 | -2 for an absent key, -1 for no expiry or an unreachable backend, otherwise the seconds left |
| Kv.RedisService.Incr | app/services/storage/redis_service.py:131-137 | adds `amount` to the integer (0 when absent), keeping the expiry; an amount outside 64 bits, a non-integer value, a 64-bit overflow and errors give 0 and no change |
| Kv.RedisService.Decr | app/services/storage/redis_service.py:139-147 | subtracts `amount` under the same rules, and also refuses the least 64-bit amount, whose negation would overflow |
| Kv.RedisService.LPush | app/services/storage/redis_service.py:149-155 | the values go to the head in turn (the last ends first); returns the new length, 0 on error |
| Kv.RedisService.RPush | app/services/storage/redis_service.py:157-163 | the values are appended in order; returns the new length, 0 on error |
| Kv.RedisService.LPop | app/services/storage/redis_service.py:165-172 | removes the head; an empty-string head is removed but reported as None |
| Kv.RedisService.RPop | app/services/storage/redis_service.py:174-181 | removes the tail; an empty-string tail is reported as None |
| Kv.RedisService.LRange | app/services/storage/redis_service.py:183-190 | the selected window of the list; [] when absent, of another type or unreachable |
| Kv.RedisService.LTrim | app/services/storage/redis_service.py:192-199 | keeps exactly the selected window; True iff reachable and the key holds a list |
| Kv.RedisService.LLen | app/services/storage/redis_service.py:201-209 | the length of the whole list `lrange(k, 0, -1)` reads, so 0 when the key is absent, not a list or unreachable |
| Kv.RedisService.SAdd | app/services/storage/redis_service.py:211-217 | the set gains the members; returns how many were new |
| Kv.RedisService.SRem | app/services/storage/redis_service.py:219-225 | the set loses the members; returns how many were there |
| Kv.RedisService.SIsMember | app/services/storage/redis_service.py:227-233 | True iff reachable and the member is in the live set |
| Kv.RedisService.SMembers | app/services/storage/redis_service.py:235-242 | the live set, or the empty set |
| Kv.RedisService.SCard | app/services/storage/redis_service.py:244-252 | the number of members `smembers` reports |
| Kv.RedisService.HSet | app/services/storage/redis_service.py:254-260 | sets the field; 1 iff it was new |
| Kv.RedisService.HGet | app/services/storage/redis_service.py:262-269 | the field's non-empty value, None otherwise |
| Kv.RedisService.HMSet | app/services/storage/redis_service.py:271-278 | merges the mapping; an empty mapping is refused and returns False |
| Kv.RedisService.HGetAll | app/services/storage/redis_service.py:280-287 | agrees with `hget` on every field with a non-empty value, and is empty when the key is absent, not a hash or unreachable |
| Kv.RedisService.HDel | app/services/storage/redis_service.py:289-297 | removes the fields; returns how many were present |
| Kv.RedisService.GetJson | app/services/storage/redis_service.py:299-306 | None when `get` finds nothing, otherwise the codec's decoding of the text |
| Kv.RedisService.SetJson | app/services/storage/redis_service.py:308-317 | writes iff the value is serialisable and `set` would; what was written reads back through `get_json` as the same value |
| Kv.RedisService.CacheUserInfo | app/services/storage/redis_service.py:352-356 | the profile reads back through `get_cached_user_info`; no other key changes |
| Kv.RedisService.GetCachedUserInfo | app/services/storage/redis_service.py:358-361 | None when the backend is unreachable |
| Kv.RedisService.AcquireLock | app/services/storage/redis_service.py:319-331 | returns the identifier iff the lock key was free, and then holds it with the timeout; never overwrites a holder |
| Kv.RedisService.ReleaseLock | app/services/storage/redis_service.py:333-350 | deletes the lock iff it holds the caller's identifier; True iff deleted |
| Kv.RedisService.CacheConversationHistory | app/services/storage/redis_service.py:363-381 | the messages are pushed newest-first in front of the old list, the first `max_messages` kept and the TTL set; a message `json.dumps` refuses stops the pushes there and returns False; only the history key changes |
| Kv.RedisService.PushMessages | app/services/storage/redis_service.py:369-372 | the loop pushes the serialisable prefix of the messages in turn and stops at the first refused one |
| Kv.RedisService.GetCachedConversationHistory | app/services/storage/redis_service.py:383-400 | the decodable entries among the first `limit` (all entries when `limit` is 0) |
| Kv.RedisService.BumpDailyCounter | app/services/storage/redis_service.py:409-411 | the counter goes up by one and gets the seven-day TTL; no other key changes |
| Kv.RedisService.RecordApiCall | app/services/storage/redis_service.py:402-422 | always True; the day's global counter goes up by one with a seven-day TTL and `get_api_stats` then reports it; the user's counter too only when a user id is given |
| Kv.RedisService.GetApiStats | app/services/storage/redis_service.py:424-443 | reports today when no date is given, and 0 calls when the counter is absent |
| Kv.RedisService.AddOnlineUser | app/services/storage/redis_service.py:445-454 | always True; the new store is the old one with the user added to the online set (created when absent) and, for a positive timeout, the activity key set to `active`; nothing else changes |
| Kv.RedisService.RemoveOnlineUser | app/services/storage/redis_service.py:456-464 | always True; the new store is the old one with the user taken out of the online set and the activity key deleted; nothing else changes |
| Kv.RedisService.GetOnlineUsersCount | app/services/storage/redis_service.py:466-468 | the size of the online set |
| Kv.RedisService.CleanupOfflineUsers | app/services/storage/redis_service.py:470-492 | removes from the online set exactly the members whose activity key has expired, and returns how many |
| Kv.Dumps | app/services/storage/redis_service.py:370-373 | one serialised text per message, in input order |
| Kv.RedisService.constructor | app/services/storage/redis_service.py:14-16 | a fresh client holds no keys |
| RateLimit.RateLimitService.constructor | app/services/rate_limit_service.py:7-8 | the service works on the given store |
| RateLimit.RateLimitService.CheckRateLimit | app/services/rate_limit_service.py:10-25 | the counter goes up by one and the window expiry is set only on the first increment; allowed iff the new count is at most `limit`; a store error counts as 0 and allows (fails open) |
| RateLimit.RateLimitService.GetRemainingLimit | app/services/rate_limit_service.py:27-36 | `limit` when no counter exists, otherwise `max(0, limit - count)` |
| RateLimit.RateLimitService.ResetLimit | app/services/rate_limit_service.py:38-45 | always True; the counter is gone and reads as 0 |
| RateLimit.BurstWithinWindow | app/services/rate_limit_service.py:10-36 | within one window starting from no counter, the i-th request is allowed iff i < limit, and the remaining limit is then `max(0, limit - n)` |
| LoginLimit.KeysDistinct | app/core/rate_limiter.py:16-28 | the attempts key and the lockout key of an identifier differ |
| LoginLimit.IntOrRaise | app/core/rate_limiter.py:24 | `int(text)` on the marker: succeeds exactly on an optionally signed string of ASCII digits, with no whitespace or `_`, and gives its value |
| LoginLimit.LoginRateLimiter.constructor | app/core/rate_limiter.py:7-12 | the window is 300 s, the lockout `LOGIN_LOCKOUT_MINUTES * 60` s and the maximum `LOGIN_MAX_ATTEMPTS` |
| LoginLimit.LoginRateLimiter.CheckRateLimit | app/core/rate_limiter.py:14-33 | False exactly when attempts reach the maximum and a lockout time later than now is stored; an absent attempts key always allows |
| LoginLimit.LoginRateLimiter.CountFailure | app/core/rate_limiter.py:41-42 | the attempts counter goes up by one and its TTL is reset to the window on every failure |
| LoginLimit.LoginRateLimiter.RecordFailedAttempt | app/core/rate_limiter.py:35-48 | as `CountFailure`, and whenever the new count reaches the maximum the lockout marker is set to `now + lockout` with that TTL |
| LoginLimit.LoginRateLimiter.LockedAfterFailure | app/core/rate_limiter.py:20-48 | right after such a failure, checks are refused until the earlier of the window and the lockout runs out |
| LoginLimit.LoginRateLimiter.ClearAttempts | app/core/rate_limiter.py:50-55 | both keys are deleted, after which every check allows |
| LoginLimit.LoginRateLimiter.GetLockoutInfo | app/core/rate_limiter.py:57-77 | remaining is `max(0, until - now)`, locked iff remaining > 0, attempts default to 0; a reported lock with attempts at the maximum means checks are refused |
| LoginLimit.LockoutAfterRepeatedFailures | app/core/rate_limiter.py:14-48 | starting from no attempts, `max` failures each pass the check before them, and afterwards checks are refused for the rest of the shorter of window and lockout |
| Billing.AccountTypeNamed | app/models/account.py:5-9 | a parsed account type has exactly the given name |
| Billing.AccountTypeNamesRoundTrip | app/models/account.py:5-9 | every account type's name parses back to it |
| Billing.DefaultRatesTable | app/models/account.py:66-84 | the table holds exactly gpt-3.5-turbo (50/150), gpt-4 (3000/6000) and claude-3-sonnet (300/1500) cents per 1000 tokens |
| Billing.RateFor | app/services/api_key_service.py:86-88 | the model's rate, or the gpt-3.5-turbo rate for an unknown model |
| Billing.Cost | app/services/api_key_service.py:94-99 | `int(prompt/1000 * promptRate + completion/1000 * completionRate)` as the exact quotient by 1000 truncated |
| Billing.CostMonotone | app/services/api_key_service.py:94-99 | more tokens never cost less, and the cost is never negative |
| Billing.Charge | app/services/api_key_service.py:150-190 | funds fall by exactly the cost: from credit when it covers the cost, otherwise credit goes to 0 and the balance pays the rest; the three spending totals rise by the cost and nothing else changes |
| Billing.ChargeKeepsCreditNonNegative | app/services/api_key_service.py:150-190 | credit never goes below 0 and never rises; the balance only pays once credit is exhausted |
| Billing.ChargeAdditive | app/services/api_key_service.py:150-190 | two charges leave the same account as one charge of their sum |
| Credentials.KeyStatusNamed | app/models/api_key.py:5-9 | a parsed key status has exactly the given name |
| Credentials.KeyStatusNamesRoundTrip | app/models/api_key.py:5-9 | every key status's name parses back to it |
| Credentials.KeyTypeNamed | app/models/api_key.py:11-14 | a parsed key type has exactly the given name |
| Credentials.KeyTypeNamesRoundTrip | app/models/api_key.py:11-14 | every key type's name parses back to it |
| Credentials.NewApiKeyDefaults | app/models/api_key.py:16-40 | a new key is a development key, active, 60 rpm and 10000 tpm, with zero counters and no quotas, expiry or last use |
| Credentials.Failing | app/models/api_key.py:42-49 | exactly the listed fields that break their bound |
| Credentials.CreateErrors | app/models/api_key.py:42-49 | the fields of an `APIKeyCreate` that break their bound: name 1..100, quotas > 0, rpm 1..1000, tpm 1..100000, expiry 1..365 days; none iff the request is valid |
| Credentials.Describe | app/models/api_key.py:51-66 | the response view exists iff the key has an id, carries no secret and copies the key's fields |
| Credentials.GenerateApiKey | app/core/api_key_auth.py:33-39 | the secret is `sk-higo-` followed by the random part, and the hash is the hash of that secret |
| Credentials.GeneratedSecretsDistinct | app/core/api_key_auth.py:33-39 | different random parts give different secrets |
| Credentials.DisplayId | app/services/api_key_service.py:23 | the first 20 characters of the secret followed by `...` |
| Credentials.DisplayIdOfGenerated | app/services/api_key_service.py:22-23 | the display id of a generated secret starts `sk-higo-` and, for a long enough random part, is 23 characters |
| Credentials.KeyDumpAsWrittenRefused | app/services/api_key_service.py:48-52 | `model_dump()` of a key holds `datetime` values, which `json.dumps` refuses |
| Credentials.KeyToJson | app/services/api_key_service.py:52 | the JSON form used for the cache is serialisable and non-empty |
| Credentials.OptIntRoundTrip | app/services/api_key_service.py:59-61 | an optional integer field reads back as written |
| Credentials.KeyDumpIdentity | app/services/api_key_service.py:48-52 | the dump carries the id, key id and hash |
| Credentials.KeyDumpOwner | app/services/api_key_service.py:48-52 | the dump carries the owner, name and type |
| Credentials.KeyDumpLimits | app/services/api_key_service.py:48-52 | the dump carries the status and the quotas |
| Credentials.KeyDumpRates | app/services/api_key_service.py:48-52 | the dump carries the rate limits and the total tokens |
| Credentials.KeyDumpTimes | app/services/api_key_service.py:48-52 | the dump carries the monthly and daily tokens and the timestamps |
| Credentials.DecodeFields | app/services/api_key_service.py:59-61 | `APIKey(**cached)` rebuilds the key from fields holding its values |
| Credentials.KeyJsonRoundTrip | app/services/api_key_service.py:52-61 | decoding the cached JSON rebuilds the very key that was cached |
| ApiKeys.DebitUpdateIsCharge | app/services/api_key_service.py:150-190 | the two `update_one` documents `charge_account` sends (credit covers the cost, or credit set to 0 and the balance pays the rest) apply exactly the `Charge` of the account that was read |
| ApiKeys.UsageFor | app/services/api_key_service.py:83-112 | the usage record: model defaults to gpt-3.5-turbo, tokens to 0, total is their sum, the cost comes from the model's rate (the gpt-3.5-turbo rate for an unknown model) and is at most the exact price; endpoint and method default to `/chat/completions` and `POST` |
| ApiKeys.ExpiryRaising | tools/api_keys/generate_api_key.py:94-96 | `now + timedelta(days=n)` when `n` is non-zero: the expiry `now + n` days, always inside `datetime`'s years 1 to 9999; `OverflowError` when `timedelta` or `datetime` cannot hold the result; no expiry for a missing or zero count |
| ApiKeys.ExpiryRaisesIffOutOfRange | tools/api_keys/generate_api_key.py:96 | for a clock inside `datetime`'s range, the computation raises exactly when the expiry falls outside it |
| ApiKeys.ApiKeyService.constructor | app/services/api_key_service.py:12-17 | the service works on the given cache and the `api_keys`, `accounts` and `usage_records` collections |
| ApiKeys.ApiKeyService.CacheHit | app/services/api_key_service.py:59-60 | a cache hit is a truthy decoded value under `api_key:<hash>` |
| ApiKeys.ApiKeyService.KeyByHash | app/services/api_key_service.py:56-73 | a cache hit is answered from the cache (a value the model rejects raises); on a miss the store's first key with that hash, or None iff there is none |
| ApiKeys.ApiKeyService.CachedKeyAnswers | app/services/api_key_service.py:56-61 | a key cached in its JSON form is returned as that very key without consulting the store |
| ApiKeys.ApiKeyService.CreateApiKey | app/services/api_key_service.py:19-54 | an active record with the request's fields, zero counters, key id the first 20 characters of the secret plus `...`, an expiry only when `expires_days` is given; one document inserted; cached for 3600 s under `api_key:<hash>`, after which a lookup by hash returns it |
| ApiKeys.ApiKeyService.CacheAsWritten | app/services/api_key_service.py:52 | the cache write as written never succeeds and leaves the cache unchanged |
| ApiKeys.ApiKeyService.GetByHash | app/services/api_key_service.py:56-73 | returns `KeyByHash`; a hit or a miss with no document leaves the cache alone, a miss with a document re-caches it for 3600 s |
| ApiKeys.ApiKeyService.UpdateStatus | app/services/api_key_service.py:75-81 | writes only status and `updated_at` of the first key with that id, and a cached copy keeps answering as before |
| ApiKeys.ApiKeyService.UpdateTokenUsage | app/services/api_key_service.py:130-148 | adds the tokens to the three counters of the first key with that id and sets `last_used_at` |
| ApiKeys.ApiKeyService.GetAccountByUserId | app/services/api_key_service.py:192-197 | the user's first account, None when there is none |
| ApiKeys.ApiKeyService.ChargeAccount | app/services/api_key_service.py:150-190 | the user's first account is replaced by its `Charge`; with no account nothing changes |
| ApiKeys.ApiKeyService.RecordUsage | app/services/api_key_service.py:83-128 | in order: one usage record inserted, the key's counters raised by the total, the owner charged the cost; the record is returned |
| ApiKeys.ApiKeyService.CreateAccount | app/services/api_key_service.py:199-213 | an account of the named type with balance 0 and credit 500, inserted once; an unknown type raises and inserts nothing |
| ApiKeys.ApiKeyService.GetUserApiKeys | app/services/api_key_service.py:215-223 | exactly the user's keys, newest first; [] on error |
| ApiKeys.ApiKeyService.RevokeApiKey | app/services/api_key_service.py:225-242 | the first key matching id and owner becomes revoked; True iff it changed; only then is its cache entry deleted |
| ApiKeys.OnlyDocWithId | app/services/api_key_service.py:238 | with unique ids, the lookup by id finds the one document with that id |
| ApiKeys.OwnedKeysLoaded | app/services/api_key_service.py:215-223 | the loaded keys belong to the user, are newest first and come from the store |
| ApiKeys.OwnedKeysComplete | app/services/api_key_service.py:215-223 | every key of the user is among the loaded ones |
| ApiKeys.LoadAll | app/services/api_key_service.py:223 | `APIKey(**doc)` for each document, in order |
| KeyAuth.Verdict | app/core/api_key_auth.py:46-90 | the ordered rejection chain: missing, bad prefix, not found, inactive (`API key is <status>`), expired; accepted iff an active unexpired key is found; a failing lookup propagates |
| KeyAuth.ExpiryBoundary | app/core/api_key_auth.py:82 | a key is still accepted at its expiry instant and rejected right after |
| KeyAuth.InactiveAlwaysRejected | app/core/api_key_auth.py:75-80 | an inactive key is rejected at every time and never marked expired |
| KeyAuth.RevokedVerdict | app/core/api_key_auth.py:75-80 | a revoked key is rejected with `API key is revoked` |
| KeyAuth.StoredExpiry | app/services/storage/mongo_service.py:11-16 | a key's expiry read back through `motor` without `tz_aware` is the same instant without a time zone |
| KeyAuth.ExpiryTestAsWritten | app/core/api_key_auth.py:82 | `expires_at and datetime.now(timezone.utc) > expires_at`: no expiry passes; an aware expiry is compared; a naive one raises `TypeError` |
| KeyAuth.StoredExpiryRaises | app/core/api_key_auth.py:82 | every key with an expiry, read back from the store, makes the test raise whatever the clock says |
| KeyAuth.ExpiryTestCorrected | app/core/api_key_auth.py:82 | with the expiry in UTC the test is `PastExpiry` and never raises |
| KeyAuth.ApiKeyAuth.constructor | app/core/api_key_auth.py:13-23 | the validator works on the given key service |
| KeyAuth.ApiKeyAuth.Lookup | app/core/api_key_auth.py:64-66 | a well-formed key is looked up by its hash; nothing is looked up otherwise |
| KeyAuth.ApiKeyAuth.VerifyApiKey | app/core/api_key_auth.py:46-90 | returns the `Verdict` of the lookup; the store changes only when the key is found past its expiry, marking it expired; the cache changes only as the lookup re-caches |
| KeyAuth.ApiKeyAuth.RevokeThenVerify | app/services/api_key_service.py:225-242 | once an owner revokes a key, the next verification of its secret is rejected as revoked, because revocation drops the cached copy |
| KeyAuth.ApiKeyAuth.RevokeAt | app/services/api_key_service.py:225-242 | revocation succeeds, marks the key revoked and leaves no cache hit for its hash |
| KeyAuth.ApiKeyAuth.FoundUncached | app/services/api_key_service.py:63-73 | with no cache hit, the lookup returns the stored key |
| KeyAdmin.StatusWritesOverride | tools/api_keys/api_key_manager.py:56-90 | a later status write replaces an earlier one, and a status write touches only status and `updated_at` |
| KeyAdmin.ResetMeaning | tools/api_keys/api_key_manager.py:103-121 | a reset zeroes the three token counters, touches nothing else but `updated_at`, and a second reset changes nothing |
| KeyAdmin.ResetForgetsUsage | tools/api_keys/api_key_manager.py:103-121 | usage recorded before a reset leaves only its `last_used_at` behind |
| KeyAdmin.RevokedIdsExact | tools/api_keys/api_key_manager.py:123-137 | the ids the sweep collects are exactly those of the revoked keys |
| KeyAdmin.FoundIdIsRevoked | tools/api_keys/api_key_manager.py:126-130 | every collected id belongs to a revoked key |
| KeyAdmin.RevokedIsFound | tools/api_keys/api_key_manager.py:126-130 | every revoked key's id is collected |
| KeyAdmin.SweepResult | tools/api_keys/api_key_manager.py:123-137 | deleting the collected ids leaves exactly the keys that are not revoked |
| KeyAdmin.SweepStep | tools/api_keys/api_key_manager.py:132-134 | one more deletion in the loop removes one more collected id |
| KeyAdmin.ApiKeyManager.constructor | tools/api_keys/api_key_manager.py:18-19 | the manager works on the `api_keys` collection |
| KeyAdmin.ApiKeyManager.ListAllApiKeys | tools/api_keys/api_key_manager.py:21-54 | every key, newest first; [] on error |
| KeyAdmin.ApiKeyManager.RevokeApiKey | tools/api_keys/api_key_manager.py:56-72 | the key with that id becomes revoked; True iff it changed |
| KeyAdmin.ApiKeyManager.ActivateApiKey | tools/api_keys/api_key_manager.py:74-90 | the key with that id becomes active; True iff it changed |
| KeyAdmin.ApiKeyManager.DeleteApiKey | tools/api_keys/api_key_manager.py:92-101 | the key with that id is removed; True iff there was one |
| KeyAdmin.ApiKeyManager.ResetUsageStats | tools/api_keys/api_key_manager.py:103-121 | the key's three counters are zeroed; True iff it changed |
| KeyAdmin.ApiKeyManager.FindRevoked | tools/api_keys/api_key_manager.py:126-130 | exactly the revoked keys |
| KeyAdmin.ApiKeyManager.CleanupRevokedKeys | tools/api_keys/api_key_manager.py:123-137 | deletes every revoked key and only those, and returns how many there were |
| KeyAdmin.ApiKeyManager.SweepDelete | tools/api_keys/api_key_manager.py:132-134 | one deletion of the loop keeps the collection equal to the original without the ids deleted so far |
| KeyAdmin.DeleteIsRemovedFirst | tools/api_keys/api_key_manager.py:92-101 | `delete_one` by id removes the first document with that id |
| KeyAdmin.OwnedKeysSorted | tools/api_keys/api_key_manager.py:24-27 | keys listed in descending creation order stay in that order once loaded |
| KeyAdmin.AllKeysListed | tools/api_keys/api_key_manager.py:24-27 | the listing loads every key of the collection |
| KeyAdmin.FilterAll | tools/api_keys/api_key_manager.py:24-27 | the empty filter matches every key |
| Seeding.TrimStart | tools/api_keys/generate_api_key.py:161 | drops exactly the leading whitespace |
| Seeding.TrimEnd | tools/api_keys/generate_api_key.py:161 | drops exactly the trailing whitespace |
| Seeding.Strip | tools/api_keys/generate_api_key.py:161 | `str.strip()`: a slice of the input with only whitespace around it and none at its ends |
| Seeding.StripPadding | tools/api_keys/generate_api_key.py:161 | stripping padded text gives the text back |
| Seeding.TrimStartPadding | tools/api_keys/generate_api_key.py:161 | leading padding is removed and nothing more |
| Seeding.TrimEndPadding | tools/api_keys/generate_api_key.py:161 | trailing padding is removed and nothing more |
| Seeding.StripIdempotent | tools/api_keys/generate_api_key.py:161 | stripping twice is stripping once |
| Seeding.Answer | tools/api_keys/generate_api_key.py:161-168 | `input().strip() or default`: the stripped answer, or the default when it is blank |
| Seeding.TypeChoice | tools/api_keys/generate_api_key.py:176-182 | `2` gives production, `3` enterprise, anything else (and a blank) development |
| Seeding.ExpiryInput | tools/api_keys/generate_api_key.py:185-186 | the expiry is used only when the stripped input is all digits, as its decimal value |
| Seeding.ExpiryOfTyped | tools/api_keys/generate_api_key.py:185-186 | a number typed with spaces around it is read as that number |
| Seeding.SignedExpiryIgnored | tools/api_keys/generate_api_key.py:185-186 | a signed number or a blank gives no expiry |
| Seeding.LongExpiryRaises | tools/api_keys/generate_api_key.py:185-196 | for a clock after 1970, an all-digit answer of 3000000 days or more makes the key generation raise `OverflowError` |
| Seeding.TestUserDoc | tools/api_keys/generate_api_key.py:37-46 | the test user is active, with email `<username>@example.com` |
| Seeding.ApiKeyGenerator.constructor | tools/api_keys/generate_api_key.py:23-26 | the generator works on the users, accounts and keys collections |
| Seeding.ApiKeyGenerator.CreateTestUser | tools/api_keys/generate_api_key.py:35-57 | get-or-create: an existing user's id with nothing inserted, otherwise a new user under a fresh id that can then be found by name |
| Seeding.ApiKeyGenerator.CreateTestAccount | tools/api_keys/generate_api_key.py:59-79 | get-or-create: the user's existing account, otherwise a new developer account with the test balance and credit inserted once |
| Seeding.ApiKeyGenerator.SeedOwner | tools/api_keys/generate_api_key.py:160-165 | the user named by the answer (default `test_user`) found or inserted, then that user's account found or inserted |
| Seeding.ApiKeyGenerator.GenerateTestApiKey | tools/api_keys/generate_api_key.py:81-124 | an expiry outside `datetime`'s range raises `OverflowError` with nothing stored; otherwise an active key with the test quotas and rate limits, the given name, type and expiry, inserted once, whose secret then passes verification |
| Seeding.ApiKeyGenerator.Session | tools/api_keys/generate_api_key.py:153-194 | the seeding run: the user found or inserted under the fresh id, that user's account found or inserted, and the key made for that user with the answered name, type and expiry, its secret accepted; a too-large day count raises after the user and account are in place, with no key stored |
| Passwords.RuleAt | app/utils/password_validator.py:13-26 | the k-th rule in the order they are checked |
| Passwords.BrokenBefore | app/utils/password_validator.py:13-26 | the rules broken among the first `k` checks, at most `k` of them |
| Passwords.BrokenBeforeMembers | app/utils/password_validator.py:13-26 | a rule is listed iff it is among the first `k` and the password breaks it |
| Passwords.BrokenBeforeOrdered | app/utils/password_validator.py:13-26 | the broken rules are listed in check order, each once |
| Passwords.ViolationsMeaning | app/utils/password_validator.py:11-28 | the violations are exactly the broken enabled rules, at most five, in check order |
| Passwords.Messages | app/utils/password_validator.py:14-26 | one message per broken rule, in the same order |
| Passwords.Validate | app/utils/password_validator.py:6-28 | the error list is the messages of the violations in check order; valid iff the list is empty iff no rule is broken |
| Passwords.ChecksInOrder | app/utils/password_validator.py:13-26 | the errors are: too short, then no upper-case letter, no lower-case letter, no digit, no special character, each only when its rule is on |
| Passwords.MessagesStep | app/utils/password_validator.py:13-26 | each check appends its message exactly when its rule is broken |
| Passwords.MessagesSnoc | app/utils/password_validator.py:14-26 | appending a rule appends its message |
| Passwords.DisabledRuleSilent | app/utils/password_validator.py:16-26 | a rule switched off in the settings never reports |
| Passwords.MessagesDistinct | app/utils/password_validator.py:14-26 | different rules report different messages |
| Passwords.DefaultAccepts | app/utils/password_validator.py:13-26 | under the default settings `Abcdef1!` passes |
| Passwords.DefaultRejects | app/utils/password_validator.py:13-26 | under the default settings `abc` is too short and misses an upper-case letter, a digit and a special character, reported in that order |
| Passwords.GetRequirements | app/utils/password_validator.py:31-40 | the requirements echo the settings exactly and list the 20 special characters the check accepts |
| Users.HexOf | app/services/external/user_service.py:16-24 | `bytes.hex()`: two lower-case hex digits per byte |
| Users.HexRoundTrip | app/services/external/user_service.py:16-24 | the hex text decodes back to the bytes |
| Users.HashPassword | app/services/external/user_service.py:13-24 | the given salt is kept, otherwise a fresh 32-digit hex salt is drawn; the hash is PBKDF2 of the password and salt with 100000 rounds |
| Users.VerifyPassword | app/services/external/user_service.py:26-29 | True iff re-hashing with the stored salt gives the stored hash |
| Users.HashThenVerify | app/services/external/user_service.py:13-29 | a password always verifies against its own hash and salt |
| Users.HashDeterministic | app/services/external/user_service.py:13-24 | with a salt given, the hash does not depend on the random draw |
| Users.UserService.constructor | app/services/external/user_service.py:9-11 | the service works on the `users` collection |
| Users.UserService.AuthenticateUser | app/services/external/user_service.py:39-60 | the user whose name matches, iff the password verifies against their stored hash and salt; None otherwise |
| Users.UserService.CreateUser | app/services/external/user_service.py:62-100 | the password is validated first (all errors joined by `; ` are raised), the username second (duplicate raises); otherwise one user is inserted with a fresh salt and is then authenticated by that password |
| DocStore.FirstIndex | app/services/storage/mongo_service.py:52-60 | the position of the first matching document, none before it matching; none when nothing matches |
| DocStore.Filter | app/services/storage/mongo_service.py:72-76 | only matching documents of the collection |
| DocStore.FilterCounts | app/services/storage/mongo_service.py:72-76 | the filter keeps every matching document as often as it occurs, and nothing else |
| DocStore.IdsOf | app/services/storage/mongo_service.py:62-70 | exactly the ids present in the collection |
| DocStore.UpdatedFirst | app/services/storage/mongo_service.py:89-98 | the first matching document gets the update, every other document and every id stays |
| DocStore.SortDesc | app/services/storage/mongo_service.py:78-79 | a descending sort by the key, a permutation of its input |
| DocStore.TakeIsTop | app/services/storage/mongo_service.py:80-81 | after a descending sort, the first `n` outrank everything left out |
| DocStore.QueryMeaning | app/services/storage/mongo_service.py:72-87 | `find(...).sort(...).limit(n)`: only matches; with no (or a zero) limit all of them; otherwise `min(n, matches)` of them; sorted, and the sort happens before the limit so no match left out outranks one returned |
| DocStore.CursorToList | app/services/storage/mongo_service.py:80-87 | `to_list(length)` after the query: only matches, all of them with no length, `min(length, matches)` with one (so none for 0), in the sorted order |
| DocStore.Collection.constructor | app/services/storage/mongo_service.py:11-16 | an empty collection, reachable or not |
| DocStore.Collection.FindOne | app/services/storage/mongo_service.py:52-60 | the first matching document, None when nothing matches or on error |
| DocStore.Collection.InsertOne | app/services/storage/mongo_service.py:62-70 | appends exactly one document under its explicit or generated id unless that id is taken or the store is down; returns the id or None; the document can then be found by id |
| DocStore.Collection.FindMany | app/services/storage/mongo_service.py:72-87 | `find(...).sort(...).limit(n)` then `to_list(length=n)`: only matches; all of them with no limit; `min(n, matches)` of them with one (none for 0); sorted; [] on error |
| DocStore.Collection.UpdateOne | app/services/storage/mongo_service.py:89-101 | the first match is updated; True iff a document actually changed |
| DocStore.Collection.DeleteOne | app/services/storage/mongo_service.py:103-111 | removes exactly the first match; True iff one was removed |
| DocStore.ApplyUpdate | app/services/storage/mongo_service.py:93-97 | an update applies iff it is made of known operators and each `$inc` hits a number or an absent field |
| DocStore.Incremented | app/services/storage/mongo_service.py:93-97 | the `$inc` fields after the increments |
| DocStore.ApplyUpdateMeaning | app/services/storage/mongo_service.py:93-97 | `$set` fields take the new value, `$inc` fields are incremented, other fields keep their presence and value |
| DocStore.PlainUpdateOverwrites | app/services/storage/mongo_service.py:93-97 | an update with no `$` key is wrapped in `$set`, so it overwrites its fields and keeps the rest |
| DocStore.OperatorUpdatePassesThrough | app/services/storage/mongo_service.py:93-95 | an update with a `$` key is passed on unchanged |
| Conversations.Project | app/services/storage/mongo_service.py:30-33 | one `{role, content}` turn per message, in order |
| Conversations.RecentWindowMeaning | app/services/storage/mongo_service.py:18-34 | exactly `min(limit, n)` messages of the conversation (none for a zero limit), in chronological order, and no message of the conversation left out is newer than one returned |
| Conversations.NewestFirst | app/services/storage/mongo_service.py:23-25 | the cursor returns at most `limit` of the conversation's messages, newest first, the newest of all |
| Conversations.ReversedWindow | app/services/storage/mongo_service.py:27-28 | reversing the newest-first list gives chronological order with the same messages |
| Conversations.ReversedPermutes | app/services/storage/mongo_service.py:28 | reversing keeps the same messages |
| Conversations.ReverseInPlace | app/services/storage/mongo_service.py:28 | `list.reverse()` in place: the array holds the reversal of its old contents |
| Conversations.MongoService.constructor | app/services/storage/mongo_service.py:11-16 | the service works on the given `conversations` collection |
| Conversations.MongoService.GetConversationHistory | app/services/storage/mongo_service.py:18-34 | the projected recent window, at most `limit` long and empty for a zero limit; an unreachable store raises |
| Conversations.MongoService.SaveMessage | app/services/storage/mongo_service.py:36-50 | inserts exactly one document with the given conversation, role, content, the current time and empty metadata; returns the id, or None on error with nothing inserted |
| Conversations.StrictMaximumFirst | app/services/storage/mongo_service.py:23-25 | a strictly newest message comes first in the sorted cursor |
| Conversations.SavedMessageComesLast | app/services/storage/mongo_service.py:18-50 | for a positive limit, a message saved later than every other of its conversation is the last turn of the next history |
| Conversations.PairComesLast | app/services/storage/mongo_service.py:18-50 | two messages saved one after the other, both later than the rest of their conversation, are the last two turns of the next history of two or more, in the order saved |
| Conversations.TopTwo | app/services/storage/mongo_service.py:23-25 | in a newest-first list, the newest item comes first and the next newest second |
| JsonText.BelowTotal | app/utils/signature.py:19 | the key order `sort_keys` uses is total on distinct strings |
| JsonText.Least | app/utils/signature.py:19 | the smallest key of a non-empty set |
| JsonText.SortedNames | app/utils/signature.py:19 | every key once, in increasing order |
| JsonText.Hex4 | app/utils/signature.py:19 | the four hex digits of a `\uXXXX` escape, which read back as the code unit |
| JsonText.Quote | app/utils/signature.py:19 | a JSON string literal in quotes, ASCII only (`ensure_ascii`) |
| JsonText.UnescapeRoundTrip | app/utils/signature.py:19 | the escaped text reads back as the original string |
| JsonText.QuoteRoundTrip | app/utils/signature.py:19 | a quoted string reads back as itself |
| JsonText.QuoteInjective | app/utils/signature.py:19 | different strings are quoted differently |
| JsonText.Encode | app/utils/signature.py:19 | compact JSON text of a serialisable value, non-empty and ASCII |
| JsonText.Members | app/utils/signature.py:19 | an object's members in increasing key order, each key once |
| JsonText.Dumps | app/utils/signature.py:19 | `json.dumps(..., separators=(',', ':'), sort_keys=True)`: text iff the value is serialisable, and then ASCII |
| Encodings.Utf8 | app/utils/signature.py:21-24 | the UTF-8 bytes of a string, at least one per character |
| Encodings.Utf8RoundTrip | app/utils/signature.py:21-24 | the UTF-8 bytes decode back to the string |
| Encodings.Utf8Injective | app/utils/signature.py:21-24 | different strings have different UTF-8 bytes |
| Encodings.Base64RoundTrip | app/utils/signature.py:29 | the Base64 text (section 4 of RFC 4648) decodes back to the digest |
| Encodings.Base64Length | app/utils/signature.py:29 | Base64 text is four characters per started group of three bytes |
| Encodings.Base64Alphabet | app/utils/signature.py:29 | only alphabet characters, with `=` padding only in the last two places |
| Numerals.Natural | app/core/rate_limiter.py:47 | `str(n)` of a natural number, never empty |
| Numerals.Decimal | app/core/rate_limiter.py:47 | `str(n)` of an integer, never empty |
| Numerals.NaturalOfCanonical | app/core/rate_limiter.py:24 | a digit string without leading zeros is the text of its value |
| Numerals.ParseIntOfDecimal | app/core/rate_limiter.py:24-47 | `int(str(n)) == n` |
| Numerals.RedisIntExactlyDecimal | app/services/storage/redis_service.py:131-137 | Redis accepts as an integer exactly the canonical decimal text of a 64-bit value |
| Numerals.DecimalIsRedisInt | app/services/storage/redis_service.py:131-137 | the text `incr` writes is read back as the same integer |
| Numerals.RedisIntIsDecimal | app/services/storage/redis_service.py:131-137 | an accepted integer text is the canonical text of its value |
| Numerals.TruncDiv | app/services/api_key_service.py:99 | `int(a / b)`: truncation toward zero |
| Signature.NonceChar | app/utils/signature.py:14 | the k-th character of `ascii_letters + digits` is a letter or digit |
| Signature.Nonce | app/utils/signature.py:14 | eight letters or digits, one per draw |
| Signature.NonceAlphabetComplete | app/utils/signature.py:14 | every letter and digit can be drawn, from exactly one index |
| Signature.Timestamp | app/utils/signature.py:15 | the decimal timestamp reads back as the clock value |
| Signature.SignedText | app/utils/signature.py:21 | path, body, nonce and timestamp concatenated with nothing between them |
| Signature.Sign | app/utils/signature.py:23-29 | the Base64 text decodes to the HMAC of the UTF-8 text under the UTF-8 secret |
| Signature.GenerateSignature | app/utils/signature.py:10-39 | raises iff the body is not serialisable; otherwise returns the compact sorted body text and exactly the five headers: `Bearer` key, the nonce, a timestamp reading back as the clock, the signature and `application/json` |
| Signature.SignedRequestVerifies | app/utils/signature.py:10-39 | every signed request passes the receiver's check: its signature header decodes to the HMAC of the path, the body as sent and the nonce and timestamp headers |
| Signature.SignedBytesAreAscii | app/utils/signature.py:19-21 | with an ASCII path the signed bytes are the signed characters, one byte each |
| Vision.ValuesDistinct | app/models/chat.py:7-13 | the six image types have six different path values |
| Vision.BreedEntry | app/services/external/multimodal_service.py:28-31 | one `item["name"]: item["id"]` entry, taken from the item's own fields |
| Vision.BreedMapStep | app/services/external/multimodal_service.py:28-31 | each item of the comprehension sets its name to its id and leaves every other name as it was |
| Vision.BreedMapNames | app/services/external/multimodal_service.py:28-31 | a name is in the map iff some item carries it |
| Vision.LastNameWins | app/services/external/multimodal_service.py:28-31 | for a repeated name the id of the last item that carries it wins |
| Vision.BreedMapSerializable | app/services/external/multimodal_service.py:22-37 | ids read from a JSON file stay serialisable |
| Vision.GetBreedId | app/services/external/multimodal_service.py:39-47 | the mapped id, or 1 for a breed not in the map |
| Vision.BreedIdOfFile | app/services/external/multimodal_service.py:22-47 | with no usable file every breed gets 1; otherwise a listed breed gets the id of its last item and an unlisted one gets 1 |
| Vision.ApiPath | app/services/external/multimodal_service.py:53 | `/open/v1/` followed by the image type's value |
| Vision.IndexOf | app/services/external/multimodal_service.py:57-58 | the first position of the character, none when it does not occur |
| Vision.CleanImage | app/services/external/multimodal_service.py:56-58 | without a comma the image is kept; with one, the text between the first and the second comma |
| Vision.CleanDataUrl | app/services/external/multimodal_service.py:56-58 | a data URL `header,payload` is reduced to its payload |
| Vision.BirthOrdinal | app/services/external/multimodal_service.py:69-70 | `date.today() - timedelta(days=age*365)`, raising when either value leaves the range `date` accepts |
| Vision.CallStep | app/services/external/multimodal_service.py:89-99 | the call succeeds iff a response arrived with a JSON object whose code is 0, and returns that object |
| Vision.InterpretCall | app/services/external/multimodal_service.py:89-103 | as `CallStep`; every failure, including the API's own error, is re-raised as a 502 `Could not connect to Multimodal Service` error, the API's error carrying its message or `Unknown error` |
| Vision.PrefixedFailure | app/services/external/multimodal_service.py:101-103 | the re-raised text is the connection prefix followed by the cause |
| Vision.RequestBody | app/services/external/multimodal_service.py:56-77 | the body holds the cleaned image; for feces, skin, urine, vomitus and ear-canal images also breed id, birth date, gender 1 and fertility 1, and it raises only when the birth date cannot be computed |
| Vision.MultiModalService.constructor | app/services/external/multimodal_service.py:13-20 | the service keeps its settings and loads the breed map once |
| Vision.MultiModalService.AnalysisSigned | app/services/external/multimodal_service.py:49-103 | an unbuildable body raises its error; otherwise the body is signed, the signature verifies, and the result is the interpreted response to posting that very signed body to `base_url + path` |
| Vision.MultiModalService.AnalyzeImage | app/services/external/multimodal_service.py:49-103 | the analysis described by `AnalysisSigned` |
| Chat.ErrorJson | app/services/chat_service.py:86-91 | the error object as `json.dumps` writes it: printable ASCII, starting with `{"success": false, "error": ` and closed by `}` |
| Chat.Frame | app/services/chat_service.py:70 | a `data: ...` block whose payload the reader gets back exactly when it has no line break |
| Chat.Wire | app/services/chat_service.py:70-91 | the error payload always reaches the reader whole; a chunk's JSON does whenever it has no line break |
| Chat.Relay | app/services/chat_service.py:60-80 | one chunk per delta, none final, carrying the delta or `""`; then exactly one closing event, final and empty when the stream ended and the error event when it raised; the saved reply is the concatenation of what was streamed |
| Chat.StreamedChunks | app/services/chat_service.py:60-70 | the chunk events carry the reply, piece by piece |
| Chat.ReplyEmpty | app/services/chat_service.py:61-94 | the reply is empty iff every delta was empty or missing |
| Chat.ExchangeSaved | app/services/chat_service.py:92-96 | with the store up and unused ids, a non-empty reply saves the user turn at its own instant and then the assistant turn at the later one, and an empty reply saves nothing |
| Chat.ExchangeReadInOrder | app/services/chat_service.py:92-96 | after a saved exchange, the next history of two or more turns ends with the user turn and then the reply |
| Chat.ImageTurn | app/services/chat_service.py:180 | the saved user turn starts with `[Image Analysis: ` and ends with the question |
| Chat.RagIgnoresQuery | app/services/chat_service.py:306-310 | the same fixed passage for every query |
| Chat.Lines | app/services/chat_service.py:314 | one `role: content` line per history turn, in order |
| Chat.BuildPrompt | app/services/chat_service.py:312-339 | the prompt starts with the profile, history and knowledge part and ends with the question part; the image section lies between them exactly when the descriptions are non-empty |
| Chat.ImageSectionOnlyWhenDescribed | app/services/chat_service.py:327-331 | the prompt with descriptions equals the text-only prompt iff the descriptions are empty |
| Chat.LastFive | app/services/chat_service.py:230 | `history[-5:]`: the last min(n, 5) turns |
| Chat.ContextLines | app/services/chat_service.py:225-238 | min(n, 5) + 1 lines: the last five turns as `role: content`, then `user: question` |
| Chat.BuildContext | app/services/chat_service.py:225-238 | the context lines joined by newlines, so the text ends with `user: question` |
| Chat.QuestionRepeatedInContext | app/services/chat_service.py:189-201 | the question is saved before the history is read, so the context ends with `user: question` twice |
| Chat.TextsFirst | app/services/chat_service.py:128 | a result that yields a text puts it ahead of the texts of the results after it |
| Chat.FirstNonStr | app/services/chat_service.py:128 | the first item `str.join` rejects: not a string, and every item before it is one |
| Chat.Strs | app/services/chat_service.py:128 | the strings of an all-string list, in order |
| Chat.JoinTexts | app/services/chat_service.py:128 | the join succeeds iff every item is a string, and then it is the items joined by newlines |
| Chat.DescriptionsEmpty | app/services/chat_service.py:128-131 | the joined descriptions are empty iff no result gave a text, or exactly one did and it was empty |
| Chat.EmptyTextsRule | app/services/chat_service.py:128-131 | one empty text gives `""`, so the request fails; two empty texts give `"\n"`, so it goes on |
| Chat.Gather | app/services/chat_service.py:120-127 | all results in order when every call succeeds; otherwise the exception of the first call in list order that raised |
| Chat.CacheRecords | app/services/chat_service.py:252-258 | one `{role, content, timestamp}` record per turn, in order |
| Chat.RecordsSerializable | app/services/chat_service.py:252-258 | every cache record can be written by `json.dumps` |
| Chat.CachedWindow | app/services/chat_service.py:261-266 | after trimming to twenty, a full window of twenty turns replaces the old list and a shorter window keeps the older entries below it |
| Chat.CacheServesNewestFirst | app/services/chat_service.py:261-266 | the cached records read back are the store's window in reverse order, newest first |
| Chat.FromCache | app/services/chat_service.py:279-304 | every cached record converted, in order, when all convert; `[]` when any raises |
| Chat.FromStore | app/services/chat_service.py:291-301 | one message per stored turn with its role and content, stamped with the clock and no metadata |
| Chat.ConversationIdOf | app/services/chat_service.py:189 | the request's id when it is given and non-empty, otherwise the generated one |
| Chat.ReplyFor | app/services/chat_service.py:212-223 | a success carries the reply and the conversation id used; a failure carries the error text and the request's own id |
| Chat.AnswerSavedAfterQuestion | app/services/chat_service.py:195-207 | with the store up the question is saved at the instant it was asked, and the answer after it at the instant it was given exactly when there is one; with the store down nothing is saved |
| Chat.AnswerReadAfterQuestion | app/services/chat_service.py:195-207 | after an answered request, the next history of two or more turns ends with the question and then the answer |
| Chat.ChatService.constructor | app/services/chat_service.py:18-30 | the service keeps the five collaborators it was given |
| Chat.ChatService.SaveExchange | app/services/chat_service.py:92-97 | the store becomes the exchange saved on the old store: the user turn stamped when asked, then the reply stamped when answered |
| Chat.ChatService.Consult | app/services/chat_service.py:57-97 | a failed prompt gives the single error event and saves nothing; otherwise the relayed events, and the exchange saved with the streamed reply |
| Chat.ChatService.ProcessTextChat | app/services/chat_service.py:32-97 | a failure while reading the profile or the history gives one `ChatProcessingError` event and saves nothing; otherwise the relayed stream, and the question and reply saved when the reply is non-empty |
| Chat.ChatService.ProcessImageChat | app/services/chat_service.py:100-183 | as the text stream, with `ImageChatProcessingError`, the analysed images in the prompt and `[Image Analysis: type] question` saved as the user turn |
| Chat.ChatService.CacheConversation | app/services/chat_service.py:245-269 | only the conversation's key changes; when the store and the cache are up, the newest twenty turns are pushed on, the list is cut to twenty and given an hour; when the store fails nothing changes |
| Chat.ChatService.GetConversationHistory | app/services/chat_service.py:271-304 | the cached messages when the cache has any; otherwise `[]` when the limit is negative or the store is down, and otherwise the store's window |
| Chat.ChatService.Ask | app/services/chat_service.py:192-201 | the question is saved, and when the store is up the context is built from the history read after that save |
| Chat.ChatService.Exchange | app/services/chat_service.py:185-223 | the question is saved, the context is read, the reply is generated and saved, and the response is built, as `ChatAnswered` states |
| Chat.ChatService.Respond | app/services/chat_service.py:204-223 | the response for the answer; a successful answer is saved as the assistant turn and a failure saves nothing |
| Chat.ChatService.ProcessChatRequest | app/services/chat_service.py:185-223 | the exchange under the request's id or the generated one; only that conversation's cache key can change, and only when the exchange succeeded |
| ChatApi.RequestId | app/api/v1/endpoints/chat.py:40 | the user id, a dash, then more text |
| ChatApi.RequestIdReadBack | app/api/v1/endpoints/chat.py:40 | after the user id and the dash, the text is the millisecond count in decimal with no further dash |
| ChatApi.ApiConversationId | app/api/v1/endpoints/chat.py:185 | `api_`, then the key id, then more text |
| ChatApi.ConversationIdReadBack | app/api/v1/endpoints/chat.py:185 | the key id is followed by `_` and the seconds in decimal, with no further underscore |
| ChatApi.ResponseId | app/api/v1/endpoints/chat.py:225 | `chatcmpl-` followed by the conversation id |
| ChatApi.StreamFor | app/api/v1/endpoints/chat.py:47-56 | an event stream with exactly the four headers and their values |
| ChatApi.ChatText | app/api/v1/endpoints/chat.py:31-59 | every request starts a stream that carries its request id |
| ChatApi.ChatImage | app/api/v1/endpoints/chat.py:62-96 | a stream iff there are one to five images; 400 `Images list cannot be empty.` for none; 400 `Maximum of 5 images allowed.` for more than five |
| ChatApi.ParseOpenAIRequest | app/api/v1/endpoints/chat.py:144-154 | an accepted body has the defaults filled in and stays within the field bounds; a body is refused only when the messages are missing or a bound fails |
| ChatApi.DefaultsAccepted | app/api/v1/endpoints/chat.py:148-154 | a body with only messages whose roles are known gets every default |
| ChatApi.JoinLength | app/api/v1/endpoints/chat.py:179-188 | a join is as long as its parts plus one separator between each two of them |
| ChatApi.TotalLengthMonotone | app/api/v1/endpoints/chat.py:179-210 | parts that are each no longer than their partners are no longer in total |
| ChatApi.Contents | app/api/v1/endpoints/chat.py:179 | the contents of the messages, in order |
| ChatApi.MessageLines | app/api/v1/endpoints/chat.py:188 | `role: content` for each message, in order |
| ChatApi.EstimatedTokens | app/api/v1/endpoints/chat.py:179 | the floor of a quarter of the length of the contents joined by spaces |
| ChatApi.EstimateCountsContents | app/api/v1/endpoints/chat.py:179 | the estimate is 0 for no messages; otherwise the contents' total length plus one space between each two, divided by 4 |
| ChatApi.UsageOf | app/api/v1/endpoints/chat.py:210-212 | prompt and completion tokens are the floors of a quarter of each text's length, and the total is their sum |
| ChatApi.PromptCoversEstimate | app/api/v1/endpoints/chat.py:179-212 | the prompt tokens charged are never fewer than the estimate given to the quota check |
| ChatApi.RecordedUsageIsReturned | app/api/v1/endpoints/chat.py:215-245 | the usage record holds the three counts returned, the request's model, `/chat/completions` and `POST` |
| ChatApi.ChatEndpoints.constructor | app/api/v1/endpoints/chat.py:174-175 | the endpoints keep the chat and key services |
| ChatApi.ChatEndpoints.ChatCompletions | app/api/v1/endpoints/chat.py:165-255 | a quota refusal keeps its status and detail, and any other quota failure is a 500 `Internal server error`, both with nothing changed; after the check the exchange is stored; a failed answer is a 500 with its error and records nothing; a reply is the completion with the usage, and that usage is recorded |
| ChatApi.ChatEndpoints.LegacyChat | app/api/v1/endpoints/chat.py:258-304 | the question's quarter goes to the quota check; a refusal keeps its status, and any other failure is a 500 with the service-error prefix; otherwise the chat response as it is, with the usage under model `default` recorded only on success |
| ChatApi.ChatEndpoints.LegacyExchange | app/api/v1/endpoints/chat.py:276-295 | past the quota check: the exchange as `ChatAnswered` states, only that conversation's cache key changing, and the usage under model `default` recorded exactly when it succeeded |
| LogMigration.PrefixKept | logging_package_chg.py:15-49 | text in front of the first occurrence comes through unchanged |
| LogMigration.LeftmostReplaced | logging_package_chg.py:15-49 | the leftmost occurrence is replaced, and the scan goes on after it |
| LogMigration.ReplaceAbsent | logging_package_chg.py:15-49 | a text without the pattern comes through unchanged |
| LogMigration.ReplaceBySelf | logging_package_chg.py:15-49 | replacing a pattern by itself changes nothing |
| LogMigration.ReplaceLength | logging_package_chg.py:15-49 | the length changes by the number of occurrences replaced times the difference in length |
| LogMigration.MatchesWhenPresent | logging_package_chg.py:15-49 | at least one occurrence is replaced iff the pattern occurs |
| LogMigration.SameLengthChanges | logging_package_chg.py:15-49 | with a different replacement of the same length, a text that holds the pattern comes out changed |
| LogMigration.ReplaceUnchangedIff | logging_package_chg.py:15-49 | a pass leaves the text as it was iff the pattern does not occur or is replaced by itself |
| LogMigration.ReadText | logging_package_chg.py:12-13 | text-mode reading turns every `\r\n` and lone `\r` into `\n`: no carriage return is left and the text does not grow |
| LogMigration.ReadTextPlain | logging_package_chg.py:12-13 | text without a carriage return is read as it is |
| LogMigration.ReadTextIdempotent | logging_package_chg.py:12-13 | reading again what was read changes nothing |
| LogMigration.CrlfRead | logging_package_chg.py:12-13 | a `\r\n` line ending is read as one `\n` |
| LogMigration.CrlfImportMatches | logging_package_chg.py:12-20 | an `import logging` line ending in `\r\n` is replaced by the first pass |
| LogMigration.MigrationKeepsUnrelated | logging_package_chg.py:11-52 | a file using none of the six patterns is migrated to its own text, and one without carriage returns is also written back as it was |
| LogMigration.Selected | logging_package_chg.py:64-67 | a file is selected iff it was found and its path does not contain `logging.py`; selection keeps order and keeps the paths distinct |
| LogMigration.Workspace.constructor | logging_package_chg.py:59-64 | the workspace holds the given files |
| LogMigration.Workspace.ReplaceLoggingImports | logging_package_chg.py:9-57 | a readable and writable file is replaced by the migrated text of what text mode read from it and reported updated; otherwise the error is reported and the files are unchanged |
| LogMigration.Workspace.MigrateAll | logging_package_chg.py:59-72 | the count is the number of selected files; each selected file gets one report, in order; every selected writable file is rewritten from its text-mode reading and every other file is kept |

## Left out

- Connection plumbing (`connect`, `disconnect`, `ping`, `init_redis`, `close_redis`, the Mongo client and the app's lifespan and middleware): network lifecycle only; a store that does not answer is modelled by the store's `up` flag.
- SHA-256, HMAC-SHA256, PBKDF2, `secrets.token_urlsafe`, `secrets.token_hex`, `random.choices` and `uuid4`: cryptographic and random primitives, taken as parameters.
- The clock (`datetime.now`, `datetime.utcnow`, `time.time`, `date.today`): an explicit integer instant, or the ISO text the caller supplies, is passed in. The two saves of one exchange each take their own instant (`Chat.SaveTimes`), the answer's later than the question's.
- Floating point: the cost formula is exact truncation of `(p·pr + c·cr) / 1000`, which may differ from the float result at rounding boundaries. Pet weight and request temperature are carried but never computed with.
- Concurrency: `asyncio.gather` runs in list order. When the profile lookup and the history read both raise, the profile's error is the one reported. The `asyncio.sleep` pacing is left out.
- The language model and the profile lookup: the model's stream is an input (its deltas and an optional failure), and the profile lookup is a function from pet id to an outcome.
- Dynamic typing at the store boundary: a document read back as a record takes its id from `_id`. In the source the model constructor ignores `_id` and reads the stored `id` field, which is `None`, and a `{"_id": <str>}` filter never matches a generated ObjectId. Because the model matches string ids, revocation, activation and deletion by id take effect in the model.
- `APIKey` requires `id`, but the key service and the seeding script build one without it, which pydantic refuses; the model takes the id to be optional.
- KeyAuth.ApiKeyAuth.VerifyApiKey: the status in the rejection detail is the enum's value (`revoked`), as an f-string prints a `str`-mixed enum up to Python 3.10, the oldest version the source's `int | None` annotations run on; from Python 3.11 on it prints `APIKeyStatus.REVOKED`. The expiry test is the corrected one of the finding below.
- Python's `int()`, `str.isdigit` and `\d` accept Unicode digits beyond ASCII; the model accepts only ASCII digits. `str.strip` is modelled with the whitespace Python strips, Unicode included (`Seeding.IsSpace`).
- LoginLimit.IntOrRaise: Python's `int()` also accepts whitespace around the number and single `_` between digits (`" 7"`, `"1_0"`), which the model refuses. The marker it reads is written by the limiter itself with `str()`, which produces neither.
- Users.UserService.AuthenticateUser: returns inactive users too, as the source does; no activity check is added.
- The text of `KeyError`, `IndexError` and `TypeError` raised while reading a malformed analysis result: each becomes a `Raised` outcome, and only the `str.join` error text is spelled out.
- `find_many` with a negative limit: the driver's `ValueError`, caught as `[]`; the model's limit is a natural number. A zero limit is modelled: `limit(0)` is no limit, and `to_list(length=0)` then reads nothing.
- `check_quota`, `generate_response`, `ChatRequest`, `ChatMessage` and the `response`/`conversation_id` fields of `ChatResponse` are referenced but not defined in the source. The quota check and the reply generator are parameters, and the two requests and the reply are records with the fields the code uses. The positional arguments of `get_chat_service` are taken to reach the collaborators they name. The endpoints at `app/api/v1/endpoints/chat.py:174` and `:266` build `ChatService()` directly, outside dependency injection, so its collaborators would be the unresolved `Depends()` defaults; the model gives the endpoints working collaborators.
- The `/chat` endpoint at `app/api/v1/endpoints/chat.py:99-114` and the history endpoint at `:117-141`: they only forward to `process_chat_request` and `get_conversation_history`, which are modelled, and reshape the result.
- The `except` clauses of `chat_text` and `chat_image`: creating a generator and a streaming response raises nothing, so they cannot be reached.
- JWT handling, HTTP routing, settings loading and the sink setup of `app/core/logging.py`: framework wiring.
- The key-management endpoints' dollar conversion (`cents / 100`): floating-point display only.
- The interactive loops and printing of the tools, and the printed lines of the migration script: the migration returns one report per file instead.
- The seeding script's write of the secret, key id, user id and local time to `tools/generated_api_key.txt` (`tools/api_keys/generate_api_key.py:205-212`), and its final listing: file output and printing only.
- ApiKeys.ApiKeyService.CreateApiKey: the expiry is not checked against `datetime`'s range. The request model bounds the day count to 1..365, so only a clock within a year of 9999-12-31 would raise.
- LogMigration.Workspace.ReplaceLoggingImports: the text-mode write is taken as a POSIX one, where `\n` is written as it is; on Windows every `\n` would be written as `\r\n`.
- LogMigration.Workspace.ReplaceLoggingImports: a file whose read or write raises is left as it was, but in the source a write failing after `open(..., "w")` leaves the file truncated. The paths are given as a list of distinct paths standing for `rglob`, whose order is not modelled.
- Kv.RedisService.Delete: takes one key where the source's `delete(*keys)` takes several. The callers pass one.

## Findings

| source | as written | input that shows it | evidently intended | confidence | as-written member | corrected member |
|---|---|---|---|---|---|---|
| app/services/api_key_service.py:52 | the new key is cached as `set_json(..., api_key.model_dump())`, whose `created_at` and `updated_at` are `datetime` values; `json.dumps` raises, `set_json` swallows it and returns False, and nothing is cached (the same holds at line 71) | any key created by `create_api_key` | the key is cached in a JSON form that decodes back to the same key | not executed | ApiKeys.ApiKeyService.CacheAsWritten | ApiKeys.ApiKeyService.CreateApiKey |
| app/core/api_key_auth.py:82 | `datetime.now(timezone.utc) > api_key_obj.expires_at` compares an aware instant with the expiry read back from MongoDB, which `motor` (opened without `tz_aware` at `app/services/storage/mongo_service.py:12`) returns naive; Python raises `TypeError`, so the request fails with a 500 | any active key created with `expires_days`, once verified from the store | an active key is refused exactly when the clock is past its expiry | not executed | KeyAuth.StoredExpiryRaises | KeyAuth.ExpiryTestCorrected |
