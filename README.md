# rml-auth-service: sessions, one-time codes and the cache, in Dafny

This project models the authentication core of the rml-auth-service backend:

- **Cache service** (`Redis`): a key/value store that writes `JSON.stringify` text and reads it back with `JSON.parse`, falling back to the raw text. It offers `get`, `set`, `getOrSet` and the bulk `bulkStringKeyGetOrSet`. `RedisService` owns the store as a `map` field.
- **Refresh-token service** (`RefreshToken`): token-pair issuance and the rotation state machine. `RefreshTokenService` owns the refresh-token repository as a sequence of session records. It provides rotation, revoke-all, list-by-user and log-out.
- **Auth service** (`Auth`): login, the one-time-code registration flow over the cache, user creation, slug ids and lookup by slug. `AuthService` owns the user repository and uses the two services above.
- **JSON** (`Json`): the scalar subset of `JSON.stringify`/`JSON.parse` the cache relies on. It comes with a proved round trip.

bcrypt's compare is a function value `Matcher` that the services hold. Every bcrypt hash the code computes is passed in together with the requirement that it matches what was hashed. The clock (milliseconds) and the fresh values are parameters: uuids, nanoid's character picks and `Math.random()`.

Behaviour of the code as written, reproduced in the model:

- **Rotation order.** Rotation checks the current hash before the used hashes. A replayed, already-rotated-away token therefore ends with "Invalid token" and deletes nothing (`ReplayAfterTwoRotations`).
  - The intended reuse detection, where replaying a rotated token wipes the user's sessions, is therefore not what the code does.
  - The reuse branch needs one token to match both the current hash and a used one. It cannot fire in a store where no token does (`ReuseNeedsDoubleMatch`).
  - That condition is part of the service invariant `Valid`, together with "no session's current hash is among its used ones". Every service operation keeps it. Rotation keeps it when the fresh token matches nothing stored and only that token matches its hash (`RotateKeepsNoDoubleMatch`). Salted bcrypt meets this for uuid tokens: one token has many hashes, but each hash is matched by one short input only (`SaltedHashMatchesOnlyItsToken`). So a service that starts empty and rotates only to such tokens never reports reuse.
- **Expiry wipes every session.** An expired token deletes every record of the user, not just the one session.
- **Login and verification issue access tokens without a user id.** `login` and `verifyRegisterOtp` call `issueTokenPair({ slugId })`, which reads `userId` from its argument. The access tokens they issue therefore carry no `userId` claim (`AccessToken.userId == None`).
- **A code of 0 is never accepted.** An issued one-time code of 0 is falsy, so verifying it reports "OTP expired or not found" (`IssuedCodeVerifies`).
- **Bulk fill maps by position in the missing list.** `bulkStringKeyGetOrSet` gives the key of the k-th *missing* suffix the value `freshData[k]`, numbering positions within the missing list, not within `suffixes` (`MissingPositionMapping`).
- **Repeated suffixes in a bulk fill.** When two missing suffixes name the same key, the later write wins. Each `set` is issued before its first `await`, and the Redis client sends commands on its one connection in the order they were issued. The model's sequential writes give the same result.

## Model

| member | source | states |
|---|---|---|
| Json.Truthy | src/features/auth/service/auth.service.ts:222 | a value is falsy exactly when it is null, undefined, false, 0 or the empty string |
| Json.Stringify | src/redis/redis.service.ts:31 | `JSON.stringify` has no text for `undefined` and only for it; every text it writes is non-empty, with no surrounding whitespace |
| Json.Parse | src/redis/redis.service.ts:24 | `JSON.parse` never yields `undefined`, and it fails on text that is empty or only whitespace |
| Json.StringifyParse | src/redis/redis.service.ts:20-37 | every value except `undefined` has JSON text, and parsing that text gives the value back |
| Json.UnescapeEscape | src/redis/redis.service.ts:24-31 | decoding the body of a string literal written by `JSON.stringify` gives the original string |
| Json.NatTextValue | src/redis/redis.service.ts:24-31 | the decimal text written for a natural number reads back as that number |
| Redis.WireText | src/redis/redis.service.ts:31-35 | the text sent for a value is its JSON text; it is empty exactly for `undefined`, which the client writes as an empty argument |
| Redis.ParseOrRaw | src/redis/redis.service.ts:23-27 | the parsed value when the text is JSON, otherwise the text itself as a string; never `undefined` |
| Redis.Read | src/redis/redis.service.ts:20-28 | null for an absent key, otherwise the parse-or-raw decoding of its text; never `undefined` |
| Redis.ExpiryOf | src/redis/redis.service.ts:32-36 | `set` passes an expiry exactly when the ttl is present and non-zero, and then it is the given ttl |
| Redis.Write | src/redis/redis.service.ts:30-37 | `set` stores the value's JSON text and expiry under the key; every other key keeps its entry and presence |
| Redis.ReadAfterWrite | src/redis/redis.service.ts:20-37 | `get` after `set` returns the value set; `undefined` comes back as the empty string |
| Redis.ReadRawText | src/redis/redis.service.ts:23-27 | stored text that is not JSON is returned raw |
| Redis.GetOrSetFillsMiss | src/redis/redis.service.ts:45-51 | after a miss is filled with a value that is neither null nor undefined, the key is a hit returning that value |
| Redis.Missing | src/redis/redis.service.ts:60-63 | a suffix is in `keysToFetch` iff it is one of the suffixes and its prefixed key reads as null; never longer than the suffixes |
| Redis.CachedValues | src/redis/redis.service.ts:60-62 | the bulk read has one value per suffix, each being `get` of the prefixed key |
| Redis.KeysToFetch | src/redis/redis.service.ts:63 | a suffix is kept iff some position holds it with a null read at that same position; never longer than the suffixes |
| Redis.FreshAt | src/redis/redis.service.ts:71 | `freshData[index]`: the element when the index is in range, `undefined` past the end |
| Redis.WriteMissing | src/redis/redis.service.ts:70-72 | the store after the per-key writes keeps every existing key and holds the key of every missing suffix |
| Redis.KeysToFetchAreMissing | src/redis/redis.service.ts:60-63 | filtering suffixes by the position of null values in the bulk read gives exactly the missing suffixes, in order |
| Redis.WriteMissingAt | src/redis/redis.service.ts:69-72 | the key of the k-th missing suffix holds `freshData[k]` (undefined past its end) unless a later missing suffix repeats it |
| Redis.WriteMissingElsewhere | src/redis/redis.service.ts:69-72 | a key that belongs to no missing suffix keeps its entry |
| Redis.WriteMissingKeepsCached | src/redis/redis.service.ts:63-72 | keys of suffixes that were already cached are not written |
| Redis.MissingPositionMapping | src/redis/redis.service.ts:69-73 | with the first suffix cached and the second missing, the second key receives `freshData[0]`, not `freshData[1]` |
| Redis.RedisService.constructor | src/redis/redis.service.ts:13-18 | a new service starts from an empty store |
| Redis.RedisService.Get | src/redis/redis.service.ts:20-28 | null for an absent key; otherwise the parsed JSON or the raw text |
| Redis.RedisService.Set | src/redis/redis.service.ts:30-37 | the new store is the old one with this key written |
| Redis.RedisService.Del | src/features/auth/service/auth.service.ts:239 | the client's `del` removes exactly that key |
| Redis.RedisService.GetOrSet | src/redis/redis.service.ts:39-52 | the callback runs iff the key reads as null (a cached null is a miss); a hit returns the cached value and writes nothing; a miss writes and returns the computed value |
| Redis.RedisService.GetMany | src/redis/redis.service.ts:60-62 | returns `get` of every prefixed key, in suffix order, without writing |
| Redis.RedisService.SetMissing | src/redis/redis.service.ts:70-72 | writes `freshData[k]` to the key of the k-th missing suffix, in order |
| Redis.RedisService.BulkStringKeyGetOrSet | src/redis/redis.service.ts:54-74 | the callback runs iff some key is missing; otherwise it returns the cached values and the store is unchanged; when it runs, it returns the fresh data and writes only the missing keys |
| RefreshToken.IssueTokenPair | src/features/auth/service/refresh-token.service.ts:19-33 | the refresh token matches the returned hash and expires 604800000 ms after now; the access token carries the given claim and expires 300 s after it was issued |
| RefreshToken.FindSession | src/features/auth/service/refresh-token.service.ts:45-48 | the first record with that user and session id, or none when no record has them |
| RefreshToken.SessionsOf | src/features/auth/service/refresh-token.service.ts:110-119 | exactly the records of that user |
| RefreshToken.WithoutUser | src/features/auth/service/refresh-token.service.ts:97-108 | `deleteMany({ userId })` keeps exactly the records of other users |
| RefreshToken.CompareAll | src/features/auth/service/refresh-token.service.ts:58-62 | one compare verdict per used hash, in order |
| RefreshToken.AnyMatch | src/features/auth/service/refresh-token.service.ts:58-63 | `some` over the verdicts holds iff the token matches some used hash |
| RefreshToken.Advance | src/features/auth/service/refresh-token.service.ts:84-86 | the old hash is appended to the used list, so it grows by exactly one; hash and expiry are replaced; user, session and creation time are kept |
| RefreshToken.Rotate | src/features/auth/service/refresh-token.service.ts:35-95 | checks run in the order lookup, current hash, used hashes, expiry (strict `<`), each with its message. "No token found" and "Invalid token" change nothing; reuse and expiry delete all of the user's records. Success appends the old hash to the used list, installs the new hash and expiry, keeps user, session and creation time, and leaves every other record alone |
| RefreshToken.PartitionByUser | src/features/auth/service/refresh-token.service.ts:97-119 | every record is either one of the user's or survives the user's wipe |
| RefreshToken.WipeKeepsOtherUsers | src/features/auth/service/refresh-token.service.ts:97-108 | after the wipe the user has no sessions, and every other user's session list is unchanged, in order |
| RefreshToken.TerminalFailureEndsSession | src/features/auth/service/refresh-token.service.ts:58-78 | after a reuse or expiry failure the user has no sessions, and the next rotation of that session fails with "No token found" |
| RefreshToken.ReuseNeedsDoubleMatch | src/features/auth/service/refresh-token.service.ts:53-69 | when no token matches both a record's current hash and one of its used hashes, rotation never reports reuse |
| RefreshToken.RotateKeepsNoDoubleMatch | src/features/auth/service/refresh-token.service.ts:80-88 | rotation to a fresh token that matches nothing stored, and whose hash only it matches, leaves no token matching both a current and a used hash |
| RefreshToken.FreshTokenHashUnused | src/features/auth/service/refresh-token.service.ts:21 | the hash of a token that matches nothing stored is held by no record, current or used |
| RefreshToken.SaltedHashMatchesOnlyItsToken | src/features/auth/service/refresh-token.service.ts:21 | with salted hashes one token matches two different hashes, yet each hash is matched by that token only |
| RefreshToken.RotateKeepsCurrentNeverUsed | src/features/auth/service/refresh-token.service.ts:80-88 | rotation with a fresh hash keeps every record's current hash out of its used list |
| RefreshToken.ReplayAfterTwoRotations | src/features/auth/service/refresh-token.service.ts:53-56 | after two rotations the used list is [h0, h1]; replaying the first token fails with "Invalid token", deletes nothing, and the user still has one session |
| RefreshToken.RefreshTokenService.constructor | src/features/auth/service/refresh-token.service.ts:14-18 | a new service has an empty repository, which satisfies the invariant, and the given hash matcher |
| RefreshToken.RefreshTokenService.CreateSession | src/schemas/refreshToken.schema.ts:7-23 | `createOne` appends one record with `createdAt` now, an empty used list and the drawn session id; the invariant is kept |
| RefreshToken.RefreshTokenService.RotateToken | src/features/auth/service/refresh-token.service.ts:35-95 | the outcome and the new repository are those of `Rotate`; with a fresh hash no current hash is among the used ones; with a fresh token that matches nothing stored and whose hash only it matches the invariant is kept; under the invariant the outcome is never reuse |
| RefreshToken.RefreshTokenService.RevokeAllToken | src/features/auth/service/refresh-token.service.ts:97-108 | returns true and deletes exactly the user's records; the invariant is kept |
| RefreshToken.RefreshTokenService.GetTokenForUser | src/features/auth/service/refresh-token.service.ts:110-119 | returns exactly the user's records, in store order |
| RefreshToken.RefreshTokenService.LogOut | src/features/auth/service/refresh-token.service.ts:121-137 | deletes the first matching record and reports 1; with no match it reports 0 and changes nothing; the invariant is kept |
| Auth.NewRpcError | src/interface/error.response.ts:4-29 | the error keeps its class; a non-zero code and non-empty details are kept, otherwise the class's default applies: PERMISSION_DENIED (7) and "No permission", ALREADY_EXISTS (6) and "Register failed", UNAUTHENTICATED (16) and "Login failed" |
| Auth.SlugCode | src/features/auth/service/auth.service.ts:60 | an 8-character code drawn from 0-9A-Z |
| Auth.SlugId | src/features/auth/service/auth.service.ts:59-65 | the bare code when the country code is absent or empty; otherwise `countryCode_code` |
| Auth.SlugIdShape | src/features/auth/service/auth.service.ts:59-65 | a slug id is the country code and `_` (if any) followed by exactly 8 alphabet characters, and both parts can be read back |
| Auth.LocalPart | src/features/auth/service/auth.service.ts:243 | the result is a prefix of the email, holds no '@', and is followed by '@' whenever it is shorter than the email |
| Auth.OtpCode | src/features/auth/service/auth.service.ts:181 | the code is the floor of random × 1000000, so it lies in [0, 999999] |
| Auth.OtpKey | src/features/auth/service/auth.service.ts:183 | the key is the prefix followed by the email, so the email can be read back and different emails get different keys |
| Auth.OtpCheck | src/features/auth/service/auth.service.ts:220-236 | "not found" iff the cached value is falsy; "does not match" iff it is truthy and not strictly equal to the supplied one; success otherwise |
| Auth.IssuedCodeVerifies | src/features/auth/service/auth.service.ts:181-236 | the stored code verifies when supplied back unless it is 0, which is reported as not found; any other number is a mismatch |
| Auth.ConsumedCodeIsNotFound | src/features/auth/service/auth.service.ts:220-239 | once the entry is deleted, any verify reports not found |
| Auth.FindByEmail | src/features/auth/service/auth.service.ts:115 | the first user with that email, or none when no user has it |
| Auth.FindBySlug | src/features/auth/service/auth.service.ts:306 | the first user with that slug id, or none when no user has it |
| Auth.CheckCredentials | src/features/auth/service/auth.service.ts:115-133 | succeeds iff the first user with the email has a hash the password matches; both failures give the same "Wrong credential" error |
| Auth.LoginFailureHidesCause | src/features/auth/service/auth.service.ts:117-133 | a wrong password for a known email fails exactly as an unknown email does |
| Auth.AuthService.constructor | src/features/auth/service/auth.service.ts:43-57 | a new service has an empty user repository and the given collaborators |
| Auth.AuthService.Login | src/features/auth/service/auth.service.ts:107-156 | on failure it returns "Wrong credential" and creates no session; on success it appends exactly one session (user id, issued hash and expiry, empty used list) and returns the user's fields, the raw token, the session id and the stored role; the session invariant is kept |
| Auth.AuthService.RegisterOtp | src/features/auth/service/auth.service.ts:158-208 | a registered email gets "Email already register" and the cache is untouched; otherwise a code in [0, 999999] is stored under prefix+email with ttl 300000 and returned with the email |
| Auth.AuthService.CreateNewUser | src/features/auth/service/auth.service.ts:67-105 | appends one user with the password's hash, a bare 8-character slug id and the fresh user id, and returns username, email, slug id and user id |
| Auth.AuthService.VerifyRegisterOtp | src/features/auth/service/auth.service.ts:210-288 | a failed check changes no store; a match deletes the code, creates the user named after the email's local part (also the password), opens one session, and returns role USER; the session invariant is kept |
| Auth.AuthService.GetUserFromSlug | src/features/auth/service/auth.service.ts:290-316 | an absent or empty slug is "Not found user" without a lookup; otherwise the first user with that slug, or "Not found user" when no user has it |

## Left out

- bcrypt hashing and compare, JWT signing, `uuid`, `nanoid` and `Math.random` are foreign libraries. They become the `Matcher` function value and fresh-value parameters. The access token is modelled by its claims (`userId`, `iat`, `exp`), not its signed text.
- The clock: each operation reads one instant `now`. In the code, `new Date()` in the expiry check and `Date.now()` in issuance are separate reads.
- The character-profile gRPC call in `createNewUser` (auth.service.ts:90-102) is a network call into another service. Its failure paths are not modelled.
- Logging and the commented-out e-mail delivery are side effects only.
- Controllers, modules, DTOs, proto interfaces, the gRPC client helper and the RBAC stubs are routing and framework glue.
- The Redis and Mongo stores are taken to be empty when a service is constructed. In the program they are external databases that keep their data across restarts, so the service invariant `Valid` holds from the start only for a repository that satisfies it.
- RefreshToken.RotateKeepsNoDoubleMatch: its premise that only the fresh token matches its hash ignores bcrypt's 72-byte truncation and hash collisions. The 36-character uuid refresh tokens are below that length.
- Repositories are in-memory sequences and maps. `findOne` is modelled as the first match in insertion order. Unique indexes, Mongo errors and lookups with an undefined filter are not modelled.
- Failing Redis commands are not modelled: every `get`, `set` and `del` succeeds. A `getOrSet` or bulk callback is modelled by the value it returns, so a rejected callback, which in the program propagates before anything is written, is not modelled.
- The user schema is not part of this model. The role it gives a new user is a constructor parameter of `AuthService`.
- `OtpToken_PreFix` is not part of this model. It is a constructor parameter of `AuthService`. `APP_ROLE.USER` is taken to be the text "USER".
- Redis expiry is not simulated. The ttl is kept on the entry as an opaque number, so the unit mismatch (300000 passed as `EX` seconds) is recorded but not interpreted. A negative ttl is excluded by the `nat` type.
- Concurrency is sequentialised: the `Promise.all` fan-outs run in order, and the read-modify-write race between two concurrent rotations is not modelled.
- JSON values are the scalars null, undefined, booleans, integers and strings. Fractional numbers, exponents, `-0`, integers beyond 2^53, arrays and objects are not modelled. Parsing a `\u` escape of a surrogate half is treated as not JSON, so such text comes back raw.
- RefreshToken.RefreshTokenService.LogOut: returns only `deletedCount` from Mongo's delete result; `acknowledged` is not modelled.
- RefreshToken.RefreshError: the HTTP status (406) is a constant of the error. Its transport mapping is not modelled.
- Access-token blacklisting, cache retry and health checks do not exist in the code and are not modelled.
