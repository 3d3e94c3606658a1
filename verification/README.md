# Login security core of aegis-auth, modelled in Dafny

This project models the decision logic of the aegis-auth login path and
proves properties of it:

- **Password records** (module `PasswordHashing`, with the
  base16 codec in module `Hex`): a stored record is `hex(salt) ":" hex(key)`.
  The salt is 16 random bytes. The key is derived by scrypt from the
  NFKC-normalised password and the salt's hex *text*. `verifyPassword` splits
  the record on ":", re-derives the key and compares it with the decoded
  stored key. scrypt and NFKC are function parameters. The random salt is a
  parameter too. The hex codec is written out, so decode∘encode = id is a
  proved lemma, not an assumption.
- **Rate-limiter construction** (module `RateLimit`): validation of the
  global settings, strategy selection with a fixed-window default, route
  overrides and prefixes. A limiter
  is the tagged descriptor `FixedWindow | SlidingWindow | TokenBucket` with
  its prefix and store connection.
- **Lockout bookkeeping** (module `LockoutPolicy`): the lock test and the
  failed-attempt arithmetic of `loginUser`.
- **The login workflow** (modules `LoginWorkflow` and `LoginProperties`).
  `Decide` is the gate chain as one function: it gives the response, the one
  write to the user record, and the security events in order. `LoginUser` is
  the workflow written step by step, as the source writes it, over a
  `UserStore` (a map from id to user record) and a `SecurityLog` (an appended
  event sequence). It is proved to do exactly what `Decide` says. These are
  inputs: the rate-limit verdict, the input-schema verdict, the password check
  (a function of the stored hash and the typed password) and the created
  session. `now` is an integer, and a lockout of `d` seconds set at `now`
  ends at `now + d`.

Behaviour kept as written:
- The `INVALID_INPUT` and `USER_NOT_FOUND` events carry the raw input,
  password included. This is because the source spreads `...input` into
  their context (`Event.input`).
- Route overrides are not checked for positivity (`RouteOverrideNotValidated`).
- The workflow reads the user record once. The success view is built from
  that record as it was before the reset.

## Model

| member | source | states |
|---|---|---|
| `Hex.Encode` | src/security/password.ts:28-30 | the hex text of n bytes has 2n characters and never contains ":" |
| `Hex.Decode` | src/security/password.ts:40 | a decoded key has half as many bytes as its hex text has characters |
| `Hex.DecodeEncode` | src/security/password.ts:30-40 | decoding the hex text of a key gives back that key (base16, section 8 of RFC 4648) |
| `Hex.EncodeInjective` | src/security/password.ts:28 | different salts have different hex texts |
| `PasswordHashing.ScryptParamsFor` | src/security/password.ts:12-20 | scrypt gets N, p, r and dkLen from the configuration, and maxmem = 256 × costFactor × blockSize |
| `PasswordHashing.GenerateKey` | src/security/password.ts:7-22 | scrypt gets NFKC(password), the salt text exactly as given, and N, p, r, dkLen from the configuration with maxmem = 256 × costFactor × blockSize |
| `PasswordHashing.TimingSafeEqual` | src/security/password.ts:41 | the comparison is true exactly when both keys have the same length and agree byte by byte |
| `PasswordHashing.Split` | src/security/password.ts:38 | splitting on ":" always yields a first piece, which is the salt |
| `PasswordHashing.SplitWithoutSeparator` | src/security/password.ts:38 | text without ":" splits into itself alone |
| `PasswordHashing.SplitAtFirst` | src/security/password.ts:38 | text splits at its first ":" into the part before it and the split of the rest |
| `PasswordHashing.HashPassword` | src/security/password.ts:24-31 | hashing fails, with a KDF error, exactly when scrypt fails on the normalised password and the hex salt text |
| `PasswordHashing.VerifyPassword` | src/security/password.ts:33-42 | verification fails with a KDF error exactly when re-deriving with the record's first piece as salt fails |
| `PasswordHashing.HashRecordLayout` | src/security/password.ts:7-30 | a record is the 32 hex characters of the salt (no ":"), one ":", then the hex of scrypt(NFKC(password), hex salt text). It splits back into exactly those two pieces |
| `PasswordHashing.VerifyWellFormed` | src/security/password.ts:33-42 | for any record `salt:hex(key)[:more]`, verification is Ok(re-derived key = key), or a KDF error. Pieces after the second ":" are ignored |
| `PasswordHashing.RoundTrip` | src/security/password.ts:24-42 | a password verifies against the record hashed from it |
| `PasswordHashing.NormalizedEquivalent` | src/security/password.ts:15 | any password with the same NFKC form as the hashed one verifies |
| `PasswordHashing.VerifyOtherPassword` | src/security/password.ts:39-41 | another password verifies exactly when it derives the same key under the record's salt |
| `PasswordHashing.DistinctSaltsDistinctRecords` | src/security/password.ts:28-30 | hashing one password with two different salts gives two different records |
| `PasswordHashing.NoSeparatorIsMalformed` | src/security/password.ts:38-40 | a record without ":" has no key part and is rejected as malformed once scrypt succeeds |
| `RateLimit.CreateRateLimiter` | src/utils/rateLimit.ts:15-56 | fails exactly when attempts ≤ 0 or windowSeconds ≤ 0. Otherwise every strategy admits `attempts` per `windowSeconds`, keeps the caller's prefix unchanged and uses the configured store credentials |
| `RateLimit.SlidingWindowSelected` | src/utils/rateLimit.ts:33-38 | "slidingWindow" gives a sliding window of (attempts, windowSeconds) |
| `RateLimit.TokenBucketSelected` | src/utils/rateLimit.ts:39-48 | "tokenBucket" gives a bucket of capacity `attempts`, refilled with `attempts` tokens per windowSeconds |
| `RateLimit.FixedWindowByDefault` | src/utils/rateLimit.ts:49-54 | any other strategy string gives a fixed window of (attempts, windowSeconds) |
| `RateLimit.CreateRouteRateLimiter` | src/utils/rateLimit.ts:68-99 | null exactly when the route has no override, checked before credentials. An error exactly when there is an override and the URL or token is absent or empty |
| `RateLimit.RouteLimiterIsFixedWindow` | src/utils/rateLimit.ts:91-98 | with an override and credentials, a fixed window of the override's numbers under the prefix "spectra-route:" + route, whatever the global strategy, connected with the configured URL and token |
| `RateLimit.RouteOverrideNotValidated` | src/utils/rateLimit.ts:68-98 | every override with attempts ≤ 0 or windowSeconds ≤ 0 still yields a fixed-window limiter of those numbers, although the same numbers in the global settings are refused |
| `LockoutPolicy.IsLocked` | src/actions/loginUser.ts:114 | a null lockedUntil never locks; a lock holds strictly before lockedUntil, and no longer from lockedUntil itself on |
| `LockoutPolicy.OnFailedAttempt` | src/actions/loginUser.ts:144-158 | a lock is set exactly when count + 1 ≥ maxFailedLogins. Then the counter becomes 0 and lockedUntil becomes now + lockout duration. Otherwise the counter is count + 1 and lockedUntil is null |
| `LockoutPolicy.CounterBelowMaximum` | src/actions/loginUser.ts:144-152 | with a positive maximum, the stored counter is always below it |
| `LockoutPolicy.LockLastsForDuration` | src/actions/loginUser.ts:114-151 | a lock set at `now` holds at a later time t exactly when t < now + duration |
| `LoginWorkflow.Decide` | src/actions/loginUser.ts:40-233 | only the found user is ever written. Success carries status 200 and happens exactly when LOGIN_SUCCESS is logged. Every failure status is one of 400, 401, 403, 404, 429, 500 |
| `LoginWorkflow.UserStore.FindFirst` | src/actions/loginUser.ts:75-82 | returns a stored user whose email or username equals the identifier, or null exactly when there is none |
| `LoginWorkflow.UserStore.UpdateSecurityState` | src/actions/loginUser.ts:160-163 | sets the two lockout fields of one user and changes nothing else |
| `LoginWorkflow.SecurityLog.Record` | src/actions/loginUser.ts:45-48 | appends one event to the log |
| `LoginWorkflow.LoginUser` | src/actions/loginUser.ts:21-234 | the response, the new store and the appended events are exactly those of `Decide` for the user the lookup returned |
| `LoginProperties.RateLimitGate` | src/actions/loginUser.ts:40-56 | a throttled request gets 429 RATE_LIMIT_EXCEEDED, one event, no write, whatever the lookup would give |
| `LoginProperties.RateLimitOnlyWhenApplies` | src/actions/loginUser.ts:40 | the rate-limit verdict changes the outcome exactly when rate limiting is enabled and the address is present and non-empty |
| `LoginProperties.InvalidInputGate` | src/actions/loginUser.ts:59-73 | invalid input gets 400 INVALID_INPUT, one event with the input, no write, the same for every lookup result |
| `LoginProperties.UserNotFoundGate` | src/actions/loginUser.ts:84-97 | no user gives 404 USER_NOT_FOUND, one event with the input, no write |
| `LoginProperties.BannedGate` | src/actions/loginUser.ts:99-112 | a banned user gets 403 ACCOUNT_BANNED, before the lock check, with no write |
| `LoginProperties.LockGate` | src/actions/loginUser.ts:114-129 | ACCOUNT_LOCKED comes back exactly when lockedUntil is set and strictly after now. It then carries no write and one event |
| `LoginProperties.PasswordNotConsultedBeforeGates` | src/actions/loginUser.ts:40-131 | requests refused before the password check get the same answer for every password check and session, write nothing and log one event |
| `LoginProperties.WrongPassword` | src/actions/loginUser.ts:137-170 | a wrong password always gets 401. It writes count + 1 with null lockedUntil, or, on reaching the maximum (≥), 0 with now + duration. Events: INVALID_CREDENTIALS, then ACCOUNT_LOCKED if the lock tripped |
| `LoginProperties.EmailGate` | src/actions/loginUser.ts:173-189 | EMAIL_NOT_VERIFIED comes back exactly when the password is right, the email unverified and verification required. No reset and no session follow |
| `LoginProperties.SessionStep` | src/actions/loginUser.ts:191-233 | past every gate the counters are reset. A failed session gives 500 with the reset kept and no event. Otherwise 200 with the user view and session, and LOGIN_SUCCESS |
| `LoginProperties.SuccessExactly` | src/actions/loginUser.ts:40-233 | login succeeds exactly when every gate passes and a session was created |
| `LoginProperties.StoredCounterBelowMaximum` | src/actions/loginUser.ts:144-163 | with a positive maximum, no write stores a counter at or above it |
| `LoginProperties.AfterFailures` | src/actions/loginUser.ts:137-163 | repeated failed attempts change only the two lockout fields of the record; every other field is kept |
| `LoginProperties.FailuresCountUp` | src/actions/loginUser.ts:144-163 | below the maximum, k failures raise the counter by k and set no lock |
| `LoginProperties.FailuresTripLock` | src/actions/loginUser.ts:144-163 | the failure that reaches the maximum zeroes the counter and locks until its time + duration |
| `LoginProperties.LockedAttemptsChangeNothing` | src/actions/loginUser.ts:114-129 | while locked, every attempt gets ACCOUNT_LOCKED and leaves the record unchanged |
| `LoginProperties.ThreeFailuresThenLocked` | src/actions/loginUser.ts:114-170 | with a maximum of 3, the third wrong password gets 401 INVALID_CREDENTIALS and a request within the lockout gets 403 ACCOUNT_LOCKED |
| `LoginProperties.LoginAfterExpiry` | src/actions/loginUser.ts:114-233 | at or after lockedUntil, a correct, verified login succeeds and clears both lockout fields |
| `LoginProperties.HashedPasswordLogsIn` | src/actions/loginUser.ts:131-233 | with `verifyPassword` as the password check, a password with the same NFKC form as the hashed one logs in a verified, unbanned, unlocked user |

## Left out

- scrypt, `String.prototype.normalize("NFKC")` and `getRandomValues` are foreign code. scrypt and NFKC are function parameters, and the salt bytes are a parameter. The KDF's own memory check against `maxmem` is inside scrypt and is not modelled; a failing KDF is the `KdfFailed` error.
- The modules `./hex` and `./compare` are not part of this model. The hex codec is modelled as base16 with lower-case output and case-insensitive input. A missing or non-hex key part is modelled as the error `MalformedRecord`. `timingSafeEqual` is modelled as sequence equality. Constant-time behaviour is a timing property that a functional model cannot express.
- Upstash `Redis` and `Ratelimit` are not modelled: the window and bucket counting, the `"<n> s"` duration string (kept as the number of seconds) and the store's atomicity.
- RateLimit.CreateRateLimiter: the configuration numbers (attempts, windowSeconds, the route overrides, maxFailedLogins, lockoutDurationSeconds and the scrypt cost settings) are JavaScript numbers in the source and integers here. NaN and fractional values are not modelled. NaN passes the source's `<= 0` check, so the source builds a limiter from it, and a fraction such as 0.5 is accepted too.
- limitIPAttempts: not modelled. It only copies success, remaining, limit and reset from the store's reply to `limit(ip)`, and that reply comes from the store's counting, which is left out.
- LoginWorkflow.LoginUser: the rate-limit verdict is a boolean input. The source builds it with `createRouteLimiter` / `limitIpAttempts`, which are not the names `rateLimit.ts` exports, so the two models are kept apart.
- LoginWorkflow.LoginUser: the password check is a boolean function of the stored hash and the typed password. An exception thrown by `verifyPassword` (which rejects the login promise) is not modelled.
- LoginWorkflow.LoginUser: the zod `loginSchema` is a boolean verdict. Any transformation it applies to the input is not modelled, so the lookup and the password check use the input as given.
- Response messages are not modelled, including the relative unlock time built by `createTime(...).fromNow`. Also left out: `UAParser` and the session metadata, `createSession` internals, and the fields of `clientSafeUser` (the view keeps id, email and username, and never the password hash).
- Time is one integer `now` per request. The source reads the clock separately for the lock test and for the new lock's expiry.
- The lost-update race between concurrent failed logins of one user is concurrency; the model runs one request at a time. Prisma errors (for instance a failed update) are not modelled.
- `src/cookies/csrf.ts` is a thin wrapper over the `cookie` library with no logic of its own. `src/actions/index.ts` only re-exports.
