/** What the login workflow promises, stated over `LoginWorkflow.Decide`. */
module LoginProperties {
  import opened Common
  import opened LockoutPolicy
  import opened LoginWorkflow
  import Hex
  import PasswordHashing

  /** The checks that every request passes before the user is looked up. */
  predicate PassesEarlyGates(cfg: LoginConfig, req: LoginRequest, rateLimitAllows: bool, inputValid: bool)
  {
    (!RateLimitApplies(cfg, req) || rateLimitAllows) && inputValid
  }

  // ---------------------------------------------------------------------
  // The gates before the lookup

  /** A throttled request gets 429 and one event; nothing is looked up or written. */
  lemma RateLimitGate(cfg: LoginConfig, req: LoginRequest, inputValid: bool, found: Option<User>,
                      passwordMatches: (string, string) -> bool, session: Option<Session>, now: int)
    requires RateLimitApplies(cfg, req)
    ensures Decide(cfg, req, false, inputValid, found, passwordMatches, session, now)
            == Outcome(Failure(429, RateLimitExceeded), None,
                       [Event(Rejected(RateLimitExceeded), Route, req.ipAddress, None, None)])
  {
  }

  /**
   * The verdict of the rate limiter matters only when login rate limiting
   * is enabled and the client address is present and non-empty.
   */
  lemma RateLimitOnlyWhenApplies(cfg: LoginConfig, req: LoginRequest, inputValid: bool,
                                 found: Option<User>, passwordMatches: (string, string) -> bool,
                                 session: Option<Session>, now: int)
    ensures (Decide(cfg, req, true, inputValid, found, passwordMatches, session, now)
             == Decide(cfg, req, false, inputValid, found, passwordMatches, session, now))
            <==> !RateLimitApplies(cfg, req)
  {
    if RateLimitApplies(cfg, req) {
      assert Decide(cfg, req, false, inputValid, found, passwordMatches, session, now).response.status == 429;
      assert Decide(cfg, req, true, inputValid, found, passwordMatches, session, now).response.status != 429;
    }
  }

  /** Invalid input gets 400 and one event, whatever the lookup would have found. */
  lemma InvalidInputGate(cfg: LoginConfig, req: LoginRequest, rateLimitAllows: bool,
                         found1: Option<User>, found2: Option<User>,
                         passwordMatches: (string, string) -> bool, session: Option<Session>, now: int)
    requires !RateLimitApplies(cfg, req) || rateLimitAllows
    ensures Decide(cfg, req, rateLimitAllows, false, found1, passwordMatches, session, now)
            == Decide(cfg, req, rateLimitAllows, false, found2, passwordMatches, session, now)
            == Outcome(Failure(400, InvalidInput), None,
                       [Event(Rejected(InvalidInput), Route, req.ipAddress, None, Some(req.input))])
  {
  }

  // ---------------------------------------------------------------------
  // The gates before the password check

  /** An unknown identifier gets 404 and one event carrying the input. */
  lemma UserNotFoundGate(cfg: LoginConfig, req: LoginRequest, rateLimitAllows: bool,
                         passwordMatches: (string, string) -> bool, session: Option<Session>, now: int)
    requires PassesEarlyGates(cfg, req, rateLimitAllows, true)
    ensures Decide(cfg, req, rateLimitAllows, true, None, passwordMatches, session, now)
            == Outcome(Failure(404, UserNotFound), None,
                       [Event(Rejected(UserNotFound), Route, req.ipAddress, None, Some(req.input))])
  {
  }

  /** A banned user gets 403 ACCOUNT_BANNED, locked or not. */
  lemma BannedGate(cfg: LoginConfig, req: LoginRequest, rateLimitAllows: bool, u: User,
                   passwordMatches: (string, string) -> bool, session: Option<Session>, now: int)
    requires PassesEarlyGates(cfg, req, rateLimitAllows, true)
    requires u.isBanned
    ensures Decide(cfg, req, rateLimitAllows, true, Some(u), passwordMatches, session, now)
            == Outcome(Failure(403, AccountBanned), None, [UserEvent(Rejected(AccountBanned), req, u)])
  {
  }

  /**
   * The lock gate fires exactly when `lockedUntil` is set and later than
   * `now`: at `lockedUntil` itself the login goes on.
   */
  lemma LockGate(cfg: LoginConfig, req: LoginRequest, rateLimitAllows: bool, u: User,
                 passwordMatches: (string, string) -> bool, session: Option<Session>, now: int)
    requires PassesEarlyGates(cfg, req, rateLimitAllows, true)
    requires !u.isBanned
    ensures var o := Decide(cfg, req, rateLimitAllows, true, Some(u), passwordMatches, session, now);
            (o.response == Failure(403, AccountLocked))
            <==> (u.lockedUntil.Some? && u.lockedUntil.value > now)
    ensures var o := Decide(cfg, req, rateLimitAllows, true, Some(u), passwordMatches, session, now);
            u.lockedUntil.Some? && u.lockedUntil.value > now ==>
              o == Outcome(Failure(403, AccountLocked), None, [UserEvent(Rejected(AccountLocked), req, u)])
  {
  }

  /**
   * Requests turned away before the password check neither consult the
   * password nor the session, and write nothing.
   */
  lemma PasswordNotConsultedBeforeGates(cfg: LoginConfig, req: LoginRequest, rateLimitAllows: bool,
                                        inputValid: bool, found: Option<User>,
                                        pm1: (string, string) -> bool, pm2: (string, string) -> bool,
                                        s1: Option<Session>, s2: Option<Session>, now: int)
    requires !PassesEarlyGates(cfg, req, rateLimitAllows, inputValid)
             || found.None? || found.value.isBanned || IsLocked(found.value.lockedUntil, now)
    ensures Decide(cfg, req, rateLimitAllows, inputValid, found, pm1, s1, now)
            == Decide(cfg, req, rateLimitAllows, inputValid, found, pm2, s2, now)
    ensures Decide(cfg, req, rateLimitAllows, inputValid, found, pm1, s1, now).write == None
    ensures |Decide(cfg, req, rateLimitAllows, inputValid, found, pm1, s1, now).events| == 1
  {
  }

  // ---------------------------------------------------------------------
  // The password check and after

  /**
   * A wrong password always writes: the counter plus one, or, when that
   * reaches the maximum, a zero counter and a lock until now plus the
   * lockout duration. The answer is 401 either way, and tripping the lock
   * logs ACCOUNT_LOCKED after INVALID_CREDENTIALS.
   */
  lemma WrongPassword(cfg: LoginConfig, req: LoginRequest, rateLimitAllows: bool, u: User,
                      passwordMatches: (string, string) -> bool, session: Option<Session>, now: int)
    requires PassesEarlyGates(cfg, req, rateLimitAllows, true)
    requires !u.isBanned && !IsLocked(u.lockedUntil, now)
    requires !passwordMatches(u.passwordHash, req.input.password)
    ensures var o := Decide(cfg, req, rateLimitAllows, true, Some(u), passwordMatches, session, now);
            var trips := u.failedLoginAttempts + 1 >= cfg.maxFailedLogins;
            && o.response == Failure(401, InvalidCredentials)
            && o.write == Some(if trips then Write(u.id, 0, Some(now + cfg.lockoutDurationSeconds))
                               else Write(u.id, u.failedLoginAttempts + 1, None))
            && o.events == if trips then [UserEvent(Rejected(InvalidCredentials), req, u),
                                          UserEvent(Rejected(AccountLocked), req, u)]
                           else [UserEvent(Rejected(InvalidCredentials), req, u)]
  {
  }

  /** The email gate is reached only with the right password; it writes nothing. */
  lemma EmailGate(cfg: LoginConfig, req: LoginRequest, rateLimitAllows: bool, u: User,
                  passwordMatches: (string, string) -> bool, session: Option<Session>, now: int)
    requires PassesEarlyGates(cfg, req, rateLimitAllows, true)
    requires !u.isBanned && !IsLocked(u.lockedUntil, now)
    ensures var o := Decide(cfg, req, rateLimitAllows, true, Some(u), passwordMatches, session, now);
            (o.response == Failure(403, EmailNotVerified))
            <==> (passwordMatches(u.passwordHash, req.input.password)
                  && !u.isEmailVerified && cfg.requireEmailVerification)
    ensures var o := Decide(cfg, req, rateLimitAllows, true, Some(u), passwordMatches, session, now);
            o.response == Failure(403, EmailNotVerified) ==>
              o.write == None && o.events == [UserEvent(Rejected(EmailNotVerified), req, u)]
  {
  }

  /**
   * Past every gate the counters are reset before the session is made; a
   * failed session gives 500, keeps the reset and logs nothing.
   */
  lemma SessionStep(cfg: LoginConfig, req: LoginRequest, rateLimitAllows: bool, u: User,
                    passwordMatches: (string, string) -> bool, session: Option<Session>, now: int)
    requires PassesEarlyGates(cfg, req, rateLimitAllows, true)
    requires !u.isBanned && !IsLocked(u.lockedUntil, now)
    requires passwordMatches(u.passwordHash, req.input.password)
    requires u.isEmailVerified || !cfg.requireEmailVerification
    ensures var o := Decide(cfg, req, rateLimitAllows, true, Some(u), passwordMatches, session, now);
            && o.write == Some(Write(u.id, 0, None))
            && (session.None? ==> o.response == Failure(500, InternalServerError) && o.events == [])
            && (session.Some? ==> o.response == Success(200, SafeView(u), session.value)
                                  && o.events == [UserEvent(LoginSuccess, req, u)])
  {
  }

  /** A login succeeds exactly when every gate passes and a session was made. */
  lemma SuccessExactly(cfg: LoginConfig, req: LoginRequest, rateLimitAllows: bool, inputValid: bool,
                       found: Option<User>, passwordMatches: (string, string) -> bool,
                       session: Option<Session>, now: int)
    ensures Decide(cfg, req, rateLimitAllows, inputValid, found, passwordMatches, session, now).response.Success?
            <==> && PassesEarlyGates(cfg, req, rateLimitAllows, inputValid)
                 && found.Some? && !found.value.isBanned && !IsLocked(found.value.lockedUntil, now)
                 && passwordMatches(found.value.passwordHash, req.input.password)
                 && (found.value.isEmailVerified || !cfg.requireEmailVerification)
                 && session.Some?
  {
  }

  /**
   * With a positive maximum, a stored counter stays below it: every write
   * leaves fewer than `maxFailedLogins` failures on record.
   */
  lemma StoredCounterBelowMaximum(cfg: LoginConfig, req: LoginRequest, rateLimitAllows: bool,
                                  inputValid: bool, found: Option<User>,
                                  passwordMatches: (string, string) -> bool,
                                  session: Option<Session>, now: int)
    requires cfg.maxFailedLogins >= 1
    ensures var o := Decide(cfg, req, rateLimitAllows, inputValid, found, passwordMatches, session, now);
            o.write.Some? ==> o.write.value.failedLoginAttempts < cfg.maxFailedLogins
  {
    if found.Some? {
      CounterBelowMaximum(found.value.failedLoginAttempts, cfg.maxFailedLogins,
                          cfg.lockoutDurationSeconds, now);
    }
  }

  // ---------------------------------------------------------------------
  // Several requests in a row

  /**
   * The user record after one wrong-password attempt per time in `times`,
   * every request passing the rate limit and the input schema.
   */
  function AfterFailures(cfg: LoginConfig, req: LoginRequest, u: User,
                         passwordMatches: (string, string) -> bool, times: seq<int>): (v: User)
    ensures v == u.(failedLoginAttempts := v.failedLoginAttempts, lockedUntil := v.lockedUntil)
  {
    if times == [] then u
    else
      var before := AfterFailures(cfg, req, u, passwordMatches, times[..|times| - 1]);
      Applied(before, Decide(cfg, req, true, true, Some(before), passwordMatches, None,
                             times[|times| - 1]).write)
  }

  /** Below the maximum, each failure adds one to the counter and sets no lock. */
  lemma {:induction false} FailuresCountUp(cfg: LoginConfig, req: LoginRequest, u: User,
                                           passwordMatches: (string, string) -> bool, times: seq<int>)
    requires !u.isBanned && u.lockedUntil.None?
    requires !passwordMatches(u.passwordHash, req.input.password)
    requires u.failedLoginAttempts + |times| < cfg.maxFailedLogins
    ensures AfterFailures(cfg, req, u, passwordMatches, times)
            == u.(failedLoginAttempts := u.failedLoginAttempts + |times|)
  {
    if times != [] {
      FailuresCountUp(cfg, req, u, passwordMatches, times[..|times| - 1]);
    }
  }

  /**
   * The failure that brings the counter to the maximum locks the account
   * until its time plus the lockout duration and zeroes the counter.
   */
  lemma FailuresTripLock(cfg: LoginConfig, req: LoginRequest, u: User,
                         passwordMatches: (string, string) -> bool, times: seq<int>)
    requires !u.isBanned && u.lockedUntil.None?
    requires !passwordMatches(u.passwordHash, req.input.password)
    requires |times| >= 1 && u.failedLoginAttempts + |times| == cfg.maxFailedLogins
    ensures AfterFailures(cfg, req, u, passwordMatches, times)
            == u.(failedLoginAttempts := 0,
                  lockedUntil := Some(times[|times| - 1] + cfg.lockoutDurationSeconds))
  {
    FailuresCountUp(cfg, req, u, passwordMatches, times[..|times| - 1]);
  }

  /**
   * While a lock holds, any request that reaches the user gets 403
   * ACCOUNT_LOCKED, whatever the password, and leaves the record as it is:
   * repeated attempts do not move the counter until the lock expires.
   */
  lemma LockedAttemptsChangeNothing(cfg: LoginConfig, req: LoginRequest, rateLimitAllows: bool, u: User,
                                    passwordMatches: (string, string) -> bool,
                                    session: Option<Session>, now: int)
    requires PassesEarlyGates(cfg, req, rateLimitAllows, true)
    requires !u.isBanned && IsLocked(u.lockedUntil, now)
    ensures var o := Decide(cfg, req, rateLimitAllows, true, Some(u), passwordMatches, session, now);
            o.response == Failure(403, AccountLocked) && Applied(u, o.write) == u
  {
  }

  /**
   * Three wrong passwords with a maximum of three: the third is answered
   * 401 INVALID_CREDENTIALS, and a request within the lockout duration
   * after it gets 403 ACCOUNT_LOCKED.
   */
  lemma ThreeFailuresThenLocked(cfg: LoginConfig, req: LoginRequest, u: User,
                                passwordMatches: (string, string) -> bool,
                                t1: int, t2: int, t3: int, t4: int, session: Option<Session>)
    requires cfg.maxFailedLogins == 3 && cfg.lockoutDurationSeconds > 0
    requires !u.isBanned && u.lockedUntil.None? && u.failedLoginAttempts == 0
    requires !passwordMatches(u.passwordHash, req.input.password)
    requires t3 <= t4 < t3 + cfg.lockoutDurationSeconds
    ensures var second := AfterFailures(cfg, req, u, passwordMatches, [t1, t2]);
            Decide(cfg, req, true, true, Some(second), passwordMatches, None, t3).response
              == Failure(401, InvalidCredentials)
    ensures var third := AfterFailures(cfg, req, u, passwordMatches, [t1, t2, t3]);
            Decide(cfg, req, true, true, Some(third), passwordMatches, session, t4).response
              == Failure(403, AccountLocked)
  {
    FailuresCountUp(cfg, req, u, passwordMatches, [t1, t2]);
    assert [t1, t2, t3][..2] == [t1, t2];
    FailuresTripLock(cfg, req, u, passwordMatches, [t1, t2, t3]);
  }

  /**
   * Once the lock has expired, the right password with a verified email and
   * a session logs in and clears both lockout fields.
   */
  lemma LoginAfterExpiry(cfg: LoginConfig, req: LoginRequest, u: User,
                         passwordMatches: (string, string) -> bool, session: Session, now: int)
    requires PassesEarlyGates(cfg, req, true, true)
    requires !u.isBanned && u.lockedUntil.Some? && u.lockedUntil.value <= now
    requires passwordMatches(u.passwordHash, req.input.password) && u.isEmailVerified
    ensures var o := Decide(cfg, req, true, true, Some(u), passwordMatches, Some(session), now);
            && o.response == Success(200, SafeView(u), session)
            && Applied(u, o.write) == u.(failedLoginAttempts := 0, lockedUntil := None)
  {
  }

  // ---------------------------------------------------------------------
  // With the password records of PasswordHashing

  /**
   * When the password check is `verifyPassword` and the stored hash was
   * made by `hashPassword` from a password with the same NFKC form as the
   * one typed, a verified, unbanned, unlocked user with a session logs in.
   */
  lemma HashedPasswordLogsIn(cfg: LoginConfig, req: LoginRequest, u: User, password: string,
                             saltBytes: seq<Hex.byte>, hashing: PasswordHashing.HashingConfig,
                             nfkc: PasswordHashing.Normalizer, kdf: PasswordHashing.Kdf,
                             session: Session, now: int)
    requires PassesEarlyGates(cfg, req, true, true)
    requires !u.isBanned && !IsLocked(u.lockedUntil, now) && u.isEmailVerified
    requires |saltBytes| == PasswordHashing.SaltLength
    requires PasswordHashing.HashPassword(password, saltBytes, hashing, nfkc, kdf).Ok?
    requires u.passwordHash == PasswordHashing.HashPassword(password, saltBytes, hashing, nfkc, kdf).value
    requires nfkc(req.input.password) == nfkc(password)
    ensures var matches := (h: string, p: string) =>
              PasswordHashing.VerifyPassword(h, p, hashing, nfkc, kdf) == Ok(true);
            Decide(cfg, req, true, true, Some(u), matches, Some(session), now).response
              == Success(200, SafeView(u), session)
  {
    PasswordHashing.NormalizedEquivalent(password, req.input.password, saltBytes, hashing, nfkc, kdf);
  }
}
