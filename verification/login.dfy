/**
 * The login workflow (src/actions/loginUser.ts).
 *
 * `Decide` states, as a function, what one login request does: the
 * response, the single write to the user record (if any) and the security
 * events logged, in order. `LoginUser` is the workflow itself, written as
 * the source writes it, over a user store and an event log, and is proved
 * to do what `Decide` says.
 *
 * The rate-limit verdict, the input-schema verdict, the password check and
 * the created session are parameters: they come from code outside this
 * model (the Upstash store, the zod schema, scrypt, `createSession`).
 */
module LoginWorkflow {
  import opened Common
  import opened LockoutPolicy

  type UserId = string

  /** The fields of the persisted user that the workflow reads or writes. */
  datatype User = User(
    id: UserId,
    email: string,
    username: string,
    passwordHash: string,
    failedLoginAttempts: nat,
    lockedUntil: Option<int>,
    isBanned: bool,
    isEmailVerified: bool)

  /** The view of a user returned to the client; it has no password hash. */
  datatype ClientUser = ClientUser(id: UserId, email: string, username: string)

  datatype Session = Session(token: string)

  datatype LoginInput = LoginInput(usernameOrEmail: string, password: string)

  datatype LoginRequest = LoginRequest(input: LoginInput, ipAddress: Option<string>)

  /** The configuration options the workflow consults. */
  datatype LoginConfig = LoginConfig(
    loginRateLimitEnabled: bool,
    maxFailedLogins: int,
    lockoutDurationSeconds: int,
    requireEmailVerification: bool)

  datatype ErrorCode =
    | RateLimitExceeded
    | InvalidInput
    | UserNotFound
    | AccountBanned
    | AccountLocked
    | InvalidCredentials
    | EmailNotVerified
    | InternalServerError

  /** Every security event but LOGIN_SUCCESS is named after an error code. */
  datatype EventKind = Rejected(code: ErrorCode) | LoginSuccess

  /**
   * A security event with its context: the route, the client address, the
   * user's id once the user is known, and the raw input (password included)
   * where the source spreads it into the context.
   */
  datatype Event = Event(
    kind: EventKind,
    route: string,
    ipAddress: Option<string>,
    userId: Option<UserId>,
    input: Option<LoginInput>)

  datatype Response =
    | Success(status: int, user: ClientUser, session: Session)
    | Failure(status: int, code: ErrorCode)

  /** A write of the two lockout fields of one user record. */
  datatype Write = Write(id: UserId, failedLoginAttempts: nat, lockedUntil: Option<int>)

  /** Everything one request does. */
  datatype Outcome = Outcome(response: Response, write: Option<Write>, events: seq<Event>)

  const Route: string := "login"

  /** The rate limiter is consulted only when enabled and an address is known. */
  predicate RateLimitApplies(cfg: LoginConfig, req: LoginRequest)
  {
    cfg.loginRateLimitEnabled && Truthy(req.ipAddress)
  }

  /** The user lookup matches the identifier against email or username. */
  predicate Matches(u: User, usernameOrEmail: string)
  {
    u.email == usernameOrEmail || u.username == usernameOrEmail
  }

  /** `found` is a possible answer of the lookup over `users`. */
  ghost predicate IsLookupResult(users: map<UserId, User>, usernameOrEmail: string, found: Option<User>)
  {
    match found
    case None => forall id :: id in users ==> !Matches(users[id], usernameOrEmail)
    case Some(u) => u.id in users && users[u.id] == u && Matches(u, usernameOrEmail)
  }

  function SafeView(u: User): ClientUser
  {
    ClientUser(u.id, u.email, u.username)
  }

  function UserEvent(kind: EventKind, req: LoginRequest, u: User): Event
  {
    Event(kind, Route, req.ipAddress, Some(u.id), None)
  }

  /** The workflow as one decision: the gates in the order the source checks them. */
  function Decide(cfg: LoginConfig, req: LoginRequest, rateLimitAllows: bool, inputValid: bool,
                  found: Option<User>, passwordMatches: (string, string) -> bool,
                  session: Option<Session>, now: int): (o: Outcome)
    ensures o.write.Some? ==> found.Some? && o.write.value.id == found.value.id
    ensures o.response.Success? <==> found.Some? && UserEvent(LoginSuccess, req, found.value) in o.events
    ensures o.response.Success? ==> o.response.status == 200
    ensures o.response.Failure? ==> o.response.status in {400, 401, 403, 404, 429, 500}
  {
    if RateLimitApplies(cfg, req) && !rateLimitAllows then
      Outcome(Failure(429, RateLimitExceeded), None,
              [Event(Rejected(RateLimitExceeded), Route, req.ipAddress, None, None)])
    else if !inputValid then
      Outcome(Failure(400, InvalidInput), None,
              [Event(Rejected(InvalidInput), Route, req.ipAddress, None, Some(req.input))])
    else if found.None? then
      Outcome(Failure(404, UserNotFound), None,
              [Event(Rejected(UserNotFound), Route, req.ipAddress, None, Some(req.input))])
    else
      var user := found.value;
      if user.isBanned then
        Outcome(Failure(403, AccountBanned), None, [UserEvent(Rejected(AccountBanned), req, user)])
      else if IsLocked(user.lockedUntil, now) then
        Outcome(Failure(403, AccountLocked), None, [UserEvent(Rejected(AccountLocked), req, user)])
      else if !passwordMatches(user.passwordHash, req.input.password) then
        var b := OnFailedAttempt(user.failedLoginAttempts, cfg.maxFailedLogins,
                                 cfg.lockoutDurationSeconds, now);
        Outcome(Failure(401, InvalidCredentials),
                Some(Write(user.id, b.failedLoginAttempts, b.lockedUntil)),
                [UserEvent(Rejected(InvalidCredentials), req, user)]
                + if b.lockedUntil.Some? then [UserEvent(Rejected(AccountLocked), req, user)] else [])
      else if !user.isEmailVerified && cfg.requireEmailVerification then
        Outcome(Failure(403, EmailNotVerified), None, [UserEvent(Rejected(EmailNotVerified), req, user)])
      else if session.None? then
        Outcome(Failure(500, InternalServerError), Some(Write(user.id, 0, None)), [])
      else
        Outcome(Success(200, SafeView(user), session.value), Some(Write(user.id, 0, None)),
                [UserEvent(LoginSuccess, req, user)])
  }

  /** A write applied to one user record. */
  function Applied(u: User, w: Option<Write>): User
  {
    if w.Some? && w.value.id == u.id then
      u.(failedLoginAttempts := w.value.failedLoginAttempts, lockedUntil := w.value.lockedUntil)
    else u
  }

  /** A write applied to the whole store. */
  function ApplyWrite(users: map<UserId, User>, w: Option<Write>): map<UserId, User>
  {
    if w.Some? && w.value.id in users then users[w.value.id := Applied(users[w.value.id], w)]
    else users
  }

  // ---------------------------------------------------------------------
  // The imperative workflow

  /** The persisted users, keyed by id. */
  class UserStore {
    var users: map<UserId, User>

    ghost predicate Valid()
      reads this
    {
      forall id :: id in users ==> users[id].id == id
    }

    constructor (initial: map<UserId, User>)
      requires forall id :: id in initial ==> initial[id].id == id
      ensures Valid() && users == initial
    {
      users := initial;
    }

    /** `prisma.user.findFirst` by email or username; any match may come back. */
    method FindFirst(usernameOrEmail: string) returns (found: Option<User>)
      requires Valid()
      ensures IsLookupResult(users, usernameOrEmail, found)
    {
      if exists id :: id in users && Matches(users[id], usernameOrEmail) {
        var id :| id in users && Matches(users[id], usernameOrEmail);
        found := Some(users[id]);
      } else {
        found := None;
      }
    }

    /** `prisma.user.update` of the two lockout fields. */
    method UpdateSecurityState(id: UserId, failedLoginAttempts: nat, lockedUntil: Option<int>)
      requires Valid() && id in users
      modifies this
      ensures Valid()
      ensures users == old(users)[id := old(users)[id].(failedLoginAttempts := failedLoginAttempts,
                                                        lockedUntil := lockedUntil)]
    {
      users := users[id := users[id].(failedLoginAttempts := failedLoginAttempts, lockedUntil := lockedUntil)];
    }
  }

  /** The security-event logger, as the sequence of events recorded so far. */
  class SecurityLog {
    var events: seq<Event>

    constructor ()
      ensures events == []
    {
      events := [];
    }

    method Record(e: Event)
      modifies this
      ensures events == old(events) + [e]
    {
      events := events + [e];
    }
  }

  /**
   * `loginUser`. `found` is the lookup's answer, for the specification only;
   * it is None when the request is turned away before the lookup.
   */
  method LoginUser(cfg: LoginConfig, req: LoginRequest, store: UserStore, log: SecurityLog, now: int,
                   rateLimitAllows: bool, inputValid: bool,
                   passwordMatches: (string, string) -> bool, session: Option<Session>)
    returns (response: Response, ghost found: Option<User>)
    requires store.Valid()
    modifies store, log
    ensures store.Valid()
    ensures (!RateLimitApplies(cfg, req) || rateLimitAllows) && inputValid ==>
              IsLookupResult(old(store.users), req.input.usernameOrEmail, found)
    ensures var o := Decide(cfg, req, rateLimitAllows, inputValid, found, passwordMatches, session, now);
            && response == o.response
            && store.users == ApplyWrite(old(store.users), o.write)
            && log.events == old(log.events) + o.events
  {
    found := None;
    if cfg.loginRateLimitEnabled && Truthy(req.ipAddress) {
      if !rateLimitAllows {
        log.Record(Event(Rejected(RateLimitExceeded), Route, req.ipAddress, None, None));
        return Failure(429, RateLimitExceeded), found;
      }
    }

    if !inputValid {
      log.Record(Event(Rejected(InvalidInput), Route, req.ipAddress, None, Some(req.input)));
      return Failure(400, InvalidInput), found;
    }

    var user := store.FindFirst(req.input.usernameOrEmail);
    found := user;
    if user.None? {
      log.Record(Event(Rejected(UserNotFound), Route, req.ipAddress, None, Some(req.input)));
      return Failure(404, UserNotFound), found;
    }
    var u := user.value;

    if u.isBanned {
      log.Record(UserEvent(Rejected(AccountBanned), req, u));
      return Failure(403, AccountBanned), found;
    }

    if u.lockedUntil.Some? && u.lockedUntil.value > now {
      log.Record(UserEvent(Rejected(AccountLocked), req, u));
      return Failure(403, AccountLocked), found;
    }

    var passwordMatch := passwordMatches(u.passwordHash, req.input.password);
    if !passwordMatch {
      log.Record(UserEvent(Rejected(InvalidCredentials), req, u));
      var failedLoginAttempts := u.failedLoginAttempts + 1;
      var lockedUntil: Option<int> := None;
      if failedLoginAttempts >= cfg.maxFailedLogins {
        lockedUntil := Some(now + cfg.lockoutDurationSeconds);
        failedLoginAttempts := 0;
        log.Record(UserEvent(Rejected(AccountLocked), req, u));
      }
      store.UpdateSecurityState(u.id, failedLoginAttempts, lockedUntil);
      return Failure(401, InvalidCredentials), found;
    }

    if !u.isEmailVerified && cfg.requireEmailVerification {
      log.Record(UserEvent(Rejected(EmailNotVerified), req, u));
      return Failure(403, EmailNotVerified), found;
    }

    store.UpdateSecurityState(u.id, 0, None);

    if session.None? {
      return Failure(500, InternalServerError), found;
    }

    log.Record(UserEvent(LoginSuccess, req, u));
    response := Success(200, SafeView(u), session.value);
  }
}
