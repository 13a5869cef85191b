/**
 * The legacy Matrix `/login` endpoint: the advertised login flows, the
 * request's credentials, password login and SSO login-token exchange, and
 * the mapping of its errors to Matrix error responses.
 *
 * The repository is a transaction over in-memory tables; the handler
 * commits it only when it succeeds. The clock is an integer in
 * microseconds; the rate limiter, the password verifier and the
 * homeserver's device provisioning are oracles given as parameters.
 */
module CompatLogin {
  import opened Results
  import opened Text
  import opened MatrixIds

  // ---------------------------------------------------------------------
  // Login flows

  datatype LoginType =
    | PasswordFlow
    | SsoFlow(identityProviders: seq<string>, delegatedOidcCompatibility: bool)
    | TokenFlow

  /** `get`: the flows offered; password login only when it is enabled. */
  function LoginFlows(passwordEnabled: bool): (flows: seq<LoginType>)
    ensures PasswordFlow in flows <==> passwordEnabled
    ensures SsoFlow([], true) in flows && TokenFlow in flows
    ensures flows[|flows| - 1] == TokenFlow
  {
    if passwordEnabled then [PasswordFlow, SsoFlow([], true), TokenFlow]
    else [SsoFlow([], true), TokenFlow]
  }

  // ---------------------------------------------------------------------
  // Request and errors

  datatype Identifier = UserIdentifier(user: string) | UnsupportedIdentifierType

  datatype Credentials =
    | PasswordCredentials(identifier: Option<Identifier>, user: Option<string>, password: string)
    | TokenCredentials(token: string)
    | UnsupportedCredentials

  /** The request body; `refresh_token` defaults to false when absent. */
  datatype RequestBody = RequestBody(credentials: Credentials, refreshToken: bool)

  /** Why the JSON body was rejected before the handler ran. */
  datatype JsonRejection = MissingJsonContentType | JsonSyntaxError | JsonDataError | OtherRejection

  datatype RouteError =
    | Internal
    | Unsupported
    | UnsupportedIdentifier
    | MissingIdentifier
    | UserNotFound
    | SessionNotFound
    | NoPassword
    | PasswordVerificationFailed
    | RateLimited
    | LoginTookTooLong
    | InvalidLoginToken
    | InvalidJsonBody(rejection: JsonRejection)
    | ProvisionDeviceFailed

  datatype MatrixError = MatrixError(errcode: string, error: string, status: int)

  /** The errors a client must not be able to tell apart: wrong user, no password, wrong password. */
  predicate CredentialError(e: RouteError)
  {
    e == UserNotFound || e == NoPassword || e == PasswordVerificationFailed
  }

  /** `into_response`: every error has an error code, a message and a status. */
  function IntoResponse(e: RouteError): (m: MatrixError)
    ensures CredentialError(e) ==> m == MatrixError("M_FORBIDDEN", "Invalid username/password", 403)
    ensures e == RateLimited ==> m == MatrixError("M_LIMIT_EXCEEDED", "Too many login attempts", 429)
    ensures m.status == 500 ==> m == MatrixError("M_UNKNOWN", "Internal server error", 500)
    ensures m.status == 429 <==> e == RateLimited
    ensures m.status == 500 <==> e == Internal || e == SessionNotFound || e == ProvisionDeviceFailed
    ensures m.status == 403 <==> CredentialError(e) || e == LoginTookTooLong || e == InvalidLoginToken
    ensures m.status == 400 <==> e.InvalidJsonBody? || e == Unsupported || e == UnsupportedIdentifier || e == MissingIdentifier
  {
    match e
    case Internal => MatrixError("M_UNKNOWN", "Internal server error", 500)
    case SessionNotFound => MatrixError("M_UNKNOWN", "Internal server error", 500)
    case ProvisionDeviceFailed => MatrixError("M_UNKNOWN", "Internal server error", 500)
    case RateLimited => MatrixError("M_LIMIT_EXCEEDED", "Too many login attempts", 429)
    case InvalidJsonBody(MissingJsonContentType) =>
      MatrixError("M_NOT_JSON", "Invalid Content-Type header: expected application/json", 400)
    case InvalidJsonBody(JsonSyntaxError) => MatrixError("M_NOT_JSON", "Body is not a valid JSON document", 400)
    case InvalidJsonBody(JsonDataError) => MatrixError("M_BAD_JSON", "JSON fields are not valid", 400)
    case InvalidJsonBody(OtherRejection) => MatrixError("M_UNKNOWN", "Unknown error while parsing JSON body", 400)
    case Unsupported => MatrixError("M_UNKNOWN", "Invalid login type", 400)
    case UnsupportedIdentifier => MatrixError("M_UNKNOWN", "Unsupported login identifier", 400)
    case MissingIdentifier => MatrixError("M_BAD_JSON", "Missing property 'identifier", 400)
    case UserNotFound => MatrixError("M_FORBIDDEN", "Invalid username/password", 403)
    case NoPassword => MatrixError("M_FORBIDDEN", "Invalid username/password", 403)
    case PasswordVerificationFailed => MatrixError("M_FORBIDDEN", "Invalid username/password", 403)
    case LoginTookTooLong => MatrixError("M_FORBIDDEN", "Login token expired", 403)
    case InvalidLoginToken => MatrixError("M_FORBIDDEN", "Invalid login token", 403)
  }

  /** An unknown user, a user without password and a wrong password get the very same answer. */
  lemma CredentialErrorsIndistinguishable(e1: RouteError, e2: RouteError)
    requires CredentialError(e1) && CredentialError(e2)
    ensures IntoResponse(e1) == IntoResponse(e2)
  {
  }

  /**
   * The user to log in as: the deprecated flat `user` field wins whenever it
   * is present; otherwise a `m.id.user` identifier supplies it.
   */
  function ResolveUsername(identifier: Option<Identifier>, user: Option<string>): (r: Result<string, RouteError>)
    ensures user.Some? ==> r == Ok(user.value)
    ensures user.None? && identifier.Some? && identifier.value.UserIdentifier? ==> r == Ok(identifier.value.user)
    ensures user.None? && identifier == Some(UnsupportedIdentifierType) ==> r == Err(UnsupportedIdentifier)
    ensures user.None? && identifier.None? ==> r == Err(MissingIdentifier)
  {
    match (identifier, user)
    case (_, Some(u)) => Ok(u)
    case (Some(UserIdentifier(u)), None) => Ok(u)
    case (Some(UnsupportedIdentifierType), None) => Err(UnsupportedIdentifier)
    case (None, None) => Err(MissingIdentifier)
  }

  /** The username looked up: the localpart of a full Matrix ID on this server, or the input as given. */
  function LookupName(username: string, server: string): (r: string)
  {
    var l := LocalpartOf(username, server);
    if l.Some? then l.value else username
  }

  /** A Matrix ID of this server resolves to its localpart; a bare localpart without `@` is kept. */
  lemma LookupNameOfMxid(localpart: string, server: string)
    ensures LookupName(Mxid(localpart, server), server) == localpart
    ensures |localpart| == 0 || localpart[0] != '@' ==> LookupName(localpart, server) == localpart
  {
    LocalpartOfMxid(localpart, server);
  }

  // ---------------------------------------------------------------------
  // SSO login tokens

  datatype SsoLoginState =
    | SsoPending
    | SsoFulfilled(fulfilledAt: int, sessionId: nat)
    | SsoExchanged(fulfilledAt: int, exchangedAt: int, sessionId: nat)

  datatype SsoLogin = SsoLogin(id: nat, token: string, state: SsoLoginState)

  /** How long after the SSO flow completed its token may be exchanged: 30 seconds, in microseconds. */
  const LoginTokenWindow: int := 30 * 1000 * 1000

  /** The session a login token stands for, at time `now`. */
  function TokenSession(state: SsoLoginState, now: int): (r: Result<nat, RouteError>)
    ensures r.Ok? <==> state.SsoFulfilled? && now <= state.fulfilledAt + LoginTokenWindow
    ensures r.Ok? ==> r.value == state.sessionId
    ensures state.SsoPending? || state.SsoExchanged? ==> r == Err(InvalidLoginToken)
    ensures state.SsoFulfilled? && now > state.fulfilledAt + LoginTokenWindow ==> r == Err(LoginTookTooLong)
  {
    match state
    case SsoPending => Err(InvalidLoginToken)
    case SsoFulfilled(fulfilledAt, sessionId) =>
      if now > fulfilledAt + LoginTokenWindow then Err(LoginTookTooLong) else Ok(sessionId)
    case SsoExchanged(_, _, _) => Err(InvalidLoginToken)
  }

  /** The window is closed on the right: exactly 30 seconds later still works, one microsecond more does not. */
  lemma TokenWindowBoundary(fulfilledAt: int, sessionId: nat)
    ensures TokenSession(SsoFulfilled(fulfilledAt, sessionId), fulfilledAt + 30_000_000) == Ok(sessionId)
    ensures TokenSession(SsoFulfilled(fulfilledAt, sessionId), fulfilledAt + 30_000_001) == Err(LoginTookTooLong)
  {
  }

  // ---------------------------------------------------------------------
  // Repository contents

  datatype User = User(id: nat, username: string, locked: bool, deactivated: bool)

  /** `User::is_valid`: neither locked nor deactivated. */
  predicate IsValid(u: User)
  {
    !u.locked && !u.deactivated
  }

  datatype UserPassword = UserPassword(id: nat, version: nat, hashedPassword: string, upgradedFrom: Option<nat>)

  datatype CompatSession = CompatSession(
    id: nat, userId: nat, device: Option<string>, userAgent: Option<string>, isSynapseAdmin: bool)

  datatype AccessToken = AccessToken(token: string, sessionId: nat, expiresInMs: Option<int>)
  datatype RefreshToken = RefreshToken(token: string, sessionId: nat, accessToken: string)

  /** The tables the handler reads and writes. */
  datatype Db = Db(
    users: map<nat, User>,
    usernames: map<string, nat>,
    passwords: map<nat, UserPassword>,
    ssoLogins: map<string, SsoLogin>,
    sessions: map<nat, CompatSession>,
    accessTokens: seq<AccessToken>,
    refreshTokens: seq<RefreshToken>)

  /** `find_by_username`. */
  function FindByUsername(db: Db, name: string): Option<User>
  {
    if name in db.usernames && db.usernames[name] in db.users then Some(db.users[db.usernames[name]]) else None
  }

  /** The outcome of the password manager's `verify_and_upgrade`. */
  datatype Verification = VerifyFailed | UpToDate | Upgraded(version: nat, hashedPassword: string)

  /**
   * The outside world as the handler sees it: whether password login is
   * enabled, the homeserver's name, the TTL of refreshable tokens, the rate
   * limiter's verdict per user, the password verifier, and whether the
   * homeserver accepts a new device.
   */
  datatype Env = Env(
    passwordEnabled: bool,
    server: string,
    compatTokenTtlMs: int,
    limiterAllows: nat -> bool,
    verify: (UserPassword, string) -> Verification,
    provisionDevice: (string, string) -> bool)

  /** The values the handler draws from its random source. */
  datatype Generated = Generated(sessionId: nat, passwordId: nat, device: string, accessToken: string, refreshToken: string)

  datatype ResponseBody = ResponseBody(
    accessToken: string, deviceId: Option<string>, userId: string, refreshToken: Option<string>, expiresInMs: Option<int>)

  // ---------------------------------------------------------------------
  // The handler as functions of the tables

  /** `token_login`: the session and user of a fulfilled login token, whose login is then marked exchanged. */
  function TokenLoginSpec(db: Db, token: string, now: int): Result<(CompatSession, User, Db), RouteError>
  {
    if token !in db.ssoLogins then Err(InvalidLoginToken)
    else
      var login := db.ssoLogins[token];
      match TokenSession(login.state, now)
      case Err(e) => Err(e)
      case Ok(sessionId) =>
        if sessionId !in db.sessions then Err(SessionNotFound)
        else
          var session := db.sessions[sessionId];
          if session.userId !in db.users || !IsValid(db.users[session.userId]) then Err(UserNotFound)
          else
            var exchanged := login.(state := SsoExchanged(login.state.fulfilledAt, now, sessionId));
            Ok((session, db.users[session.userId], db.(ssoLogins := db.ssoLogins[token := exchanged])))
  }

  /**
   * `user_password_login`: find the user, check the rate limit, find the
   * password, verify it (storing an upgraded hash), provision the device,
   * and add the session.
   */
  function PasswordLoginSpec(db: Db, env: Env, gen: Generated, username: string, password: string)
    : Result<(CompatSession, User, Db), RouteError>
  {
    var found := FindByUsername(db, LookupName(username, env.server));
    if found.None? || !IsValid(found.value) then Err(UserNotFound)
    else
      var user := found.value;
      if !env.limiterAllows(user.id) then Err(RateLimited)
      else if user.id !in db.passwords then Err(NoPassword)
      else
        var current := db.passwords[user.id];
        match env.verify(current, password)
        case VerifyFailed => Err(PasswordVerificationFailed)
        case UpToDate => AddSessionSpec(db, env, gen, user)
        case Upgraded(version, hash) =>
          var upgraded := UserPassword(gen.passwordId, version, hash, Some(current.id));
          AddSessionSpec(db.(passwords := db.passwords[user.id := upgraded]), env, gen, user)
  }

  /** The device is provisioned on the homeserver first; only then is the session added. */
  function AddSessionSpec(db: Db, env: Env, gen: Generated, user: User): Result<(CompatSession, User, Db), RouteError>
  {
    if !env.provisionDevice(Mxid(user.username, env.server), gen.device) then Err(ProvisionDeviceFailed)
    else
      var session := CompatSession(gen.sessionId, user.id, Some(gen.device), None, false);
      Ok((session, user, db.(sessions := db.sessions[session.id := session])))
  }

  /** Which credentials are handled: password ones only when enabled, token ones always. */
  function LoginSpec(db: Db, env: Env, gen: Generated, credentials: Credentials, now: int)
    : Result<(CompatSession, User, Db), RouteError>
  {
    match credentials
    case PasswordCredentials(identifier, user, password) =>
      if !env.passwordEnabled then Err(Unsupported)
      else
        (match ResolveUsername(identifier, user)
         case Err(e) => Err(e)
         case Ok(name) => PasswordLoginSpec(db, env, gen, name, password))
    case TokenCredentials(token) => TokenLoginSpec(db, token, now)
    case UnsupportedCredentials => Err(Unsupported)
  }

  /**
   * `post`: log in, record the user agent, add the access token (expiring
   * only when a refresh token is requested) and the refresh token, and
   * answer. The tables it returns are the ones committed.
   */
  function PostSpec(db: Db, env: Env, gen: Generated, body: RequestBody, userAgent: Option<string>, now: int)
    : (r: Result<(ResponseBody, Db), RouteError>)
    ensures r.Ok? ==> (r.value.0.refreshToken.Some? <==> body.refreshToken)
    ensures r.Ok? ==> r.value.0.expiresInMs == (if body.refreshToken then Some(env.compatTokenTtlMs) else None)
    ensures r.Ok? ==> r.value.0.accessToken == gen.accessToken
  {
    match LoginSpec(db, env, gen, body.credentials, now)
    case Err(e) => Err(e)
    case Ok((session0, user, db1)) =>
      var session := if userAgent.Some? then session0.(userAgent := userAgent) else session0;
      var db2 := if userAgent.Some? then db1.(sessions := db1.sessions[session.id := session]) else db1;
      var expiresIn := if body.refreshToken then Some(env.compatTokenTtlMs) else None;
      var db3 := db2.(accessTokens := db2.accessTokens + [AccessToken(gen.accessToken, session.id, expiresIn)]);
      var db4 := if body.refreshToken
        then db3.(refreshTokens := db3.refreshTokens + [RefreshToken(gen.refreshToken, session.id, gen.accessToken)])
        else db3;
      var refresh := if body.refreshToken then Some(gen.refreshToken) else None;
      Ok((ResponseBody(gen.accessToken, session.device, Mxid(user.username, env.server), refresh, expiresIn), db4))
  }

  // ---------------------------------------------------------------------
  // The handler over a repository transaction

  /** A repository transaction: the tables, changed in place step by step. */
  class Transaction {
    var users: map<nat, User>
    var usernames: map<string, nat>
    var passwords: map<nat, UserPassword>
    var ssoLogins: map<string, SsoLogin>
    var sessions: map<nat, CompatSession>
    var accessTokens: seq<AccessToken>
    var refreshTokens: seq<RefreshToken>

    function Contents(): Db
      reads this
    {
      Db(users, usernames, passwords, ssoLogins, sessions, accessTokens, refreshTokens)
    }

    /** Opens a transaction over the committed tables. */
    constructor (db: Db)
      ensures Contents() == db
    {
      users := db.users;
      usernames := db.usernames;
      passwords := db.passwords;
      ssoLogins := db.ssoLogins;
      sessions := db.sessions;
      accessTokens := db.accessTokens;
      refreshTokens := db.refreshTokens;
    }

    method TokenLogin(token: string, now: int) returns (r: Result<(CompatSession, User), RouteError>)
      modifies this
      ensures var spec := TokenLoginSpec(old(Contents()), token, now);
        (spec.Ok? ==> r == Ok((spec.value.0, spec.value.1)) && Contents() == spec.value.2)
        && (spec.Err? ==> r == Err(spec.error))
    {
      if token !in ssoLogins {
        return Err(InvalidLoginToken);
      }
      var login := ssoLogins[token];
      var sessionId: nat;
      match login.state {
        case SsoPending =>
          return Err(InvalidLoginToken);
        case SsoFulfilled(fulfilledAt, id) =>
          if now > fulfilledAt + LoginTokenWindow {
            return Err(LoginTookTooLong);
          }
          sessionId := id;
        case SsoExchanged(_, _, _) =>
          return Err(InvalidLoginToken);
      }
      if sessionId !in sessions {
        return Err(SessionNotFound);
      }
      var session := sessions[sessionId];
      if session.userId !in users || !IsValid(users[session.userId]) {
        return Err(UserNotFound);
      }
      var user := users[session.userId];
      ssoLogins := ssoLogins[token := login.(state := SsoExchanged(login.state.fulfilledAt, now, sessionId))];
      return Ok((session, user));
    }

    method UserPasswordLogin(env: Env, gen: Generated, username: string, password: string)
      returns (r: Result<(CompatSession, User), RouteError>)
      modifies this
      ensures var spec := PasswordLoginSpec(old(Contents()), env, gen, username, password);
        (spec.Ok? ==> r == Ok((spec.value.0, spec.value.1)) && Contents() == spec.value.2)
        && (spec.Err? ==> r == Err(spec.error))
    {
      var name := LookupName(username, env.server);
      if name !in usernames || usernames[name] !in users || !IsValid(users[usernames[name]]) {
        return Err(UserNotFound);
      }
      var user := users[usernames[name]];
      if !env.limiterAllows(user.id) {
        return Err(RateLimited);
      }
      if user.id !in passwords {
        return Err(NoPassword);
      }
      var current := passwords[user.id];
      var verification := env.verify(current, password);
      if verification == VerifyFailed {
        return Err(PasswordVerificationFailed);
      }
      if verification.Upgraded? {
        passwords := passwords[user.id := UserPassword(gen.passwordId, verification.version, verification.hashedPassword, Some(current.id))];
      }
      if !env.provisionDevice(Mxid(user.username, env.server), gen.device) {
        return Err(ProvisionDeviceFailed);
      }
      var session := CompatSession(gen.sessionId, user.id, Some(gen.device), None, false);
      sessions := sessions[session.id := session];
      return Ok((session, user));
    }

    method RecordUserAgent(session: CompatSession, userAgent: string) returns (updated: CompatSession)
      modifies this
      ensures updated == session.(userAgent := Some(userAgent))
      ensures Contents() == old(Contents()).(sessions := old(sessions)[session.id := updated])
    {
      updated := session.(userAgent := Some(userAgent));
      sessions := sessions[session.id := updated];
    }

    method AddAccessToken(token: string, session: CompatSession, expiresInMs: Option<int>)
      modifies this
      ensures Contents() == old(Contents()).(accessTokens := old(accessTokens) + [AccessToken(token, session.id, expiresInMs)])
    {
      accessTokens := accessTokens + [AccessToken(token, session.id, expiresInMs)];
    }

    method AddRefreshToken(token: string, session: CompatSession, accessToken: string)
      modifies this
      ensures Contents() == old(Contents()).(refreshTokens := old(refreshTokens) + [RefreshToken(token, session.id, accessToken)])
    {
      refreshTokens := refreshTokens + [RefreshToken(token, session.id, accessToken)];
    }
  }

  /** The committed tables; `Post` runs in a transaction and commits it only on success. */
  class Database {
    var committed: Db

    constructor (db: Db)
      ensures committed == db
    {
      committed := db;
    }

    method Post(env: Env, gen: Generated, body: RequestBody, userAgent: Option<string>, now: int)
      returns (r: Result<ResponseBody, RouteError>)
      modifies this
      ensures var spec := PostSpec(old(committed), env, gen, body, userAgent, now);
        (spec.Ok? ==> r == Ok(spec.value.0) && committed == spec.value.1)
        && (spec.Err? ==> r == Err(spec.error) && committed == old(committed))
    {
      var txn := new Transaction(committed);
      var login: Result<(CompatSession, User), RouteError>;
      match body.credentials {
        case PasswordCredentials(identifier, user, password) =>
          if !env.passwordEnabled {
            return Err(Unsupported);
          }
          var name := ResolveUsername(identifier, user);
          if name.Err? {
            return Err(name.error);
          }
          login := txn.UserPasswordLogin(env, gen, name.value, password);
        case TokenCredentials(token) =>
          login := txn.TokenLogin(token, now);
        case UnsupportedCredentials =>
          return Err(Unsupported);
      }
      if login.Err? {
        return Err(login.error);
      }
      var session := login.value.0;
      var user := login.value.1;
      if userAgent.Some? {
        session := txn.RecordUserAgent(session, userAgent.value);
      }
      var expiresIn := if body.refreshToken then Some(env.compatTokenTtlMs) else None;
      txn.AddAccessToken(gen.accessToken, session, expiresIn);
      var refresh: Option<string> := None;
      if body.refreshToken {
        txn.AddRefreshToken(gen.refreshToken, session, gen.accessToken);
        refresh := Some(gen.refreshToken);
      }
      committed := txn.Contents();
      return Ok(ResponseBody(gen.accessToken, session.device, Mxid(user.username, env.server), refresh, expiresIn));
    }
  }

  // ---------------------------------------------------------------------
  // Properties

  /** With password login disabled, password credentials are unsupported; token credentials are handled either way. */
  lemma PasswordLoginGate(db: Db, env: Env, gen: Generated, credentials: Credentials, now: int)
    ensures !env.passwordEnabled && credentials.PasswordCredentials? ==>
      LoginSpec(db, env, gen, credentials, now) == Err(Unsupported)
    ensures credentials.TokenCredentials? ==>
      LoginSpec(db, env, gen, credentials, now) == LoginSpec(db, env.(passwordEnabled := !env.passwordEnabled), gen, credentials, now)
    ensures credentials.UnsupportedCredentials? ==> LoginSpec(db, env, gen, credentials, now) == Err(Unsupported)
  {
  }

  /**
   * A rate-limited request is refused before the password is looked up or
   * verified: the answer is the same whatever the password, the verifier,
   * and whether the user has a password at all.
   */
  lemma RateLimitBeforePassword(db: Db, env: Env, gen: Generated, username: string, password: string,
                                otherPassword: string, otherVerify: (UserPassword, string) -> Verification)
    requires FindByUsername(db, LookupName(username, env.server)).Some?
    requires IsValid(FindByUsername(db, LookupName(username, env.server)).value)
    requires !env.limiterAllows(FindByUsername(db, LookupName(username, env.server)).value.id)
    ensures PasswordLoginSpec(db, env, gen, username, password) == Err(RateLimited)
    ensures PasswordLoginSpec(db.(passwords := map[]), env.(verify := otherVerify), gen, username, otherPassword)
      == Err(RateLimited)
  {
    assert FindByUsername(db.(passwords := map[]), LookupName(username, env.server))
      == FindByUsername(db, LookupName(username, env.server));
  }

  /** An invalid (locked or deactivated) user is answered exactly like a missing one. */
  lemma InvalidUserIsNotFound(db: Db, env: Env, gen: Generated, username: string, password: string)
    requires FindByUsername(db, LookupName(username, env.server)).Some?
    requires !IsValid(FindByUsername(db, LookupName(username, env.server)).value)
    ensures PasswordLoginSpec(db, env, gen, username, password) == Err(UserNotFound)
    ensures IntoResponse(UserNotFound) == IntoResponse(PasswordVerificationFailed)
  {
  }

  /**
   * A successful password login stores an upgraded hash exactly when the
   * verifier returned one, and adds a session with the provisioned device;
   * the homeserver accepted that device.
   */
  lemma PasswordLoginEffects(db: Db, env: Env, gen: Generated, username: string, password: string)
    requires PasswordLoginSpec(db, env, gen, username, password).Ok?
    ensures var (session, user, next) := PasswordLoginSpec(db, env, gen, username, password).value;
      var v := env.verify(db.passwords[user.id], password);
      user.id in db.passwords && v != VerifyFailed
      && (v == UpToDate ==> next.passwords == db.passwords)
      && (v.Upgraded? ==> next.passwords == db.passwords[user.id := UserPassword(gen.passwordId, v.version, v.hashedPassword, Some(db.passwords[user.id].id))])
      && env.provisionDevice(Mxid(user.username, env.server), gen.device)
      && session == CompatSession(gen.sessionId, user.id, Some(gen.device), None, false)
      && next.sessions == db.sessions[gen.sessionId := session]
      && next.ssoLogins == db.ssoLogins && next.users == db.users
  {
  }

  /** If the homeserver refuses the device, the login fails and no session is created. */
  lemma ProvisionFailureAddsNoSession(db: Db, env: Env, gen: Generated, username: string, password: string)
    requires var u := FindByUsername(db, LookupName(username, env.server));
      u.Some? && IsValid(u.value) && env.limiterAllows(u.value.id) && u.value.id in db.passwords
      && env.verify(db.passwords[u.value.id], password) != VerifyFailed
      && !env.provisionDevice(Mxid(u.value.username, env.server), gen.device)
    ensures PasswordLoginSpec(db, env, gen, username, password) == Err(ProvisionDeviceFailed)
  {
  }

  /**
   * A successful token login marks only its own login exchanged, at `now`,
   * and leaves every other table as it was.
   */
  lemma TokenLoginEffects(db: Db, token: string, now: int)
    requires TokenLoginSpec(db, token, now).Ok?
    ensures var (session, user, next) := TokenLoginSpec(db, token, now).value;
      var login := db.ssoLogins[token];
      token in db.ssoLogins && login.state.SsoFulfilled?
      && login.state.sessionId in db.sessions && session == db.sessions[login.state.sessionId]
      && session.userId in db.users && user == db.users[session.userId] && IsValid(user)
      && next == db.(ssoLogins := db.ssoLogins[token := login.(state :=
           SsoExchanged(login.state.fulfilledAt, now, login.state.sessionId))])
  {
  }

  /** What `post` adds after logging in leaves the SSO logins alone. */
  lemma PostKeepsSsoLogins(db: Db, env: Env, gen: Generated, body: RequestBody, userAgent: Option<string>, now: int)
    requires PostSpec(db, env, gen, body, userAgent, now).Ok?
    ensures PostSpec(db, env, gen, body, userAgent, now).value.1.ssoLogins
      == LoginSpec(db, env, gen, body.credentials, now).value.2.ssoLogins
  {
  }

  /**
   * A login token can be used once: after a successful exchange is
   * committed, presenting the same token again, at any time and with any
   * other request fields, is refused as an invalid token.
   */
  lemma LoginTokenSingleUse(db: Db, env: Env, gen: Generated, token: string, refresh: bool, userAgent: Option<string>,
                            now: int, env2: Env, gen2: Generated, refresh2: bool, userAgent2: Option<string>, later: int)
    requires PostSpec(db, env, gen, RequestBody(TokenCredentials(token), refresh), userAgent, now).Ok?
    ensures var next := PostSpec(db, env, gen, RequestBody(TokenCredentials(token), refresh), userAgent, now).value.1;
      PostSpec(next, env2, gen2, RequestBody(TokenCredentials(token), refresh2), userAgent2, later) == Err(InvalidLoginToken)
  {
    var body := RequestBody(TokenCredentials(token), refresh);
    PostKeepsSsoLogins(db, env, gen, body, userAgent, now);
    TokenLoginEffects(db, token, now);
    var next := PostSpec(db, env, gen, body, userAgent, now).value.1;
    assert next.ssoLogins[token].state.SsoExchanged?;
  }

  /**
   * A successful `post` adds exactly one access token, for the new
   * session, and a refresh token for it exactly when one was asked for.
   */
  lemma PostIssuesTokens(db: Db, env: Env, gen: Generated, body: RequestBody, userAgent: Option<string>, now: int)
    requires PostSpec(db, env, gen, body, userAgent, now).Ok?
    ensures var (response, next) := PostSpec(db, env, gen, body, userAgent, now).value;
      var session := LoginSpec(db, env, gen, body.credentials, now).value.0;
      next.accessTokens == db.accessTokens + [AccessToken(gen.accessToken, session.id, response.expiresInMs)]
      && (body.refreshToken ==> next.refreshTokens == db.refreshTokens + [RefreshToken(gen.refreshToken, session.id, gen.accessToken)])
      && (!body.refreshToken ==> next.refreshTokens == db.refreshTokens)
  {
    var login := LoginSpec(db, env, gen, body.credentials, now).value;
    assert login.2.accessTokens == db.accessTokens && login.2.refreshTokens == db.refreshTokens by {
      match body.credentials {
        case PasswordCredentials(identifier, user, password) =>
          var name := ResolveUsername(identifier, user).value;
          var u := FindByUsername(db, LookupName(name, env.server)).value;
          match env.verify(db.passwords[u.id], password) {
            case UpToDate =>
            case Upgraded(_, _) =>
          }
        case TokenCredentials(_) =>
      }
    }
  }
}
