/**
 * The per-row rules of the Synapse to MAS database migration. Synapse's
 * tables are read as sequences of rows; MAS's tables are written as the
 * lists of rows appended to the writer. Identifiers are ULIDs drawn from a
 * counter standing for the random source, stamped with a timestamp.
 */
module Migration {
  import opened Results
  import opened MatrixIds

  /** A ULID: a millisecond timestamp and the random part, here a counter value. */
  datatype Uuid = Ulid(timestamp: int, random: nat)

  // ---------------------------------------------------------------------
  // Synapse rows

  datatype SynapseUser = SynapseUser(
    name: string, creationTs: int, admin: bool, deactivated: bool, isGuest: bool, passwordHash: Option<string>)

  datatype SynapseThreepid = SynapseThreepid(userId: string, medium: string, address: string, addedAt: int)

  datatype SynapseExternalId = SynapseExternalId(userId: string, authProvider: string, subject: string)

  datatype SynapseDevice = SynapseDevice(
    userId: string, deviceId: string, displayName: Option<string>, lastSeen: Option<int>,
    ip: Option<string>, userAgent: Option<string>)

  datatype SynapseAccessToken = SynapseAccessToken(
    userId: string, deviceId: Option<string>, token: string, validUntilMs: Option<int>, lastValidated: Option<int>)

  datatype SynapseRefreshableTokenPair = SynapseRefreshableTokenPair(
    userId: string, deviceId: string, accessToken: string, refreshToken: string,
    validUntilMs: Option<int>, lastValidated: Option<int>)

  // ---------------------------------------------------------------------
  // MAS rows

  datatype MasNewUser = MasNewUser(
    userId: Uuid, username: string, createdAt: int, lockedAt: Option<int>, canRequestAdmin: bool, isGuest: bool)

  datatype MasNewUserPassword = MasNewUserPassword(userPasswordId: Uuid, userId: Uuid, hashedPassword: string, createdAt: int)

  datatype MasNewEmailThreepid = MasNewEmailThreepid(userId: Uuid, userEmailId: Uuid, email: string, createdAt: int)

  datatype MasNewUnsupportedThreepid = MasNewUnsupportedThreepid(userId: Uuid, medium: string, address: string, createdAt: int)

  datatype MasNewUpstreamOauthLink = MasNewUpstreamOauthLink(
    linkId: Uuid, userId: Uuid, upstreamProviderId: Uuid, subject: string, createdAt: int)

  /** An IP address as the MAS database stores it. */
  datatype IpAddr = IpAddr(text: string)

  datatype MasNewCompatSession = MasNewCompatSession(
    sessionId: Uuid, userId: Uuid, deviceId: Option<string>, humanName: Option<string>, createdAt: int,
    isSynapseAdmin: bool, lastActiveAt: Option<int>, lastActiveIp: Option<IpAddr>, userAgent: Option<string>)

  datatype MasNewCompatAccessToken = MasNewCompatAccessToken(
    tokenId: Uuid, sessionId: Uuid, accessToken: string, createdAt: int, expiresAt: Option<int>)

  datatype MasNewCompatRefreshToken = MasNewCompatRefreshToken(
    refreshTokenId: Uuid, sessionId: Uuid, accessTokenId: Uuid, refreshToken: string, createdAt: int)

  /** Everything written to MAS so far, table by table. */
  datatype Written = Written(
    users: seq<MasNewUser>,
    passwords: seq<MasNewUserPassword>,
    emails: seq<MasNewEmailThreepid>,
    unsupportedThreepids: seq<MasNewUnsupportedThreepid>,
    links: seq<MasNewUpstreamOauthLink>,
    compatSessions: seq<MasNewCompatSession>,
    accessTokens: seq<MasNewCompatAccessToken>,
    refreshTokens: seq<MasNewCompatRefreshToken>)

  const NothingWritten: Written := Written([], [], [], [], [], [], [], [])

  datatype MigrationError =
    | ExtractLocalpartFailed(user: string)
    | MissingUserFromDependentTable(table: string, user: string)
    | MissingAuthProviderMapping(synapseId: string, user: string)

  // ---------------------------------------------------------------------
  // User flags

  /** Three bits of a `u8`: Synapse admin, deactivated, guest. */
  type UserFlags = bv8

  const IsSynapseAdminFlag: UserFlags := 1
  const IsDeactivatedFlag: UserFlags := 2
  const IsGuestFlag: UserFlags := 4

  predicate HasFlag(flags: UserFlags, flag: UserFlags)
  {
    flags & flag == flag
  }

  /** The flags of a Synapse user, each bit set exactly when its Synapse column is true. */
  function FlagsOf(admin: bool, deactivated: bool, guest: bool): (flags: UserFlags)
    ensures HasFlag(flags, IsSynapseAdminFlag) <==> admin
    ensures HasFlag(flags, IsDeactivatedFlag) <==> deactivated
    ensures HasFlag(flags, IsGuestFlag) <==> guest
  {
    (if admin then IsSynapseAdminFlag else 0)
    | (if deactivated then IsDeactivatedFlag else 0)
    | (if guest then IsGuestFlag else 0)
  }

  datatype UserInfo = UserInfo(masUserId: Uuid, flags: UserFlags)

  /** Application-service users are recognised by a localpart starting with `_`. */
  predicate IsLikelyAppservice(localpart: string)
  {
    |localpart| > 0 && localpart[0] == '_'
  }

  // ---------------------------------------------------------------------
  // Migration state

  /**
   * The fixed inputs: the server name, the provider mapping, the injected
   * clock's reading, the system time that `Ulid::with_source` stamps, and
   * IP address parsing.
   */
  datatype Config = Config(
    serverName: string,
    providerIdMapping: map<string, Uuid>,
    clockNow: int,
    systemNow: int,
    parseIp: string -> Option<IpAddr>)

  /** The state carried from row to row and table to table. */
  datatype St = St(
    users: map<string, UserInfo>,
    devicesToCompatSessions: map<(Uuid, string), Uuid>,
    counter: nat,
    mas: Written)

  function ExtractLocalpart(user: string, server: string): (r: Result<string, MigrationError>)
    ensures r.Ok? ==> Mxid(r.value, server) == user
  {
    match LocalpartOf(user, server)
    case None => Err(ExtractLocalpartFailed(user))
    case Some(l) => Ok(l)
  }

  /**
   * The user a dependent row belongs to: `Some` when migrated, `None` when
   * the row is to be skipped as an application service's, and an error
   * naming the table otherwise.
   */
  function DependentUser(cfg: Config, st: St, user: string, table: string): (r: Result<Option<UserInfo>, MigrationError>)
  {
    match ExtractLocalpart(user, cfg.serverName)
    case Err(e) => Err(e)
    case Ok(l) =>
      if l in st.users then Ok(Some(st.users[l]))
      else if IsLikelyAppservice(l) then Ok(None)
      else Err(MissingUserFromDependentTable(table, user))
  }

  /** `transform_user`: the MAS user and, with a password hash, its password; ids are drawn in that order. */
  function TransformUser(u: SynapseUser, server: string, counter: nat): (r: Result<(MasNewUser, Option<MasNewUserPassword>, nat), MigrationError>)
    ensures r.Ok? ==> var (user, password, next) := r.value;
      (user.lockedAt.Some? <==> u.deactivated) && (u.deactivated ==> user.lockedAt == Some(u.creationTs))
      && user.canRequestAdmin == u.admin && user.isGuest == u.isGuest && user.createdAt == u.creationTs
      && Mxid(user.username, server) == u.name
      && (password.Some? <==> u.passwordHash.Some?)
      && (password.Some? ==> password.value.userId == user.userId && password.value.hashedPassword == u.passwordHash.value
                             && password.value.userPasswordId != user.userId)
      && next >= counter
  {
    match ExtractLocalpart(u.name, server)
    case Err(e) => Err(e)
    case Ok(username) =>
      var user := MasNewUser(Ulid(u.creationTs, counter), username, u.creationTs,
                             if u.deactivated then Some(u.creationTs) else None, u.admin, u.isGuest);
      if u.passwordHash.Some? then
        Ok((user, Some(MasNewUserPassword(Ulid(u.creationTs, counter + 1), user.userId, u.passwordHash.value, u.creationTs)), counter + 2))
      else Ok((user, None, counter + 1))
  }

  // ---------------------------------------------------------------------
  // One row of each table

  function UserStep(cfg: Config, st: St, u: SynapseUser): Result<St, MigrationError>
  {
    match TransformUser(u, cfg.serverName, st.counter)
    case Err(e) => Err(e)
    case Ok((user, password, next)) =>
      var info := UserInfo(user.userId, FlagsOf(u.admin, u.deactivated, u.isGuest));
      var mas := st.mas.(users := st.mas.users + [user]);
      var mas' := if password.Some? then mas.(passwords := mas.passwords + [password.value]) else mas;
      Ok(st.(users := st.users[user.username := info], counter := next, mas := mas'))
  }

  function ThreepidStep(cfg: Config, st: St, t: SynapseThreepid): Result<St, MigrationError>
  {
    match DependentUser(cfg, st, t.userId, "user_threepids")
    case Err(e) => Err(e)
    case Ok(None) => Ok(st)
    case Ok(Some(info)) =>
      if t.medium == "email" then
        var email := MasNewEmailThreepid(info.masUserId, Ulid(t.addedAt, st.counter), t.address, t.addedAt);
        Ok(st.(counter := st.counter + 1, mas := st.mas.(emails := st.mas.emails + [email])))
      else
        var other := MasNewUnsupportedThreepid(info.masUserId, t.medium, t.address, t.addedAt);
        Ok(st.(mas := st.mas.(unsupportedThreepids := st.mas.unsupportedThreepids + [other])))
  }

  function ExternalIdStep(cfg: Config, st: St, x: SynapseExternalId): Result<St, MigrationError>
  {
    match DependentUser(cfg, st, x.userId, "user_external_ids")
    case Err(e) => Err(e)
    case Ok(None) => Ok(st)
    case Ok(Some(info)) =>
      if x.authProvider !in cfg.providerIdMapping then Err(MissingAuthProviderMapping(x.authProvider, x.userId))
      else
        var createdTs := info.masUserId.timestamp;
        var link := MasNewUpstreamOauthLink(Ulid(createdTs, st.counter), info.masUserId,
                                            cfg.providerIdMapping[x.authProvider], x.subject, createdTs);
        Ok(st.(counter := st.counter + 1, mas := st.mas.(links := st.mas.links + [link])))
  }

  /** Device and token rows of deactivated and guest users are not migrated. */
  predicate SkipsSessions(info: UserInfo)
  {
    HasFlag(info.flags, IsDeactivatedFlag) || HasFlag(info.flags, IsGuestFlag)
  }

  /** The session of a `(user, device)` pair: the recorded one, or a new one stamped `ts` and recorded. */
  function SessionFor(st: St, key: (Uuid, string), ts: int): (r: (Uuid, St))
    ensures key in st.devicesToCompatSessions ==> r == (st.devicesToCompatSessions[key], st)
    ensures key !in st.devicesToCompatSessions ==>
      r.0 == Ulid(ts, st.counter)
      && r.1 == st.(counter := st.counter + 1, devicesToCompatSessions := st.devicesToCompatSessions[key := r.0])
  {
    if key in st.devicesToCompatSessions then (st.devicesToCompatSessions[key], st)
    else
      var id := Ulid(ts, st.counter);
      (id, st.(counter := st.counter + 1, devicesToCompatSessions := st.devicesToCompatSessions[key := id]))
  }

  function DeviceStep(cfg: Config, st: St, d: SynapseDevice): Result<St, MigrationError>
  {
    match DependentUser(cfg, st, d.userId, "devices")
    case Err(e) => Err(e)
    case Ok(None) => Ok(st)
    case Ok(Some(info)) =>
      if SkipsSessions(info) then Ok(st)
      else
        var (sessionId, st1) := SessionFor(st, (info.masUserId, d.deviceId), cfg.systemNow);
        var ip := if d.ip.Some? then cfg.parseIp(d.ip.value) else None;
        var session := MasNewCompatSession(sessionId, info.masUserId, Some(d.deviceId), d.displayName,
                                           sessionId.timestamp, HasFlag(info.flags, IsSynapseAdminFlag),
                                           d.lastSeen, ip, d.userAgent);
        Ok(st1.(mas := st1.mas.(compatSessions := st1.mas.compatSessions + [session])))
  }

  function AccessTokenStep(cfg: Config, st: St, t: SynapseAccessToken): Result<St, MigrationError>
  {
    match DependentUser(cfg, st, t.userId, "access_tokens")
    case Err(e) => Err(e)
    case Ok(None) => Ok(st)
    case Ok(Some(info)) =>
      if SkipsSessions(info) then Ok(st)
      else
        var createdAt := if t.lastValidated.Some? then t.lastValidated.value else cfg.clockNow;
        var (sessionId, st1) :=
          if t.deviceId.Some? then SessionFor(st, (info.masUserId, t.deviceId.value), createdAt)
          else
            var id := Ulid(createdAt, st.counter);
            var deviceless := MasNewCompatSession(id, info.masUserId, None, None, createdAt, false, None, None, None);
            (id, st.(counter := st.counter + 1, mas := st.mas.(compatSessions := st.mas.compatSessions + [deviceless])));
        var token := MasNewCompatAccessToken(Ulid(createdAt, st1.counter), sessionId, t.token, createdAt, t.validUntilMs);
        Ok(st1.(counter := st1.counter + 1, mas := st1.mas.(accessTokens := st1.mas.accessTokens + [token])))
  }

  function RefreshPairStep(cfg: Config, st: St, t: SynapseRefreshableTokenPair): Result<St, MigrationError>
  {
    match DependentUser(cfg, st, t.userId, "refresh_tokens")
    case Err(e) => Err(e)
    case Ok(None) => Ok(st)
    case Ok(Some(info)) =>
      if SkipsSessions(info) then Ok(st)
      else
        var createdAt := if t.lastValidated.Some? then t.lastValidated.value else cfg.clockNow;
        var (sessionId, st1) := SessionFor(st, (info.masUserId, t.deviceId), createdAt);
        var accessId := Ulid(createdAt, st1.counter);
        var refreshId := Ulid(createdAt, st1.counter + 1);
        var access := MasNewCompatAccessToken(accessId, sessionId, t.accessToken, createdAt, t.validUntilMs);
        var refresh := MasNewCompatRefreshToken(refreshId, sessionId, accessId, t.refreshToken, createdAt);
        Ok(st1.(counter := st1.counter + 2, mas := st1.mas.(
          accessTokens := st1.mas.accessTokens + [access],
          refreshTokens := st1.mas.refreshTokens + [refresh])))
  }

  // ---------------------------------------------------------------------
  // Whole tables

  /** Rows processed in order, stopping at the first error. */
  function Fold<R>(cfg: Config, st: St, rows: seq<R>, step: (Config, St, R) -> Result<St, MigrationError>)
    : Result<St, MigrationError>
  {
    if rows == [] then Ok(st)
    else
      match Fold(cfg, st, rows[..|rows| - 1], step)
      case Err(e) => Err(e)
      case Ok(s) => step(cfg, s, rows[|rows| - 1])
  }

  /** Once a prefix of the rows fails, the whole table fails with the same error. */
  lemma {:induction false} FoldStopsAtError<R>(cfg: Config, st: St, rows: seq<R>, i: nat,
                                               step: (Config, St, R) -> Result<St, MigrationError>)
    requires i <= |rows|
    requires Fold(cfg, st, rows[..i], step).Err?
    ensures Fold(cfg, st, rows, step) == Fold(cfg, st, rows[..i], step)
    decreases |rows| - i
  {
    if i < |rows| {
      assert rows[..i + 1][..i] == rows[..i];
      FoldStopsAtError(cfg, st, rows, i + 1, step);
    } else {
      assert rows[..i] == rows;
    }
  }

  /** The whole migration: users, threepids, external IDs, access tokens, token pairs, devices. */
  function MigrateSpec(cfg: Config, users: seq<SynapseUser>, threepids: seq<SynapseThreepid>,
                       externalIds: seq<SynapseExternalId>, accessTokens: seq<SynapseAccessToken>,
                       tokenPairs: seq<SynapseRefreshableTokenPair>, devices: seq<SynapseDevice>,
                       start: St): Result<St, MigrationError>
  {
    match Fold(cfg, start, users, UserStep)
    case Err(e) => Err(e)
    case Ok(s1) =>
      match Fold(cfg, s1, threepids, ThreepidStep)
      case Err(e) => Err(e)
      case Ok(s2) =>
        match Fold(cfg, s2, externalIds, ExternalIdStep)
        case Err(e) => Err(e)
        case Ok(s3) =>
          match Fold(cfg, s3, accessTokens, AccessTokenStep)
          case Err(e) => Err(e)
          case Ok(s4) =>
            match Fold(cfg, s4, tokenPairs, RefreshPairStep)
            case Err(e) => Err(e)
            case Ok(s5) => Fold(cfg, s5, devices, DeviceStep)
  }

  // ---------------------------------------------------------------------
  // Properties

  /** Every entry of `a`'s device to session table is in `b`'s, with the same session. */
  predicate SessionsKept(a: St, b: St)
  {
    forall key :: key in a.devicesToCompatSessions ==>
      key in b.devicesToCompatSessions && b.devicesToCompatSessions[key] == a.devicesToCompatSessions[key]
  }

  ghost predicate KeepsSessions<R(!new)>(cfg: Config, step: (Config, St, R) -> Result<St, MigrationError>)
  {
    forall st: St, row: R :: step(cfg, st, row).Ok? ==> SessionsKept(st, step(cfg, st, row).value)
  }

  /** No row of any table overwrites or removes an entry of the device to session table. */
  lemma EveryStepKeepsSessions(cfg: Config)
    ensures KeepsSessions(cfg, UserStep) && KeepsSessions(cfg, ThreepidStep) && KeepsSessions(cfg, ExternalIdStep)
    ensures KeepsSessions(cfg, AccessTokenStep) && KeepsSessions(cfg, RefreshPairStep) && KeepsSessions(cfg, DeviceStep)
  {
  }

  lemma {:induction false} FoldKeepsSessions<R(!new)>(cfg: Config, st: St, rows: seq<R>,
                                                step: (Config, St, R) -> Result<St, MigrationError>)
    requires KeepsSessions(cfg, step)
    ensures Fold(cfg, st, rows, step).Ok? ==> SessionsKept(st, Fold(cfg, st, rows, step).value)
    decreases |rows|
  {
    if rows != [] {
      FoldKeepsSessions(cfg, st, rows[..|rows| - 1], step);
    }
  }

  /** Over the whole migration, a session id once given to a `(user, device)` pair stays its id. */
  lemma MigrateKeepsSessions(cfg: Config, users: seq<SynapseUser>, threepids: seq<SynapseThreepid>,
                             externalIds: seq<SynapseExternalId>, accessTokens: seq<SynapseAccessToken>,
                             tokenPairs: seq<SynapseRefreshableTokenPair>, devices: seq<SynapseDevice>, start: St)
    ensures var r := MigrateSpec(cfg, users, threepids, externalIds, accessTokens, tokenPairs, devices, start);
            r.Ok? ==> SessionsKept(start, r.value)
  {
    EveryStepKeepsSessions(cfg);
    FoldKeepsSessions(cfg, start, users, UserStep);
    var s1 := Fold(cfg, start, users, UserStep);
    if s1.Ok? {
      FoldKeepsSessions(cfg, s1.value, threepids, ThreepidStep);
      var s2 := Fold(cfg, s1.value, threepids, ThreepidStep);
      if s2.Ok? {
        FoldKeepsSessions(cfg, s2.value, externalIds, ExternalIdStep);
        var s3 := Fold(cfg, s2.value, externalIds, ExternalIdStep);
        if s3.Ok? {
          FoldKeepsSessions(cfg, s3.value, accessTokens, AccessTokenStep);
          var s4 := Fold(cfg, s3.value, accessTokens, AccessTokenStep);
          if s4.Ok? {
            FoldKeepsSessions(cfg, s4.value, tokenPairs, RefreshPairStep);
            var s5 := Fold(cfg, s4.value, tokenPairs, RefreshPairStep);
            if s5.Ok? {
              FoldKeepsSessions(cfg, s5.value, devices, DeviceStep);
            }
          }
        }
      }
    }
  }

  /** `user` is a migrated user whose devices and tokens are migrated. */
  predicate ActiveUser(cfg: Config, st: St, user: string)
  {
    var l := ExtractLocalpart(user, cfg.serverName);
    l.Ok? && l.value in st.users && !SkipsSessions(st.users[l.value])
  }

  /** `user` is a migrated user who is deactivated or a guest. */
  predicate InactiveUser(cfg: Config, st: St, user: string)
  {
    var l := ExtractLocalpart(user, cfg.serverName);
    l.Ok? && l.value in st.users && SkipsSessions(st.users[l.value])
  }

  function InfoOf(cfg: Config, st: St, user: string): UserInfo
    requires ActiveUser(cfg, st, user)
  {
    st.users[ExtractLocalpart(user, cfg.serverName).value]
  }

  /** A user's row is written with a fresh id, and the lookup table maps its localpart to that id and its flags. */
  lemma UserStepRecordsUser(cfg: Config, st: St, u: SynapseUser)
    requires UserStep(cfg, st, u).Ok?
    ensures var st' := UserStep(cfg, st, u).value;
      |st'.mas.users| == |st.mas.users| + 1 && st'.mas.users[..|st.mas.users|] == st.mas.users
      && var written := st'.mas.users[|st.mas.users|];
      written.username in st'.users
      && Mxid(written.username, cfg.serverName) == u.name
      && st'.users[written.username].masUserId == written.userId == Ulid(u.creationTs, st.counter)
      && (HasFlag(st'.users[written.username].flags, IsSynapseAdminFlag) <==> u.admin)
      && (HasFlag(st'.users[written.username].flags, IsDeactivatedFlag) <==> u.deactivated)
      && (HasFlag(st'.users[written.username].flags, IsGuestFlag) <==> u.isGuest)
      && (|st'.mas.passwords| == |st.mas.passwords| + 1 <==> u.passwordHash.Some?)
  {
    var st' := UserStep(cfg, st, u).value;
    assert st'.mas.users[..|st.mas.users|] == st.mas.users;
  }

  /** A threepid of a migrated user, whatever its flags, becomes an email if its medium is "email", else an unsupported threepid. */
  lemma ThreepidDestination(cfg: Config, st: St, t: SynapseThreepid)
    requires ExtractLocalpart(t.userId, cfg.serverName).Ok? && ExtractLocalpart(t.userId, cfg.serverName).value in st.users
    ensures ThreepidStep(cfg, st, t).Ok?
    ensures var m := ThreepidStep(cfg, st, t).value.mas;
      var owner := st.users[ExtractLocalpart(t.userId, cfg.serverName).value].masUserId;
      if t.medium == "email" then
        m.unsupportedThreepids == st.mas.unsupportedThreepids
        && |m.emails| == |st.mas.emails| + 1 && m.emails[..|st.mas.emails|] == st.mas.emails
        && m.emails[|st.mas.emails|].email == t.address && m.emails[|st.mas.emails|].userId == owner
      else
        m.emails == st.mas.emails
        && m.unsupportedThreepids == st.mas.unsupportedThreepids + [MasNewUnsupportedThreepid(owner, t.medium, t.address, t.addedAt)]
  {
    var m := ThreepidStep(cfg, st, t).value.mas;
    assert m.emails[..|st.mas.emails|] == st.mas.emails;
  }

  /** An external ID of a migrated user fails exactly when its provider has no mapping; otherwise it links the mapped provider. */
  lemma ExternalIdLinks(cfg: Config, st: St, x: SynapseExternalId)
    requires ExtractLocalpart(x.userId, cfg.serverName).Ok? && ExtractLocalpart(x.userId, cfg.serverName).value in st.users
    ensures ExternalIdStep(cfg, st, x).Err? <==> x.authProvider !in cfg.providerIdMapping
    ensures ExternalIdStep(cfg, st, x).Err? ==>
      ExternalIdStep(cfg, st, x) == Err(MissingAuthProviderMapping(x.authProvider, x.userId))
    ensures ExternalIdStep(cfg, st, x).Ok? ==>
      var links := ExternalIdStep(cfg, st, x).value.mas.links;
      var owner := st.users[ExtractLocalpart(x.userId, cfg.serverName).value].masUserId;
      |links| == |st.mas.links| + 1 && links[..|st.mas.links|] == st.mas.links
      && links[|st.mas.links|].userId == owner
      && links[|st.mas.links|].upstreamProviderId == cfg.providerIdMapping[x.authProvider]
      && links[|st.mas.links|].subject == x.subject
      && links[|st.mas.links|].createdAt == owner.timestamp
  {
    if x.authProvider in cfg.providerIdMapping {
      var links := ExternalIdStep(cfg, st, x).value.mas.links;
      assert links[..|st.mas.links|] == st.mas.links;
    }
  }

  /**
   * A dependent row whose user was not migrated is skipped when the
   * localpart starts with `_`, and otherwise fails naming its table.
   */
  lemma UnknownUserRows(cfg: Config, st: St, user: string, t: SynapseThreepid, x: SynapseExternalId,
                        a: SynapseAccessToken, p: SynapseRefreshableTokenPair, d: SynapseDevice)
    requires t.userId == x.userId == a.userId == p.userId == d.userId == user
    requires ExtractLocalpart(user, cfg.serverName).Ok? && ExtractLocalpart(user, cfg.serverName).value !in st.users
    ensures var l := ExtractLocalpart(user, cfg.serverName).value;
      |l| > 0 && l[0] == '_' ==>
        ThreepidStep(cfg, st, t) == ExternalIdStep(cfg, st, x) == AccessTokenStep(cfg, st, a)
        == RefreshPairStep(cfg, st, p) == DeviceStep(cfg, st, d) == Ok(st)
    ensures var l := ExtractLocalpart(user, cfg.serverName).value;
      !(|l| > 0 && l[0] == '_') ==>
        ThreepidStep(cfg, st, t) == Err(MissingUserFromDependentTable("user_threepids", user))
        && ExternalIdStep(cfg, st, x) == Err(MissingUserFromDependentTable("user_external_ids", user))
        && AccessTokenStep(cfg, st, a) == Err(MissingUserFromDependentTable("access_tokens", user))
        && RefreshPairStep(cfg, st, p) == Err(MissingUserFromDependentTable("refresh_tokens", user))
        && DeviceStep(cfg, st, d) == Err(MissingUserFromDependentTable("devices", user))
  {
  }

  /** Device and token rows of deactivated or guest users leave the state as it was. */
  lemma InactiveUsersSkipped(cfg: Config, st: St, a: SynapseAccessToken, p: SynapseRefreshableTokenPair, d: SynapseDevice)
    requires InactiveUser(cfg, st, a.userId) && InactiveUser(cfg, st, p.userId) && InactiveUser(cfg, st, d.userId)
    ensures AccessTokenStep(cfg, st, a) == RefreshPairStep(cfg, st, p) == DeviceStep(cfg, st, d) == Ok(st)
  {
  }

  /** An access token with a device is attached to the session recorded for its `(user, device)` pair. */
  lemma AccessTokenUsesDeviceSession(cfg: Config, st: St, a: SynapseAccessToken)
    requires ActiveUser(cfg, st, a.userId) && a.deviceId.Some?
    ensures AccessTokenStep(cfg, st, a).Ok?
    ensures var st' := AccessTokenStep(cfg, st, a).value;
      var key := (InfoOf(cfg, st, a.userId).masUserId, a.deviceId.value);
      SessionsKept(st, st') && key in st'.devicesToCompatSessions
      && (key in st.devicesToCompatSessions ==> st'.devicesToCompatSessions == st.devicesToCompatSessions)
      && st'.mas.compatSessions == st.mas.compatSessions
      && |st'.mas.accessTokens| == |st.mas.accessTokens| + 1
      && st'.mas.accessTokens[|st.mas.accessTokens|].sessionId == st'.devicesToCompatSessions[key]
  {
  }

  /** A refreshable pair's access and refresh tokens are both attached to their device's session. */
  lemma TokenPairUsesDeviceSession(cfg: Config, st: St, p: SynapseRefreshableTokenPair)
    requires ActiveUser(cfg, st, p.userId)
    ensures RefreshPairStep(cfg, st, p).Ok?
    ensures var st' := RefreshPairStep(cfg, st, p).value;
      var key := (InfoOf(cfg, st, p.userId).masUserId, p.deviceId);
      SessionsKept(st, st') && key in st'.devicesToCompatSessions
      && |st'.mas.accessTokens| == |st.mas.accessTokens| + 1
      && |st'.mas.refreshTokens| == |st.mas.refreshTokens| + 1
      && st'.mas.accessTokens[|st.mas.accessTokens|].sessionId == st'.devicesToCompatSessions[key]
      && st'.mas.refreshTokens[|st.mas.refreshTokens|].sessionId == st'.devicesToCompatSessions[key]
      && st'.mas.refreshTokens[|st.mas.refreshTokens|].accessTokenId == st'.mas.accessTokens[|st.mas.accessTokens|].tokenId
  {
  }

  /** A device becomes the compat session recorded for its `(user, device)` pair, under that session's id. */
  lemma DeviceUsesDeviceSession(cfg: Config, st: St, d: SynapseDevice)
    requires ActiveUser(cfg, st, d.userId)
    ensures DeviceStep(cfg, st, d).Ok?
    ensures var st' := DeviceStep(cfg, st, d).value;
      var info := InfoOf(cfg, st, d.userId);
      var key := (info.masUserId, d.deviceId);
      SessionsKept(st, st') && key in st'.devicesToCompatSessions
      && |st'.mas.compatSessions| == |st.mas.compatSessions| + 1
      && var session := st'.mas.compatSessions[|st.mas.compatSessions|];
      session.sessionId == st'.devicesToCompatSessions[key]
      && session.deviceId == Some(d.deviceId)
      && (session.isSynapseAdmin <==> HasFlag(info.flags, IsSynapseAdminFlag))
  {
  }

  /**
   * A device's access token, any rows migrated in between, and then the
   * device itself: the device's compat session has the id the token was
   * attached to.
   */
  lemma TokenAndDeviceShareSession(cfg: Config, st: St, a: SynapseAccessToken, mid: St, d: SynapseDevice)
    requires ActiveUser(cfg, st, a.userId) && a.deviceId == Some(d.deviceId) && d.userId == a.userId
    requires AccessTokenStep(cfg, st, a).Ok? && SessionsKept(AccessTokenStep(cfg, st, a).value, mid)
    requires mid.users == st.users
    ensures DeviceStep(cfg, mid, d).Ok?
    ensures var tokens := AccessTokenStep(cfg, st, a).value.mas.accessTokens;
      var sessions := DeviceStep(cfg, mid, d).value.mas.compatSessions;
      |tokens| > 0 && |sessions| > 0 && sessions[|sessions| - 1].sessionId == tokens[|tokens| - 1].sessionId
  {
    AccessTokenUsesDeviceSession(cfg, st, a);
    DeviceUsesDeviceSession(cfg, mid, d);
    var key := (InfoOf(cfg, st, a.userId).masUserId, d.deviceId);
    var st1 := AccessTokenStep(cfg, st, a).value;
    var st2 := DeviceStep(cfg, mid, d).value;
    assert key in mid.devicesToCompatSessions;
    assert st2.devicesToCompatSessions[key] == mid.devicesToCompatSessions[key] == st1.devicesToCompatSessions[key];
  }

  /**
   * An access token without a device gets a new compat session of its own:
   * no device, not a Synapse admin, and no entry in the device table.
   */
  lemma DevicelessTokenSession(cfg: Config, st: St, a: SynapseAccessToken)
    requires ActiveUser(cfg, st, a.userId) && a.deviceId.None?
    ensures AccessTokenStep(cfg, st, a).Ok?
    ensures var st' := AccessTokenStep(cfg, st, a).value;
      st'.devicesToCompatSessions == st.devicesToCompatSessions
      && |st'.mas.compatSessions| == |st.mas.compatSessions| + 1
      && |st'.mas.accessTokens| == |st.mas.accessTokens| + 1
      && var session := st'.mas.compatSessions[|st.mas.compatSessions|];
      session.deviceId.None? && !session.isSynapseAdmin
      && session.userId == InfoOf(cfg, st, a.userId).masUserId
      && session.sessionId == Ulid(session.createdAt, st.counter)
      && st'.mas.accessTokens[|st.mas.accessTokens|].sessionId == session.sessionId
  {
  }

  /** A table's outcome as the migration functions return it. */
  function AsResult(err: Option<MigrationError>, st: St): (r: Result<St, MigrationError>)
    ensures r.Ok? <==> err.None?
  {
    if err.None? then Ok(st) else Err(err.value)
  }

  const InitialState: St := St(map[], map[], 0, NothingWritten)

  /**
   * The migration's mutable state: the user lookup table, the device to
   * session table, the id source, and the rows written to MAS.
   */
  class Migrator {
    const config: Config
    var users: map<string, UserInfo>
    var devicesToCompatSessions: map<(Uuid, string), Uuid>
    var counter: nat
    var mas: Written

    function State(): St
      reads this
    {
      St(users, devicesToCompatSessions, counter, mas)
    }

    constructor(config: Config)
      ensures this.config == config && State() == InitialState
    {
      this.config := config;
      users := map[];
      devicesToCompatSessions := map[];
      counter := 0;
      mas := NothingWritten;
    }

    /** `Ulid::from_datetime_with_source`: a new id stamped `timestamp`. */
    method NextId(timestamp: int) returns (id: Uuid)
      modifies this
      ensures id == Ulid(timestamp, old(counter)) && State() == old(State()).(counter := old(counter) + 1)
    {
      id := Ulid(timestamp, counter);
      counter := counter + 1;
    }

    /** `devices_to_compat_sessions.entry(key).or_insert_with(..)`. */
    method SessionEntry(key: (Uuid, string), timestamp: int) returns (id: Uuid)
      modifies this
      ensures (id, State()) == SessionFor(old(State()), key, timestamp)
    {
      if key in devicesToCompatSessions {
        id := devicesToCompatSessions[key];
      } else {
        id := NextId(timestamp);
        devicesToCompatSessions := devicesToCompatSessions[key := id];
      }
    }

    /** The `let Some(user_infos) = .. else { .. }` block shared by the dependent tables. */
    method FindUser(user: string, table: string) returns (r: Result<Option<UserInfo>, MigrationError>)
      ensures r == DependentUser(config, State(), user, table)
    {
      var localpart := LocalpartOf(user, config.serverName);
      if localpart.None? {
        return Err(ExtractLocalpartFailed(user));
      }
      var l := localpart.value;
      if l in users {
        return Ok(Some(users[l]));
      }
      if IsLikelyAppservice(l) {
        return Ok(None);
      }
      return Err(MissingUserFromDependentTable(table, user));
    }

    /** The body of the `migrate_users` loop for one row. */
    method MigrateUser(user: SynapseUser) returns (err: Option<MigrationError>)
      modifies this
      ensures UserStep(config, old(State()), user) == AsResult(err, State())
    {
    var transformed := TransformUser(user, config.serverName, counter);
    if transformed.Err? {
      return Some(transformed.error);
    }
    var (masUser, password, next) := transformed.value;
    var flags: UserFlags := 0;
    if user.admin {
      flags := flags | IsSynapseAdminFlag;
    }
    if user.deactivated {
      flags := flags | IsDeactivatedFlag;
    }
    if user.isGuest {
      flags := flags | IsGuestFlag;
    }
    users := users[masUser.username := UserInfo(masUser.userId, flags)];
    counter := next;
    mas := mas.(users := mas.users + [masUser]);
    if password.Some? {
      mas := mas.(passwords := mas.passwords + [password.value]);
    }
    return None;
    }

    method MigrateUsers(rows: seq<SynapseUser>) returns (err: Option<MigrationError>)
      modifies this
      ensures Fold(config, old(State()), rows, UserStep) == AsResult(err, State())
    {
      err := None;
      var i := 0;
      while i < |rows|
        invariant i <= |rows| && err.None?
        invariant Fold(config, old(State()), rows[..i], UserStep) == Ok(State())
      {
        assert rows[..i + 1][..i] == rows[..i];
        err := MigrateUser(rows[i]);
        if err.Some? {
          FoldStopsAtError(config, old(State()), rows, i + 1, UserStep);
          return;
        }
        i := i + 1;
      }
      assert rows[..i] == rows;
    }

    /** The body of the `migrate_threepids` loop for one row. */
    method MigrateThreepid(t: SynapseThreepid) returns (err: Option<MigrationError>)
      modifies this
      ensures ThreepidStep(config, old(State()), t) == AsResult(err, State())
    {
    var found := FindUser(t.userId, "user_threepids");
    if found.Err? {
      return Some(found.error);
    }
    if found.value.Some? {
      var info := found.value.value;
      if t.medium == "email" {
        var emailId := NextId(t.addedAt);
        mas := mas.(emails := mas.emails + [MasNewEmailThreepid(info.masUserId, emailId, t.address, t.addedAt)]);
      } else {
        mas := mas.(unsupportedThreepids := mas.unsupportedThreepids
                      + [MasNewUnsupportedThreepid(info.masUserId, t.medium, t.address, t.addedAt)]);
      }
    }
    return None;
    }

    method MigrateThreepids(rows: seq<SynapseThreepid>) returns (err: Option<MigrationError>)
      modifies this
      ensures Fold(config, old(State()), rows, ThreepidStep) == AsResult(err, State())
    {
      err := None;
      var i := 0;
      while i < |rows|
        invariant i <= |rows| && err.None?
        invariant Fold(config, old(State()), rows[..i], ThreepidStep) == Ok(State())
      {
        assert rows[..i + 1][..i] == rows[..i];
        err := MigrateThreepid(rows[i]);
        if err.Some? {
          FoldStopsAtError(config, old(State()), rows, i + 1, ThreepidStep);
          return;
        }
        i := i + 1;
      }
      assert rows[..i] == rows;
    }

    /** The body of the `migrate_external_ids` loop for one row. */
    method MigrateExternalId(x: SynapseExternalId) returns (err: Option<MigrationError>)
      modifies this
      ensures ExternalIdStep(config, old(State()), x) == AsResult(err, State())
    {
    var found := FindUser(x.userId, "user_external_ids");
    if found.Err? {
      return Some(found.error);
    }
    if found.value.Some? {
      var info := found.value.value;
      if x.authProvider !in config.providerIdMapping {
        return Some(MissingAuthProviderMapping(x.authProvider, x.userId));
      }
      var providerId := config.providerIdMapping[x.authProvider];
      var createdTs := info.masUserId.timestamp;
      var linkId := NextId(createdTs);
      mas := mas.(links := mas.links + [MasNewUpstreamOauthLink(linkId, info.masUserId, providerId, x.subject, createdTs)]);
    }
    return None;
    }

    method MigrateExternalIds(rows: seq<SynapseExternalId>) returns (err: Option<MigrationError>)
      modifies this
      ensures Fold(config, old(State()), rows, ExternalIdStep) == AsResult(err, State())
    {
      err := None;
      var i := 0;
      while i < |rows|
        invariant i <= |rows| && err.None?
        invariant Fold(config, old(State()), rows[..i], ExternalIdStep) == Ok(State())
      {
        assert rows[..i + 1][..i] == rows[..i];
        err := MigrateExternalId(rows[i]);
        if err.Some? {
          FoldStopsAtError(config, old(State()), rows, i + 1, ExternalIdStep);
          return;
        }
        i := i + 1;
      }
      assert rows[..i] == rows;
    }

    /** The body of the `migrate_unrefreshable_access_tokens` loop for one row. */
    method MigrateUnrefreshableAccessToken(t: SynapseAccessToken) returns (err: Option<MigrationError>)
      modifies this
      ensures AccessTokenStep(config, old(State()), t) == AsResult(err, State())
    {
    var found := FindUser(t.userId, "access_tokens");
    if found.Err? {
      return Some(found.error);
    }
    if found.value.Some? && !SkipsSessions(found.value.value) {
      var info := found.value.value;
      var createdAt := if t.lastValidated.Some? then t.lastValidated.value else config.clockNow;
      var sessionId;
      if t.deviceId.Some? {
        sessionId := SessionEntry((info.masUserId, t.deviceId.value), createdAt);
      } else {
        sessionId := NextId(createdAt);
        var deviceless := MasNewCompatSession(sessionId, info.masUserId, None, None, createdAt, false, None, None, None);
        mas := mas.(compatSessions := mas.compatSessions + [deviceless]);
      }
      var tokenId := NextId(createdAt);
      var token := MasNewCompatAccessToken(tokenId, sessionId, t.token, createdAt, t.validUntilMs);
      mas := mas.(accessTokens := mas.accessTokens + [token]);
    }
    return None;
    }

    method MigrateUnrefreshableAccessTokens(rows: seq<SynapseAccessToken>) returns (err: Option<MigrationError>)
      modifies this
      ensures Fold(config, old(State()), rows, AccessTokenStep) == AsResult(err, State())
    {
      err := None;
      var i := 0;
      while i < |rows|
        invariant i <= |rows| && err.None?
        invariant Fold(config, old(State()), rows[..i], AccessTokenStep) == Ok(State())
      {
        assert rows[..i + 1][..i] == rows[..i];
        err := MigrateUnrefreshableAccessToken(rows[i]);
        if err.Some? {
          FoldStopsAtError(config, old(State()), rows, i + 1, AccessTokenStep);
          return;
        }
        i := i + 1;
      }
      assert rows[..i] == rows;
    }

    /** The body of the `migrate_refreshable_token_pairs` loop for one row. */
    method MigrateRefreshableTokenPair(t: SynapseRefreshableTokenPair) returns (err: Option<MigrationError>)
      modifies this
      ensures RefreshPairStep(config, old(State()), t) == AsResult(err, State())
    {
    var found := FindUser(t.userId, "refresh_tokens");
    if found.Err? {
      return Some(found.error);
    }
    if found.value.Some? && !SkipsSessions(found.value.value) {
      var info := found.value.value;
      var createdAt := if t.lastValidated.Some? then t.lastValidated.value else config.clockNow;
      var sessionId := SessionEntry((info.masUserId, t.deviceId), createdAt);
      var accessId := NextId(createdAt);
      var refreshId := NextId(createdAt);
      mas := mas.(accessTokens := mas.accessTokens
                    + [MasNewCompatAccessToken(accessId, sessionId, t.accessToken, createdAt, t.validUntilMs)]);
      mas := mas.(refreshTokens := mas.refreshTokens
                    + [MasNewCompatRefreshToken(refreshId, sessionId, accessId, t.refreshToken, createdAt)]);
    }
    return None;
    }

    method MigrateRefreshableTokenPairs(rows: seq<SynapseRefreshableTokenPair>) returns (err: Option<MigrationError>)
      modifies this
      ensures Fold(config, old(State()), rows, RefreshPairStep) == AsResult(err, State())
    {
      err := None;
      var i := 0;
      while i < |rows|
        invariant i <= |rows| && err.None?
        invariant Fold(config, old(State()), rows[..i], RefreshPairStep) == Ok(State())
      {
        assert rows[..i + 1][..i] == rows[..i];
        err := MigrateRefreshableTokenPair(rows[i]);
        if err.Some? {
          FoldStopsAtError(config, old(State()), rows, i + 1, RefreshPairStep);
          return;
        }
        i := i + 1;
      }
      assert rows[..i] == rows;
    }

    /** The body of the `migrate_devices` loop for one row. */
    method MigrateDevice(d: SynapseDevice) returns (err: Option<MigrationError>)
      modifies this
      ensures DeviceStep(config, old(State()), d) == AsResult(err, State())
    {
    var found := FindUser(d.userId, "devices");
    if found.Err? {
      return Some(found.error);
    }
    if found.value.Some? && !SkipsSessions(found.value.value) {
      var info := found.value.value;
      var sessionId := SessionEntry((info.masUserId, d.deviceId), config.systemNow);
      var ip := if d.ip.Some? then config.parseIp(d.ip.value) else None;
      var session := MasNewCompatSession(sessionId, info.masUserId, Some(d.deviceId), d.displayName,
                                         sessionId.timestamp, HasFlag(info.flags, IsSynapseAdminFlag),
                                         d.lastSeen, ip, d.userAgent);
      mas := mas.(compatSessions := mas.compatSessions + [session]);
    }
    return None;
    }

    method MigrateDevices(rows: seq<SynapseDevice>) returns (err: Option<MigrationError>)
      modifies this
      ensures Fold(config, old(State()), rows, DeviceStep) == AsResult(err, State())
    {
      err := None;
      var i := 0;
      while i < |rows|
        invariant i <= |rows| && err.None?
        invariant Fold(config, old(State()), rows[..i], DeviceStep) == Ok(State())
      {
        assert rows[..i + 1][..i] == rows[..i];
        err := MigrateDevice(rows[i]);
        if err.Some? {
          FoldStopsAtError(config, old(State()), rows, i + 1, DeviceStep);
          return;
        }
        i := i + 1;
      }
      assert rows[..i] == rows;
    }

    /** `migrate`: the six tables in order, stopping at the first error. */
    method Migrate(userRows: seq<SynapseUser>, threepidRows: seq<SynapseThreepid>,
                   externalIdRows: seq<SynapseExternalId>, accessTokenRows: seq<SynapseAccessToken>,
                   tokenPairRows: seq<SynapseRefreshableTokenPair>, deviceRows: seq<SynapseDevice>)
      returns (err: Option<MigrationError>)
      modifies this
      ensures MigrateSpec(config, userRows, threepidRows, externalIdRows, accessTokenRows, tokenPairRows,
                          deviceRows, old(State())) == AsResult(err, State())
    {
      err := MigrateUsers(userRows);
      if err.Some? { return; }
      err := MigrateThreepids(threepidRows);
      if err.Some? { return; }
      err := MigrateExternalIds(externalIdRows);
      if err.Some? { return; }
      err := MigrateUnrefreshableAccessTokens(accessTokenRows);
      if err.Some? { return; }
      err := MigrateRefreshableTokenPairs(tokenPairRows);
      if err.Some? { return; }
      err := MigrateDevices(deviceRows);
    }
  }
}
