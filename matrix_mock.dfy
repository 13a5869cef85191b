/**
 * The in-memory mock of the homeserver connection: users keyed by Matrix
 * ID, each with a device set, and a set of reserved localparts. The pure
 * functions give each operation's effect on the user map; the class
 * applies them in place.
 */
module MatrixMock {
  import opened Results
  import opened MatrixIds

  /** The only bearer token `verify_token` accepts. */
  const ValidBearerToken: string := "mock_homeserver_bearer_token"

  datatype MockUser = MockUser(
    sub: string,
    avatarUrl: Option<string>,
    displayname: Option<string>,
    devices: set<string>,
    emails: Option<seq<string>>,
    crossSigningResetAllowed: bool,
    deactivated: bool)

  type Users = map<string, MockUser>

  /** What `query_user` reports of a user. */
  datatype MatrixUser = MatrixUser(displayname: Option<string>, avatarUrl: Option<string>, deactivated: bool)

  datatype MockError = UserNotFound | DeviceNotFound | SubMismatch

  /** Whether a provisioning request leaves a field alone, sets it, or clears it. */
  datatype FieldAction<T> = DoNothing | Set(value: T) | Unset

  function Act<T>(action: FieldAction<T>, current: Option<T>): Option<T>
  {
    match action
    case DoNothing => current
    case Set(v) => Some(v)
    case Unset => None
  }

  datatype ProvisionRequest = ProvisionRequest(
    localpart: string,
    sub: string,
    emails: FieldAction<seq<string>>,
    displayname: FieldAction<string>,
    avatarUrl: FieldAction<string>)

  /** A freshly provisioned user: only the subject is known. */
  function NewUser(sub: string): MockUser
  {
    MockUser(sub, None, None, {}, None, false, false)
  }

  /** The user map an operation leaves behind: its new map on success, the old one on failure. */
  function After(prev: Users, r: Result<Users, MockError>): Users
  {
    if r.Ok? then r.value else prev
  }

  function Outcome(r: Result<Users, MockError>): Result<(), MockError>
  {
    if r.Ok? then Ok(()) else Err(r.error)
  }

  /** Only the entry at `mxid` differs between the two maps. */
  predicate OthersUnchanged(prev: Users, next: Users, mxid: string)
  {
    (forall m :: m in prev && m != mxid ==> m in next && next[m] == prev[m])
    && (forall m :: m in next && m != mxid ==> m in prev)
  }

  /**
   * `provision_user`: inserts the user when its Matrix ID is new, fails when
   * the ID is already taken by another subject, and otherwise applies the
   * request's field actions. The boolean says whether the user was inserted.
   */
  function Provision(users: Users, mxid: string, req: ProvisionRequest): (r: Result<(bool, Users), MockError>)
    ensures r.Err? <==> mxid in users && users[mxid].sub != req.sub
    ensures r.Err? ==> r.error == SubMismatch
    ensures r.Ok? ==> (r.value.0 <==> mxid !in users)
    ensures r.Ok? ==> r.value.1.Keys == users.Keys + {mxid}
    ensures r.Ok? ==> OthersUnchanged(users, r.value.1, mxid)
    ensures r.Ok? ==> r.value.1[mxid].sub == req.sub
  {
    var inserted := mxid !in users;
    var user := if inserted then NewUser(req.sub) else users[mxid];
    if user.sub != req.sub then Err(SubMismatch)
    else
      var updated := user.(
        emails := Act(req.emails, user.emails),
        displayname := Act(req.displayname, user.displayname),
        avatarUrl := Act(req.avatarUrl, user.avatarUrl));
      Ok((inserted, users[mxid := updated]))
  }

  /** `query_user`: the user's display name, avatar and deactivation flag. */
  function Query(users: Users, mxid: string): (r: Result<MatrixUser, MockError>)
    ensures r.Err? <==> mxid !in users
    ensures r.Ok? ==> r.value == MatrixUser(users[mxid].displayname, users[mxid].avatarUrl, users[mxid].deactivated)
  {
    if mxid !in users then Err(UserNotFound)
    else Ok(MatrixUser(users[mxid].displayname, users[mxid].avatarUrl, users[mxid].deactivated))
  }

  /** `is_localpart_available`: neither reserved nor provisioned. */
  function Available(users: Users, reserved: set<string>, server: string, localpart: string): bool
  {
    localpart !in reserved && Mxid(localpart, server) !in users
  }

  /** The user map with the entry at `mxid` replaced. */
  function Modify(users: Users, mxid: string, updated: MockUser): (r: Result<Users, MockError>)
    requires mxid in users
    ensures r == Ok(users[mxid := updated])
  {
    Ok(users[mxid := updated])
  }

  /** `upsert_device`: the device joins the user's set. */
  function AddDevice(users: Users, mxid: string, device: string): (r: Result<Users, MockError>)
    ensures r.Err? <==> mxid !in users
    ensures r.Ok? ==> r.value.Keys == users.Keys && OthersUnchanged(users, r.value, mxid)
    ensures r.Ok? ==> r.value[mxid].devices == users[mxid].devices + {device}
    ensures r.Ok? ==> r.value[mxid] == users[mxid].(devices := r.value[mxid].devices)
  {
    if mxid !in users then Err(UserNotFound)
    else Modify(users, mxid, users[mxid].(devices := users[mxid].devices + {device}))
  }

  /** `delete_device`: the device leaves the user's set, present or not. */
  function RemoveDevice(users: Users, mxid: string, device: string): (r: Result<Users, MockError>)
    ensures r.Err? <==> mxid !in users
    ensures r.Ok? ==> r.value.Keys == users.Keys && OthersUnchanged(users, r.value, mxid)
    ensures r.Ok? ==> r.value[mxid].devices == users[mxid].devices - {device}
    ensures r.Ok? ==> r.value[mxid] == users[mxid].(devices := r.value[mxid].devices)
  {
    if mxid !in users then Err(UserNotFound)
    else Modify(users, mxid, users[mxid].(devices := users[mxid].devices - {device}))
  }

  /** `sync_devices`: the user's device set is replaced wholesale. */
  function ReplaceDevices(users: Users, mxid: string, devices: set<string>): (r: Result<Users, MockError>)
    ensures r.Err? <==> mxid !in users
    ensures r.Ok? ==> r.value.Keys == users.Keys && OthersUnchanged(users, r.value, mxid)
    ensures r.Ok? ==> r.value[mxid] == users[mxid].(devices := devices)
  {
    if mxid !in users then Err(UserNotFound)
    else Modify(users, mxid, users[mxid].(devices := devices))
  }

  /** `update_device_display_name`: checks that the user and the device exist; stores nothing. */
  function CheckDevice(users: Users, mxid: string, device: string): (r: Result<(), MockError>)
    ensures r.Ok? <==> mxid in users && device in users[mxid].devices
    ensures r == Err(UserNotFound) <==> mxid !in users
  {
    if mxid !in users then Err(UserNotFound)
    else if device !in users[mxid].devices then Err(DeviceNotFound)
    else Ok(())
  }

  /**
   * `delete_user`: devices and e-mails are dropped and the user is
   * deactivated; avatar and display name are cleared only when erasing.
   */
  function Deactivate(users: Users, mxid: string, erase: bool): (r: Result<Users, MockError>)
    ensures r.Err? <==> mxid !in users
    ensures r.Ok? ==> r.value.Keys == users.Keys && OthersUnchanged(users, r.value, mxid)
    ensures r.Ok? ==> var u := r.value[mxid];
      u.devices == {} && u.emails.None? && u.deactivated
      && u.sub == users[mxid].sub && u.crossSigningResetAllowed == users[mxid].crossSigningResetAllowed
      && (erase ==> u.avatarUrl.None? && u.displayname.None?)
      && (!erase ==> u.avatarUrl == users[mxid].avatarUrl && u.displayname == users[mxid].displayname)
  {
    if mxid !in users then Err(UserNotFound)
    else
      var u := users[mxid].(devices := {}, emails := None, deactivated := true);
      Modify(users, mxid, if erase then u.(avatarUrl := None, displayname := None) else u)
  }

  /** `reactivate_user`: only the deactivation flag changes. */
  function Reactivate(users: Users, mxid: string): (r: Result<Users, MockError>)
    ensures r.Err? <==> mxid !in users
    ensures r.Ok? ==> r.value.Keys == users.Keys && OthersUnchanged(users, r.value, mxid)
    ensures r.Ok? ==> r.value[mxid] == users[mxid].(deactivated := false)
  {
    if mxid !in users then Err(UserNotFound)
    else Modify(users, mxid, users[mxid].(deactivated := false))
  }

  /** `set_displayname` with a name, `unset_displayname` with none. */
  function SetDisplayname(users: Users, mxid: string, name: Option<string>): (r: Result<Users, MockError>)
    ensures r.Err? <==> mxid !in users
    ensures r.Ok? ==> r.value.Keys == users.Keys && OthersUnchanged(users, r.value, mxid)
    ensures r.Ok? ==> r.value[mxid] == users[mxid].(displayname := name)
  {
    if mxid !in users then Err(UserNotFound)
    else Modify(users, mxid, users[mxid].(displayname := name))
  }

  /** `allow_cross_signing_reset`. */
  function AllowReset(users: Users, mxid: string): (r: Result<Users, MockError>)
    ensures r.Err? <==> mxid !in users
    ensures r.Ok? ==> r.value.Keys == users.Keys && OthersUnchanged(users, r.value, mxid)
    ensures r.Ok? ==> r.value[mxid] == users[mxid].(crossSigningResetAllowed := true)
  {
    if mxid !in users then Err(UserNotFound)
    else Modify(users, mxid, users[mxid].(crossSigningResetAllowed := true))
  }

  class HomeserverConnection {
    const homeserver: string
    var users: Users
    var reservedLocalparts: set<string>

    /** `new`: no users and nothing reserved. */
    constructor (homeserver: string)
      ensures this.homeserver == homeserver
      ensures users == map[] && reservedLocalparts == {}
    {
      this.homeserver := homeserver;
      users := map[];
      reservedLocalparts := {};
    }

    method ReserveLocalpart(localpart: string)
      modifies this
      ensures reservedLocalparts == old(reservedLocalparts) + {localpart}
      ensures users == old(users)
    {
      reservedLocalparts := reservedLocalparts + {localpart};
    }

    method VerifyToken(token: string) returns (valid: bool)
      ensures valid <==> token == ValidBearerToken
    {
      valid := token == ValidBearerToken;
    }

    method QueryUser(localpart: string) returns (r: Result<MatrixUser, MockError>)
      ensures r == Query(users, Mxid(localpart, homeserver))
    {
      var mxid := Mxid(localpart, homeserver);
      if mxid !in users {
        return Err(UserNotFound);
      }
      var user := users[mxid];
      return Ok(MatrixUser(user.displayname, user.avatarUrl, user.deactivated));
    }

    method ProvisionUser(request: ProvisionRequest) returns (r: Result<bool, MockError>)
      modifies this
      ensures var p := Provision(old(users), Mxid(request.localpart, homeserver), request);
        (p.Ok? ==> r == Ok(p.value.0) && users == p.value.1)
        && (p.Err? ==> r == Err(p.error) && users == old(users))
      ensures reservedLocalparts == old(reservedLocalparts)
    {
      var mxid := Mxid(request.localpart, homeserver);
      var inserted := mxid !in users;
      var user := if inserted then NewUser(request.sub) else users[mxid];
      if user.sub != request.sub {
        return Err(SubMismatch);
      }
      user := user.(emails := Act(request.emails, user.emails));
      user := user.(displayname := Act(request.displayname, user.displayname));
      user := user.(avatarUrl := Act(request.avatarUrl, user.avatarUrl));
      users := users[mxid := user];
      return Ok(inserted);
    }

    method IsLocalpartAvailable(localpart: string) returns (available: bool)
      ensures available == Available(users, reservedLocalparts, homeserver, localpart)
    {
      if localpart in reservedLocalparts {
        return false;
      }
      available := Mxid(localpart, homeserver) !in users;
    }

    method UpsertDevice(localpart: string, deviceId: string) returns (r: Result<(), MockError>)
      modifies this
      ensures var next := AddDevice(old(users), Mxid(localpart, homeserver), deviceId);
        r == Outcome(next) && users == After(old(users), next)
      ensures reservedLocalparts == old(reservedLocalparts)
    {
      var mxid := Mxid(localpart, homeserver);
      if mxid !in users {
        return Err(UserNotFound);
      }
      var user := users[mxid];
      users := users[mxid := user.(devices := user.devices + {deviceId})];
      return Ok(());
    }

    method UpdateDeviceDisplayName(localpart: string, deviceId: string, displayName: string)
      returns (r: Result<(), MockError>)
      ensures r == CheckDevice(users, Mxid(localpart, homeserver), deviceId)
    {
      var mxid := Mxid(localpart, homeserver);
      if mxid !in users {
        return Err(UserNotFound);
      }
      if deviceId !in users[mxid].devices {
        return Err(DeviceNotFound);
      }
      return Ok(());
    }

    method DeleteDevice(localpart: string, deviceId: string) returns (r: Result<(), MockError>)
      modifies this
      ensures var next := RemoveDevice(old(users), Mxid(localpart, homeserver), deviceId);
        r == Outcome(next) && users == After(old(users), next)
      ensures reservedLocalparts == old(reservedLocalparts)
    {
      var mxid := Mxid(localpart, homeserver);
      if mxid !in users {
        return Err(UserNotFound);
      }
      var user := users[mxid];
      users := users[mxid := user.(devices := user.devices - {deviceId})];
      return Ok(());
    }

    method SyncDevices(localpart: string, devices: set<string>) returns (r: Result<(), MockError>)
      modifies this
      ensures var next := ReplaceDevices(old(users), Mxid(localpart, homeserver), devices);
        r == Outcome(next) && users == After(old(users), next)
      ensures reservedLocalparts == old(reservedLocalparts)
    {
      var mxid := Mxid(localpart, homeserver);
      if mxid !in users {
        return Err(UserNotFound);
      }
      users := users[mxid := users[mxid].(devices := devices)];
      return Ok(());
    }

    method DeleteUser(localpart: string, erase: bool) returns (r: Result<(), MockError>)
      modifies this
      ensures var next := Deactivate(old(users), Mxid(localpart, homeserver), erase);
        r == Outcome(next) && users == After(old(users), next)
      ensures reservedLocalparts == old(reservedLocalparts)
    {
      var mxid := Mxid(localpart, homeserver);
      if mxid !in users {
        return Err(UserNotFound);
      }
      var user := users[mxid];
      user := user.(devices := {}, emails := None, deactivated := true);
      if erase {
        user := user.(avatarUrl := None, displayname := None);
      }
      users := users[mxid := user];
      return Ok(());
    }

    method ReactivateUser(localpart: string) returns (r: Result<(), MockError>)
      modifies this
      ensures var next := Reactivate(old(users), Mxid(localpart, homeserver));
        r == Outcome(next) && users == After(old(users), next)
      ensures reservedLocalparts == old(reservedLocalparts)
    {
      var mxid := Mxid(localpart, homeserver);
      if mxid !in users {
        return Err(UserNotFound);
      }
      users := users[mxid := users[mxid].(deactivated := false)];
      return Ok(());
    }

    method SetDisplayName(localpart: string, displayname: string) returns (r: Result<(), MockError>)
      modifies this
      ensures var next := SetDisplayname(old(users), Mxid(localpart, homeserver), Some(displayname));
        r == Outcome(next) && users == After(old(users), next)
      ensures reservedLocalparts == old(reservedLocalparts)
    {
      var mxid := Mxid(localpart, homeserver);
      if mxid !in users {
        return Err(UserNotFound);
      }
      users := users[mxid := users[mxid].(displayname := Some(displayname))];
      return Ok(());
    }

    method UnsetDisplayName(localpart: string) returns (r: Result<(), MockError>)
      modifies this
      ensures var next := SetDisplayname(old(users), Mxid(localpart, homeserver), None);
        r == Outcome(next) && users == After(old(users), next)
      ensures reservedLocalparts == old(reservedLocalparts)
    {
      var mxid := Mxid(localpart, homeserver);
      if mxid !in users {
        return Err(UserNotFound);
      }
      users := users[mxid := users[mxid].(displayname := None)];
      return Ok(());
    }

    method AllowCrossSigningReset(localpart: string) returns (r: Result<(), MockError>)
      modifies this
      ensures var next := AllowReset(old(users), Mxid(localpart, homeserver));
        r == Outcome(next) && users == After(old(users), next)
      ensures reservedLocalparts == old(reservedLocalparts)
    {
      var mxid := Mxid(localpart, homeserver);
      if mxid !in users {
        return Err(UserNotFound);
      }
      users := users[mxid := users[mxid].(crossSigningResetAllowed := true)];
      return Ok(());
    }
  }

  // ---------------------------------------------------------------------
  // Properties of the operations

  /** Provisioning the same request twice: the second call inserts nothing and changes nothing. */
  lemma ProvisionIdempotent(users: Users, mxid: string, req: ProvisionRequest)
    requires Provision(users, mxid, req).Ok?
    ensures var next := Provision(users, mxid, req).value.1;
      Provision(next, mxid, req) == Ok((false, next))
  {
    var next := Provision(users, mxid, req).value.1;
    var u := next[mxid];
    assert Act(req.emails, u.emails) == u.emails;
    assert Act(req.displayname, u.displayname) == u.displayname;
    assert Act(req.avatarUrl, u.avatarUrl) == u.avatarUrl;
    assert next[mxid := u] == next;
  }

  /** After provisioning, querying the user reports the request's display name and avatar. */
  lemma ProvisionThenQuery(users: Users, mxid: string, req: ProvisionRequest)
    requires Provision(users, mxid, req).Ok?
    ensures var before := if mxid in users then users[mxid] else NewUser(req.sub);
      Query(Provision(users, mxid, req).value.1, mxid)
        == Ok(MatrixUser(Act(req.displayname, before.displayname), Act(req.avatarUrl, before.avatarUrl), before.deactivated))
  {
  }

  /**
   * Provisioning a localpart makes it unavailable and leaves the
   * availability of every other localpart as it was.
   */
  lemma ProvisionTakesLocalpart(users: Users, reserved: set<string>, server: string, localpart: string, other: string, req: ProvisionRequest)
    requires Provision(users, Mxid(localpart, server), req).Ok?
    ensures var next := Provision(users, Mxid(localpart, server), req).value.1;
      !Available(next, reserved, server, localpart)
      && (other != localpart ==> Available(next, reserved, server, other) == Available(users, reserved, server, other))
  {
    if other != localpart && Mxid(other, server) == Mxid(localpart, server) {
      MxidInjective(other, localpart, server);
    }
  }

  /** Upserting a device twice is the same as upserting it once. */
  lemma UpsertDeviceIdempotent(users: Users, mxid: string, device: string)
    requires mxid in users
    ensures AddDevice(AddDevice(users, mxid, device).value, mxid, device) == AddDevice(users, mxid, device)
  {
    var once := AddDevice(users, mxid, device).value;
    assert once[mxid].devices + {device} == once[mxid].devices;
    assert once[mxid := once[mxid].(devices := once[mxid].devices)] == once;
  }

  /** Deleting a device the user does not have succeeds and changes nothing. */
  lemma DeleteAbsentDevice(users: Users, mxid: string, device: string)
    requires mxid in users && device !in users[mxid].devices
    ensures RemoveDevice(users, mxid, device) == Ok(users)
  {
    assert users[mxid].devices - {device} == users[mxid].devices;
    assert users[mxid := users[mxid]] == users;
  }

  /** A device that was upserted and then deleted is gone, and no other device is affected. */
  lemma UpsertThenDelete(users: Users, mxid: string, device: string)
    requires mxid in users
    ensures RemoveDevice(AddDevice(users, mxid, device).value, mxid, device).value[mxid].devices
      == users[mxid].devices - {device}
  {
  }

  /** Setting a display name and querying gives that name; unsetting it gives none. */
  lemma SetThenQuery(users: Users, mxid: string, name: Option<string>)
    requires mxid in users
    ensures Query(SetDisplayname(users, mxid, name).value, mxid).value.displayname == name
  {
  }

  /**
   * Deleting and then reactivating a user gives back an active user without
   * devices or e-mails; its profile survives unless it was erased.
   */
  lemma DeleteThenReactivate(users: Users, mxid: string, erase: bool)
    requires mxid in users
    ensures var u := Reactivate(Deactivate(users, mxid, erase).value, mxid).value[mxid];
      !u.deactivated && u.devices == {} && u.emails.None? && u.sub == users[mxid].sub
      && (erase ==> u.displayname.None? && u.avatarUrl.None?)
      && (!erase ==> u.displayname == users[mxid].displayname && u.avatarUrl == users[mxid].avatarUrl)
  {
  }

  /** Every operation on a user that is not provisioned fails and leaves the map as it was. */
  lemma UnknownUserUnchanged(users: Users, mxid: string, device: string, devices: set<string>, erase: bool, name: Option<string>)
    requires mxid !in users
    ensures AddDevice(users, mxid, device) == Err(UserNotFound)
    ensures RemoveDevice(users, mxid, device) == Err(UserNotFound)
    ensures ReplaceDevices(users, mxid, devices) == Err(UserNotFound)
    ensures CheckDevice(users, mxid, device) == Err(UserNotFound)
    ensures Deactivate(users, mxid, erase) == Err(UserNotFound)
    ensures Reactivate(users, mxid) == Err(UserNotFound)
    ensures SetDisplayname(users, mxid, name) == Err(UserNotFound)
    ensures AllowReset(users, mxid) == Err(UserNotFound)
    ensures Query(users, mxid) == Err(UserNotFound)
  {
  }
}
