/**
 * The consent page of the OAuth 2.0 device authorization grant: a signed-in
 * user approves or rejects a pending device-code grant, subject to the
 * grant's expiry, its client's existence and the authorization policy.
 */
module DeviceConsent {
  import opened Results
  import PolicyModel

  type GrantId = nat
  type ClientId = nat

  /** The user's browser session; `None` stands for a visitor who is not signed in. */
  datatype BrowserSession = BrowserSession(id: nat, userId: nat)

  datatype GrantState =
    | Pending
    | Fulfilled(browserSessionId: nat, fulfilledAt: int)
    | Rejected(browserSessionId: nat, rejectedAt: int)

  /** A device-code grant; times are microseconds. */
  datatype Grant = Grant(id: GrantId, clientId: ClientId, expiresAt: int, state: GrantState)

  /** The consent form's `action`. */
  datatype Action = Consent | Reject

  /** Deserialising the action (`rename_all = "lowercase"`). */
  function ParseAction(s: string): Option<Action>
  {
    match s
    case "consent" => Some(Consent)
    case "reject" => Some(Reject)
    case _ => None
  }

  function ActionName(a: Action): string
  {
    match a
    case Consent => "consent"
    case Reject => "reject"
  }

  lemma ParseActionName(a: Action)
    ensures ParseAction(ActionName(a)) == Some(a)
  {
  }

  /** What the handler answers. */
  datatype Response =
    | RedirectToLogin(continueGrant: GrantId)
    | GrantNotFound
    | GrantExpired
    | ClientNotFound
    | PolicyViolationPage(grant: Grant)
    | ConsentPage(grant: Grant)

  /** A grant is expired once its expiry lies strictly before now. */
  predicate Expired(g: Grant, now: int)
  {
    g.expiresAt < now
  }

  /** The grant after the user's decision; only a pending grant changes. */
  function Decide(g: Grant, action: Action, session: BrowserSession, now: int): (r: Grant)
    ensures g.state.Pending? && action == Consent ==> r == g.(state := Fulfilled(session.id, now))
    ensures g.state.Pending? && action == Reject ==> r == g.(state := Rejected(session.id, now))
    ensures !g.state.Pending? ==> r == g
    ensures r.id == g.id && r.clientId == g.clientId && r.expiresAt == g.expiresAt
  {
    if g.state.Pending? then
      match action
      case Consent => g.(state := Fulfilled(session.id, now))
      case Reject => g.(state := Rejected(session.id, now))
    else g
  }

  /** The checks `get` and `post` share, in their order; `None` when all pass. */
  function Gate(grants: map<GrantId, Grant>, clients: set<ClientId>, session: Option<BrowserSession>,
                grantId: GrantId, now: int, policy: PolicyModel.EvaluationResult): (r: Option<Response>)
    ensures session.None? ==> r == Some(RedirectToLogin(grantId))
    ensures r.None? <==> (session.Some? && grantId in grants && !Expired(grants[grantId], now)
                          && grants[grantId].clientId in clients && PolicyModel.Valid(policy))
  {
    if session.None? then Some(RedirectToLogin(grantId))
    else if grantId !in grants then Some(GrantNotFound)
    else if Expired(grants[grantId], now) then Some(GrantExpired)
    else if grants[grantId].clientId !in clients then Some(ClientNotFound)
    else if !PolicyModel.Valid(policy) then Some(PolicyViolationPage(grants[grantId]))
    else None
  }

  /** `post`: the response and the grant table it leaves. */
  function PostSpec(grants: map<GrantId, Grant>, clients: set<ClientId>, session: Option<BrowserSession>,
                    grantId: GrantId, action: Action, now: int, policy: PolicyModel.EvaluationResult)
    : (Response, map<GrantId, Grant>)
  {
    match Gate(grants, clients, session, grantId, now, policy)
    case Some(stop) => (stop, grants)
    case None =>
      var g := Decide(grants[grantId], action, session.value, now);
      (ConsentPage(g), grants[grantId := g])
  }

  class Repository {
    var grants: map<GrantId, Grant>
    var clients: set<ClientId>

    constructor (grants: map<GrantId, Grant>, clients: set<ClientId>)
      ensures this.grants == grants && this.clients == clients
    {
      this.grants := grants;
      this.clients := clients;
    }

    /** `get`: renders the consent page or the reason it cannot; never writes. */
    method Get(session: Option<BrowserSession>, grantId: GrantId, now: int, policy: PolicyModel.EvaluationResult)
      returns (response: Response)
      ensures var stop := Gate(grants, clients, session, grantId, now, policy);
        response == if stop.Some? then stop.value else ConsentPage(grants[grantId])
    {
      if session.None? {
        return RedirectToLogin(grantId);
      }
      if grantId !in grants {
        return GrantNotFound;
      }
      var grant := grants[grantId];
      if grant.expiresAt < now {
        return GrantExpired;
      }
      if grant.clientId !in clients {
        return ClientNotFound;
      }
      if !PolicyModel.Valid(policy) {
        return PolicyViolationPage(grant);
      }
      return ConsentPage(grant);
    }

    /** `post`: the same checks, then the decision on a pending grant, saved. */
    method Post(session: Option<BrowserSession>, grantId: GrantId, action: Action, now: int,
                policy: PolicyModel.EvaluationResult)
      returns (response: Response)
      modifies this
      ensures (response, grants) == PostSpec(old(grants), old(clients), session, grantId, action, now, policy)
      ensures clients == old(clients)
    {
      if session.None? {
        return RedirectToLogin(grantId);
      }
      if grantId !in grants {
        return GrantNotFound;
      }
      var grant := grants[grantId];
      if grant.expiresAt < now {
        return GrantExpired;
      }
      if grant.clientId !in clients {
        return ClientNotFound;
      }
      if !PolicyModel.Valid(policy) {
        return PolicyViolationPage(grant);
      }
      if grant.state.Pending? {
        match action {
          case Consent =>
            grant := grant.(state := Fulfilled(session.value.id, now));
          case Reject =>
            grant := grant.(state := Rejected(session.value.id, now));
        }
      }
      grants := grants[grantId := grant];
      return ConsentPage(grant);
    }
  }

  // ---------------------------------------------------------------------
  // Properties

  /** Without a browser session the user is sent to log in, continuing this grant, and nothing changes. */
  lemma NoSessionRedirects(grants: map<GrantId, Grant>, clients: set<ClientId>, grantId: GrantId,
                           action: Action, now: int, policy: PolicyModel.EvaluationResult)
    ensures PostSpec(grants, clients, None, grantId, action, now, policy) == (RedirectToLogin(grantId), grants)
  {
  }

  /**
   * A grant whose expiry is before now is refused before the policy is
   * consulted; a grant expiring exactly now is still usable.
   */
  lemma ExpiryBoundary(grants: map<GrantId, Grant>, clients: set<ClientId>, session: BrowserSession, grantId: GrantId,
                       action: Action, now: int, policy: PolicyModel.EvaluationResult)
    requires grantId in grants
    ensures grants[grantId].expiresAt < now ==>
      PostSpec(grants, clients, Some(session), grantId, action, now, policy) == (GrantExpired, grants)
    ensures grants[grantId].expiresAt == now && grants[grantId].clientId in clients && PolicyModel.Valid(policy) ==>
      PostSpec(grants, clients, Some(session), grantId, action, now, policy).0.ConsentPage?
  {
  }

  /** A policy with violations shows the violation page and leaves the grant undecided. */
  lemma PolicyBlocks(grants: map<GrantId, Grant>, clients: set<ClientId>, session: BrowserSession, grantId: GrantId,
                     action: Action, now: int, policy: PolicyModel.EvaluationResult)
    requires grantId in grants && !Expired(grants[grantId], now) && grants[grantId].clientId in clients
    requires !PolicyModel.Valid(policy)
    ensures PostSpec(grants, clients, Some(session), grantId, action, now, policy)
      == (PolicyViolationPage(grants[grantId]), grants)
  {
  }

  /** The only grant `post` can change is the one it was asked about, and only from pending. */
  lemma PostChangesOnlyPendingGrant(grants: map<GrantId, Grant>, clients: set<ClientId>, session: Option<BrowserSession>,
                                    grantId: GrantId, action: Action, now: int, policy: PolicyModel.EvaluationResult)
    ensures var next := PostSpec(grants, clients, session, grantId, action, now, policy).1;
      next.Keys == grants.Keys
      && (forall id :: id in grants && id != grantId ==> next[id] == grants[id])
      && (grantId in grants && !grants[grantId].state.Pending? ==> next == grants)
  {
    var next := PostSpec(grants, clients, session, grantId, action, now, policy).1;
    if grantId in grants && !grants[grantId].state.Pending? {
      assert grants[grantId := grants[grantId]] == grants;
    }
  }

  /**
   * Submitting the form again, whatever the action, answers with the grant
   * as decided the first time and changes nothing more.
   */
  lemma ResubmissionIdempotent(grants: map<GrantId, Grant>, clients: set<ClientId>, session: Option<BrowserSession>,
                               grantId: GrantId, first: Action, second: Action, now: int, later: int,
                               policy: PolicyModel.EvaluationResult)
    requires later >= now
    requires PostSpec(grants, clients, session, grantId, first, now, policy).0.ConsentPage?
    requires grants[grantId].state.Pending?
    requires grants[grantId].expiresAt >= later
    ensures var (r1, g1) := PostSpec(grants, clients, session, grantId, first, now, policy);
      PostSpec(g1, clients, session, grantId, second, later, policy) == (r1, g1)
  {
    var (r1, g1) := PostSpec(grants, clients, session, grantId, first, now, policy);
    assert g1[grantId := g1[grantId]] == g1;
  }

  /** `get` answers what `post` would before deciding: the same checks in the same order. */
  lemma GetMatchesPostChecks(grants: map<GrantId, Grant>, clients: set<ClientId>, session: Option<BrowserSession>,
                             grantId: GrantId, action: Action, now: int, policy: PolicyModel.EvaluationResult)
    ensures var stop := Gate(grants, clients, session, grantId, now, policy);
      stop.Some? ==> PostSpec(grants, clients, session, grantId, action, now, policy) == (stop.value, grants)
  {
  }
}
