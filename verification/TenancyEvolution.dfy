/** How one step may change the tables: which membership rows it may add, which
    rows it may not reopen, and where invitations and join requests come from. */
module TenancyEvolution {
  import opened Common
  import opened Tenancy
  import opened TenancyMachine
  import opened TenancyInvariants
  import S = TenancySteps

  // ---- How one step may change the membership table

  /** Row `k` is deactivated and its user's account is redacted. */
  ghost predicate Shut(ms: map<Id, Membership>, us: map<Id, User>, k: Id) {
    k in ms && !Active(ms[k]) && ms[k].user in us && Redacted(us[ms[k].user])
  }

  /** A row stays with its user and organization, and a shut row stays shut. */
  ghost predicate Settled(ms: map<Id, Membership>, us: map<Id, User>, ms': map<Id, Membership>, us': map<Id, User>, k: Id)
    requires k in ms && k in ms'
  {
    && ms'[k].org == ms[k].org && ms'[k].user == ms[k].user
    && (Shut(ms, us, k) ==> Shut(ms', us', k))
  }

  /** A user and the organization it takes a seat in. */
  type Seat = (Id, Id)

  /** Old rows are settled; a new row has a new id and takes the one seat the step offers. */
  ghost predicate Grows(ms: map<Id, Membership>, us: map<Id, User>, ms': map<Id, Membership>, us': map<Id, User>,
                        next: Id, seat: Option<Seat>) {
    && (forall k :: k in ms' && k in ms ==> Settled(ms, us, ms', us', k))
    && (forall k :: k in ms' && k !in ms ==> next <= k && seat == Some((ms'[k].user, ms'[k].org)))
  }

  ghost predicate Evolves(db: Tables, later: Tables, seat: Option<Seat>) {
    Grows(db.memberships, db.users, later.memberships, later.users, db.nextId, seat)
  }

  lemma PutGrows(ms: map<Id, Membership>, us: map<Id, User>, id: Id, m: Membership, next: Id, seat: Option<Seat>)
    requires id in ms ==> m.org == ms[id].org && m.user == ms[id].user && (Shut(ms, us, id) ==> !Active(m))
    requires id !in ms ==> next <= id && seat == Some((m.user, m.org))
    ensures Grows(ms, us, ms[id := m], us, next, seat)
  {
  }

  lemma StillGrows(db: Tables, seat: Option<Seat>)
    ensures Evolves(db, db, seat)
  {
  }

  /** The reactivation validation is what keeps a redacted user's row shut. */
  lemma ShutRowStaysShut(db: Tables, id: Id, m: Membership)
    requires Shut(db.memberships, db.users, id) && m.user == db.memberships[id].user && ValidUpdate(db, id, m)
    ensures !Active(m)
  {
  }

  lemma SaveEvolves(db: Tables, id: Id, m: Membership, seat: Option<Seat>)
    requires id in db.memberships && m.org == db.memberships[id].org && m.user == db.memberships[id].user
    ensures Evolves(db, S.SaveMembership(db, id, m).db, seat)
  {
    if ValidUpdate(db, id, m) {
      if Shut(db.memberships, db.users, id) {
        ShutRowStaysShut(db, id, m);
      }
      PutGrows(db.memberships, db.users, id, m, db.nextId, seat);
    }
  }

  lemma AddEvolves(db: Tables, m: Membership)
    requires db.nextId !in db.memberships
    ensures Evolves(db, S.AddMembership(db, m).db, Some((m.user, m.org)))
  {
    PutGrows(db.memberships, db.users, db.nextId, m, db.nextId, Some((m.user, m.org)));
  }

  lemma AdmitEvolves(db: Tables, org: Id, user: Id)
    requires db.nextId !in db.memberships
    ensures Evolves(db, S.Admit(db, org, user).db, Some((user, org)))
  {
    match FindMembership(db.memberships, org, user)
    case Some(k) => SaveEvolves(db, k, db.memberships[k].(deactivatedAt := None), Some((user, org)));
    case None => AddEvolves(db, Membership(org, user, Member, None, ByInvitation));
  }

  /** Users keep their accounts redacted, rows disappear or stay as they are. */
  lemma FewerEvolves(db: Tables, later: Tables, seat: Option<Seat>)
    requires Subtable(later.memberships, db.memberships)
    requires forall u :: u in db.users && u in later.users && Redacted(db.users[u]) ==> Redacted(later.users[u])
    requires forall k :: k in later.memberships ==> later.memberships[k].user in later.users
    ensures Evolves(db, later, seat)
  {
  }

  /** A provisioned identity: the new user's row comes with its seat. */
  lemma ProvisionEvolves(db: Tables, email: string, m: Membership)
    requires Inv(db) && m.user == db.nextId
    ensures Evolves(db, S.AddUserWithSeat(db, email, m).db, Some((m.user, m.org)))
  {
    var db1 := db.(users := db.users[db.nextId := User(email, false, None, false)], nextId := db.nextId + 1);
    AddEvolves(db1, m);
    FewerEvolves(db, db1, None);
    StillGrows(db, Some((m.user, m.org)));
    EvolvesTwice(db, db1, S.AddMembership(db1, m).db, Some((m.user, m.org)));
  }

  lemma EvolvesTwice(db: Tables, db1: Tables, db2: Tables, seat: Option<Seat>)
    requires Evolves(db, db1, None) && Evolves(db1, db2, seat) && db.nextId <= db1.nextId
    requires db1.memberships.Keys == db.memberships.Keys
    ensures Evolves(db, db2, seat)
  {
  }

  // ---- The seat each step offers

  ghost function OrganizationSeat(db: Tables, a: OrganizationAction): Option<Seat> {
    if a.CreateOrganization? then Some((a.user, db.nextId)) else None
  }

  ghost function RequestSeat(db: Tables, a: SeatAction): Option<Seat> {
    if a.RequestAccess? then Some((a.user, a.org))
    else if a.Approve? && a.request in db.requests then Some((db.requests[a.request].user, db.requests[a.request].org))
    else None
  }

  ghost function InviteSeat(db: Tables, a: InviteAction): Option<Seat> {
    if a.Accept? && a.invitation in db.invitations then Some((a.user, db.invitations[a.invitation].org)) else None
  }

  /** An identity provider only ever seats a user created in the same step. */
  ghost function IdentitySeat(db: Tables, a: IdentityAction): Option<Seat> {
    if a.SsoSignIn? && a.connection in db.identity.connections then Some((db.nextId, db.identity.connections[a.connection].org))
    else if a.ScimCreate? && a.connection in db.identity.scim then Some((db.nextId, db.identity.scim[a.connection].org))
    else None
  }

  /** The one seat `a` may fill, and none for every other step. */
  ghost function SeatOf(db: Tables, a: Action): Option<Seat> {
    match a
    case OnAccount(_) => None
    case OnOrganization(b) => OrganizationSeat(db, b)
    case OnSeat(b) => RequestSeat(db, b)
    case OnInvite(b) => InviteSeat(db, b)
    case OnIdentity(b) => IdentitySeat(db, b)
  }

  lemma DropUsersEvolves(db: Tables, us: set<Id>)
    requires MembersRefer(db.memberships, db.orgs, db.users)
    ensures Evolves(db, S.DropUsers(db, us), None)
  {
    FewerEvolves(db, S.DropUsers(db, us), None);
  }

  lemma DropOrganizationsEvolves(db: Tables, os: set<Id>)
    requires MembersRefer(db.memberships, db.orgs, db.users)
    ensures Evolves(db, S.DropOrganizations(db, os), None)
  {
    FewerEvolves(db, S.DropOrganizations(db, os), None);
  }

  lemma WithdrawnGrows(ms: map<Id, Membership>, us: map<Id, User>, u: Id, row: User, now: Time, next: Id)
    requires Redacted(row)
    ensures Grows(ms, us, S.Withdrawn(ms, u, now), us[u := row], next, None)
  {
  }

  lemma RedactEvolves(db: Tables, u: Id, now: Time)
    requires u in db.users
    ensures Evolves(db, S.Redact(db, u, now).db, None)
  {
    WithdrawnGrows(db.memberships, db.users, u, User(RedactedEmail(u), db.users[u].banned, Some(now), false), now, db.nextId);
  }

  lemma UserPutGrows(ms: map<Id, Membership>, us: map<Id, User>, u: Id, row: User, next: Id)
    requires u in us && Redacted(us[u]) ==> Redacted(row)
    ensures Grows(ms, us, ms, us[u := row], next, None)
  {
  }

  lemma AccountStepEvolves(db: Tables, a: AccountAction)
    requires Inv(db)
    ensures Evolves(db, AccountStep(db, a).db, None)
  {
    assert MembersRefer(db.memberships, db.orgs, db.users) && db.nextId !in db.users;
    hide Inv, Grows, S.SaveMembership, S.AddMembership;
    StillGrows(db, None);
    match a
    case SignUp(email, _) => UserPutGrows(db.memberships, db.users, db.nextId, User(Canonical(email), false, None, false), db.nextId);
    case ChangeEmail(u, _, email, _) =>
      if u in db.users { UserPutGrows(db.memberships, db.users, u, db.users[u].(email := Canonical(email)), db.nextId); }
    case Ban(u, banned) =>
      if u in db.users { UserPutGrows(db.memberships, db.users, u, db.users[u].(banned := banned), db.nextId); }
    case SetTwoFactor(u, on) =>
      if u in db.users { UserPutGrows(db.memberships, db.users, u, db.users[u].(twoFactor := on), db.nextId); }
    case CloseAccount(u, session, now) => CloseAccountEvolves(db, u, session, now);
    case _ =>
  }

  lemma CloseAccountEvolves(db: Tables, u: Id, session: Id, now: Time)
    requires MembersRefer(db.memberships, db.orgs, db.users)
    ensures Evolves(db, S.CloseAccount(db, u, session, now).db, None)
  {
    if u in db.users {
      var db1 := S.SignedOut(db, u, session);
      RedactEvolves(db1, u, now);
      DropUsersEvolves(db1, {u});
      hide S.Redact, S.DropUsers;
    }
  }

  lemma CreateOrganizationEvolves(db: Tables, u: Id, privacy: Privacy, logo: bool, valid: bool)
    requires db.nextId + 1 !in db.memberships
    ensures Evolves(db, S.CreateOrganization(db, u, privacy, logo, valid).db, Some((u, db.nextId)))
  {
    hide Grows;
    StillGrows(db, Some((u, db.nextId)));
    PutGrows(db.memberships, db.users, db.nextId + 1, Membership(db.nextId, u, Admin, None, ByInvitation), db.nextId, Some((u, db.nextId)));
  }

  lemma TransferEvolves(db: Tables, actor: Id, target: Id)
    ensures Evolves(db, S.TransferOwnership(db, actor, target).db, None)
  {
    hide Grows, S.SaveMembership;
    StillGrows(db, None);
    if actor in db.memberships {
      var k := FindMembership(db.memberships, db.memberships[actor].org, target);
      if k.Some? {
        SaveEvolves(db, k.value, db.memberships[k.value].(role := Admin), None);
      }
    }
  }

  lemma OrganizationStepFrames(db: Tables, a: OrganizationAction)
    requires !a.CreateOrganization? && !a.TransferOwnership? && !a.PurgeJob?
    ensures OrganizationStep(db, a).db.memberships == db.memberships && OrganizationStep(db, a).db.users == db.users
  {
  }

  lemma OrganizationStepEvolves(db: Tables, a: OrganizationAction)
    requires Inv(db)
    ensures Evolves(db, OrganizationStep(db, a).db, OrganizationSeat(db, a))
  {
    assert MembersRefer(db.memberships, db.orgs, db.users) && db.nextId + 1 !in db.memberships;
    hide Inv, Grows;
    match a
    case CreateOrganization(u, privacy, logo, valid) => CreateOrganizationEvolves(db, u, privacy, logo, valid);
    case TransferOwnership(actor, target) => TransferEvolves(db, actor, target);
    case PurgeJob(now, start, stop) => PurgeEvolves(db, now, start, stop);
    case _ =>
      hide OrganizationStep;
      OrganizationStepFrames(db, a);
      StillGrows(db, None);
  }

  lemma PurgeEvolves(db: Tables, now: Time, start: Id, stop: Option<Id>)
    requires MembersRefer(db.memberships, db.orgs, db.users)
    ensures Evolves(db, S.Purge(db, now, start, stop).db, None)
  {
    var first := S.PurgeOrganizations(db, now, start, stop).db;
    DropOrganizationsEvolves(db, S.PurgePrefix(db, now, start, stop));
    var purged := S.OrphanPrefix(first);
    FewerEvolves(db, S.DropUsers(first, purged), None);
  }

  lemma RequestAccessEvolves(db: Tables, u: Id, o: Id)
    requires db.nextId !in db.memberships
    ensures Evolves(db, S.RequestAccess(db, u, o).db, Some((u, o)))
  {
    hide Grows, S.Admit;
    StillGrows(db, Some((u, o)));
    AdmitEvolves(db, o, u);
  }

  lemma ApproveEvolves(db: Tables, actor: Id, r: Id)
    requires db.nextId !in db.memberships
    ensures Evolves(db, S.ApproveRequest(db, actor, r).db, RequestSeat(db, Approve(actor, r)))
  {
    hide Grows, S.Admit;
    StillGrows(db, RequestSeat(db, Approve(actor, r)));
    if S.MayDecide(db, actor, r) {
      var row := db.requests[r].(approved := true, completedBy := Some(db.memberships[actor].user));
      AdmitEvolves(db.(requests := db.requests[r := row]), row.org, row.user);
    }
  }

  lemma ChangeRoleEvolves(db: Tables, actor: Id, m: Id, role: Role)
    ensures Evolves(db, S.ChangeRole(db, actor, m, role).db, None)
  {
    StillGrows(db, None);
    if m in db.memberships { SaveEvolves(db, m, db.memberships[m].(role := role), None); }
  }

  lemma ActivationEvolves(db: Tables, actor: Id, m: Id, now: Time)
    ensures Evolves(db, S.Deactivate(db, actor, m, now).db, None) && Evolves(db, S.Reactivate(db, actor, m).db, None)
  {
    StillGrows(db, None);
    hide Grows, ValidUpdate;
    if m in db.memberships {
      SaveEvolves(db, m, db.memberships[m].(deactivatedAt := Some(now)), None);
      SaveEvolves(db, m, db.memberships[m].(deactivatedAt := None), None);
    }
  }

  lemma SeatStepEvolves(db: Tables, a: SeatAction)
    requires Inv(db)
    ensures Evolves(db, SeatStep(db, a).db, RequestSeat(db, a))
  {
    assert db.nextId !in db.memberships;
    hide Inv, Grows, S.ChangeRole, S.Deactivate, S.Reactivate, S.RequestAccess, S.ApproveRequest;
    StillGrows(db, None);
    match a
    case ChangeRole(actor, m, role) => ChangeRoleEvolves(db, actor, m, role);
    case Deactivate(actor, m, now) => ActivationEvolves(db, actor, m, now);
    case Reactivate(actor, m) => ActivationEvolves(db, actor, m, 0);
    case RequestAccess(u, o) => RequestAccessEvolves(db, u, o);
    case Approve(actor, r) => ApproveEvolves(db, actor, r);
    case _ => StillGrows(db, RequestSeat(db, a));
  }

  lemma RedeemEvolves(db: Tables, u: Id, i: Id)
    requires db.nextId !in db.memberships && i in db.invitations
    ensures Evolves(db, S.Redeem(db, u, i).db, Some((u, db.invitations[i].org)))
  {
    var row := db.invitations[i];
    var db1 := db.(invitations := db.invitations - {i});
    hide Grows, S.SaveMembership, S.AddMembership;
    StillGrows(db, Some((u, row.org)));
    match FindMembership(db.memberships, row.org, u)
    case Some(k) => SaveEvolves(db1, k, db.memberships[k].(role := row.role, deactivatedAt := None, via := ByInvitation), Some((u, row.org)));
    case None => AddEvolves(db1, Membership(row.org, u, row.role, None, ByInvitation));
  }

  lemma InviteStepFrames(db: Tables, a: InviteAction)
    requires !a.Accept?
    ensures InviteStep(db, a).db.memberships == db.memberships && InviteStep(db, a).db.users == db.users
  {
  }

  lemma InviteStepEvolves(db: Tables, a: InviteAction)
    requires Inv(db)
    ensures Evolves(db, InviteStep(db, a).db, InviteSeat(db, a))
  {
    assert db.nextId !in db.memberships;
    hide Inv, Grows, S.Redeem;
    StillGrows(db, InviteSeat(db, a));
    match a
    case Accept(u, i, _, _) => if i in db.invitations { RedeemEvolves(db, u, i); }
    case _ =>
      hide InviteStep;
      InviteStepFrames(db, a);
  }

  lemma IdentityStepEvolves(db: Tables, a: IdentityAction)
    requires Inv(db)
    ensures Evolves(db, IdentityStep(db, a).db, IdentitySeat(db, a))
  {
    hide Inv, Grows, S.SaveMembership, S.AddMembership;
    StillGrows(db, IdentitySeat(db, a));
    match a
    case SsoSignIn(c, email, valid) => if c in db.identity.connections { ResolveEvolves(db, c, email, valid); }
    case ScimCreate(c, userName, active, valid, now) => ScimCreateEvolves(db, c, userName, active, valid, now);
    case ScimUpdate(_, m, active, now) => if m in db.memberships { ScimSaveEvolves(db, m, now); }
    case ScimDestroy(_, m, now) => if m in db.memberships { ScimSaveEvolves(db, m, now); }
    case _ =>
  }

  lemma ScimSaveEvolves(db: Tables, m: Id, now: Time)
    requires m in db.memberships
    ensures Evolves(db, S.SaveMembership(db, m, db.memberships[m]).db, None)
    ensures Evolves(db, S.SaveMembership(db, m, db.memberships[m].(deactivatedAt := None)).db, None)
    ensures Evolves(db, S.SaveMembership(db, m, db.memberships[m].(deactivatedAt := Some(now))).db, None)
  {
    hide Grows, S.SaveMembership;
    SaveEvolves(db, m, db.memberships[m], None);
    SaveEvolves(db, m, db.memberships[m].(deactivatedAt := None), None);
    SaveEvolves(db, m, db.memberships[m].(deactivatedAt := Some(now)), None);
  }

  lemma SignInUserEvolves(db: Tables, connection: SsoConnection, u: Id, seat: Option<Seat>)
    requires u in db.users
    ensures Evolves(db, S.SignInUser(db, connection, u).db, seat)
  {
    hide Grows, S.SaveMembership;
    StillGrows(db, seat);
    var k := FindMembership(db.memberships, connection.org, u);
    if k.Some? {
      SaveEvolves(db, k.value, db.memberships[k.value].(deactivatedAt := None, via := BySso), seat);
    }
  }

  lemma ResolveEvolves(db: Tables, c: Id, asserted: string, userOk: bool)
    requires Inv(db) && c in db.identity.connections
    ensures Evolves(db, S.ResolveSignIn(db, c, asserted, userOk).db, Some((db.nextId, db.identity.connections[c].org)))
  {
    hide Inv, Grows, S.AddUserWithSeat, S.SignInUser;
    var connection, email := db.identity.connections[c], Canonical(asserted);
    var seat := Some((db.nextId, connection.org));
    StillGrows(db, seat);
    match FindUser(db.users, email)
    case Some(u) => SignInUserEvolves(db, connection, u, seat);
    case None => ProvisionEvolves(db, email, Membership(connection.org, db.nextId, connection.defaultRole, None, BySso));
  }

  lemma ScimCreateEvolves(db: Tables, c: Id, userName: string, active: Option<bool>, userOk: bool, now: Time)
    requires Inv(db)
    ensures Evolves(db, S.ScimCreate(db, c, userName, active, userOk, now).db,
                    if c in db.identity.scim then Some((db.nextId, db.identity.scim[c].org)) else None)
  {
    hide Inv, Grows, S.SaveMembership, S.AddUserWithSeat;
    StillGrows(db, if c in db.identity.scim then Some((db.nextId, db.identity.scim[c].org)) else None);
    if c in db.identity.scim {
      var email, o := Canonical(userName), db.identity.scim[c].org;
      var seat := Some((db.nextId, o));
      match FindUser(db.users, email)
      case None =>
        var deactivatedAt := if active == Some(false) then Some(now) else None;
        ProvisionEvolves(db, email, Membership(o, db.nextId, db.identity.scim[c].defaultRole, deactivatedAt, ByScim));
      case Some(u) =>
        var k := FindMembership(db.memberships, o, u);
        if k.Some? {
          SaveEvolves(db, k.value, db.memberships[k.value].(deactivatedAt := None, via := ByScim), seat);
        }
    }
  }

  lemma StepEvolves(db: Tables, a: Action)
    requires Inv(db)
    ensures Evolves(db, Step(db, a).db, SeatOf(db, a))
  {
    hide Inv, Grows, S.SaveMembership, S.AddMembership;
    match a
    case OnAccount(b) => AccountStepEvolves(db, b);
    case OnOrganization(b) => OrganizationStepEvolves(db, b);
    case OnSeat(b) => SeatStepEvolves(db, b);
    case OnInvite(b) => InviteStepEvolves(db, b);
    case OnIdentity(b) => IdentityStepEvolves(db, b);
  }

  // ---- Invitations and join requests over a step

  /** An invitation is kept, dropped or new. */
  ghost predicate NewOnly(invs: map<Id, Invitation>, later: map<Id, Invitation>, next: Id) {
    forall i :: i in later ==> i in invs || next <= i
  }

  /** A new request is filed by the user it would seat. */
  ghost predicate Asked(rs: map<Id, JoinRequest>, later: map<Id, JoinRequest>, ask: Option<Seat>) {
    forall r :: r in later ==>
      (r in rs && rs[r].org == later[r].org && rs[r].user == later[r].user) || ask == Some((later[r].user, later[r].org))
  }

  /** Only a user's own request files a join request. */
  function AskOf(a: Action): Option<Seat> {
    match a
    case OnSeat(RequestAccess(u, o)) => Some((u, o))
    case _ => None
  }

  ghost predicate Advances(db: Tables, later: Tables, ask: Option<Seat>) {
    && db.nextId <= later.nextId
    && NewOnly(db.invitations, later.invitations, db.nextId)
    && Asked(db.requests, later.requests, ask)
  }

  lemma StillAdvances(db: Tables, later: Tables, ask: Option<Seat>)
    requires db.nextId <= later.nextId && later.invitations == db.invitations && later.requests == db.requests
    ensures Advances(db, later, ask)
  {
  }

  lemma AddFrames(db: Tables, m: Membership)
    ensures var later := S.AddMembership(db, m).db;
            later.invitations == db.invitations && later.requests == db.requests && db.nextId <= later.nextId
  {
  }

  lemma SaveFrames(db: Tables, id: Id, m: Membership)
    requires id in db.memberships
    ensures var later := S.SaveMembership(db, id, m).db;
            later.invitations == db.invitations && later.requests == db.requests && db.nextId <= later.nextId
  {
  }

  lemma AdmitFrames(db: Tables, org: Id, user: Id)
    ensures var later := S.Admit(db, org, user).db;
            later.invitations == db.invitations && later.requests == db.requests && db.nextId <= later.nextId
  {
    match FindMembership(db.memberships, org, user)
    case Some(k) => SaveFrames(db, k, db.memberships[k].(deactivatedAt := None));
    case None => AddFrames(db, Membership(org, user, Member, None, ByInvitation));
  }

  lemma RedactAdvances(db: Tables, u: Id, now: Time)
    requires u in db.users
    ensures Advances(db, S.Redact(db, u, now).db, None)
  {
  }

  lemma DropUsersAdvances(db: Tables, us: set<Id>)
    ensures Advances(db, S.DropUsers(db, us), None)
  {
  }

  lemma DropOrganizationsAdvances(db: Tables, os: set<Id>)
    ensures Advances(db, S.DropOrganizations(db, os), None)
  {
  }

  lemma CloseAccountAdvances(db: Tables, u: Id, session: Id, now: Time)
    ensures Advances(db, S.CloseAccount(db, u, session, now).db, None)
  {
    StillAdvances(db, db, None);
    if u in db.users {
      var db1 := S.SignedOut(db, u, session);
      RedactAdvances(db1, u, now);
      DropUsersAdvances(db1, {u});
    }
  }

  lemma RequestAccessAdvances(db: Tables, u: Id, o: Id)
    ensures Advances(db, S.RequestAccess(db, u, o).db, Some((u, o)))
  {
    AdmitFrames(db, o, u);
  }

  lemma ApproveAdvances(db: Tables, actor: Id, r: Id)
    ensures Advances(db, S.ApproveRequest(db, actor, r).db, None)
  {
    StillAdvances(db, db, None);
    if S.MayDecide(db, actor, r) {
      var row := db.requests[r].(approved := true, completedBy := Some(db.memberships[actor].user));
      AdmitFrames(db.(requests := db.requests[r := row]), row.org, row.user);
    }
  }

  lemma RedeemAdvances(db: Tables, u: Id, i: Id, ask: Option<Seat>)
    requires i in db.invitations
    ensures Advances(db, S.Redeem(db, u, i).db, ask)
  {
    var row := db.invitations[i];
    var db1 := db.(invitations := db.invitations - {i});
    match FindMembership(db.memberships, row.org, u)
    case Some(k) => SaveFrames(db1, k, db.memberships[k].(role := row.role, deactivatedAt := None, via := ByInvitation));
    case None => AddFrames(db1, Membership(row.org, u, row.role, None, ByInvitation));
  }

  lemma AddInvitationAdvances(db: Tables, o: Id, email: string, role: Role, inviter: Option<Id>, now: Time, ask: Option<Seat>)
    ensures var r := S.AddInvitation(db, o, email, role, inviter, now); r.Some? ==> Advances(db, r.value, ask)
  {
  }

  lemma AddUserFrames(db: Tables, email: string, m: Membership)
    ensures var later := S.AddUserWithSeat(db, email, m).db;
            later.invitations == db.invitations && later.requests == db.requests && db.nextId <= later.nextId
  {
    AddFrames(db.(users := db.users[db.nextId := User(email, false, None, false)], nextId := db.nextId + 1), m);
  }

  lemma InviteAdvances(db: Tables, actor: Id, email: string, role: Role, ok: bool, now: Time)
    ensures Advances(db, S.Invite(db, actor, email, role, ok, now).db, None)
  {
    StillAdvances(db, db, None);
    if ActingAdmin(db, actor) {
      AddInvitationAdvances(db, db.memberships[actor].org, Canonical(email), role, Some(db.memberships[actor].user), now, None);
    }
  }

  lemma AdvancesTwice(db: Tables, db1: Tables, db2: Tables)
    requires Advances(db, db1, None) && Advances(db1, db2, None)
    requires db1.nextId == db.nextId
    ensures Advances(db, db2, None)
  {
  }

  lemma PurgeAdvances(db: Tables, now: Time, start: Id, stop: Option<Id>)
    ensures Advances(db, S.Purge(db, now, start, stop).db, None)
  {
    var first := S.PurgeOrganizations(db, now, start, stop).db;
    DropOrganizationsAdvances(db, S.PurgePrefix(db, now, start, stop));
    DropUsersAdvances(first, S.OrphanPrefix(first));
    hide S.PurgePrefix, S.OrphanPrefix, S.Orphans, S.DueBetween, S.DropUsers, Advances;
    AdvancesTwice(db, first, S.DropUsers(first, S.OrphanPrefix(first)));
  }

  lemma CreateOrganizationAdvances(db: Tables, u: Id, privacy: Privacy, logo: bool, ok: bool)
    ensures Advances(db, S.CreateOrganization(db, u, privacy, logo, ok).db, None)
  {
    StillAdvances(db, S.CreateOrganization(db, u, privacy, logo, ok).db, None);
  }

  lemma TransferAdvances(db: Tables, actor: Id, target: Id)
    ensures Advances(db, S.TransferOwnership(db, actor, target).db, None)
  {
    hide ValidUpdate;
    StillAdvances(db, S.TransferOwnership(db, actor, target).db, None);
  }

  lemma SettingsFrame(db: Tables, a: OrganizationAction)
    requires !a.CreateOrganization? && !a.TransferOwnership? && !a.EraseOrganization? && !a.PurgeJob?
    ensures var later := OrganizationStep(db, a).db;
            later.invitations == db.invitations && later.requests == db.requests && db.nextId <= later.nextId
  {
  }

  lemma SignInFrames(db: Tables, c: Id, asserted: string, userOk: bool)
    requires c in db.identity.connections
    ensures var later := S.ResolveSignIn(db, c, asserted, userOk).db;
            later.invitations == db.invitations && later.requests == db.requests && db.nextId <= later.nextId
  {
    var connection, email := db.identity.connections[c], Canonical(asserted);
    match FindUser(db.users, email)
    case Some(u) =>
      var k := FindMembership(db.memberships, connection.org, u);
      if k.Some? {
        SaveFrames(db, k.value, db.memberships[k.value].(deactivatedAt := None, via := BySso));
      }
    case None => AddUserFrames(db, email, Membership(connection.org, db.nextId, connection.defaultRole, None, BySso));
  }

  lemma ScimCreateAdvances(db: Tables, c: Id, userName: string, active: Option<bool>, userOk: bool, now: Time, ask: Option<Seat>)
    ensures Advances(db, S.ScimCreate(db, c, userName, active, userOk, now).db, ask)
  {
    StillAdvances(db, db, ask);
    if c in db.identity.scim {
      var email, o := Canonical(userName), db.identity.scim[c].org;
      match FindUser(db.users, email)
      case None =>
        var deactivatedAt := if active == Some(false) then Some(now) else None;
        AddUserFrames(db, email, Membership(o, db.nextId, db.identity.scim[c].defaultRole, deactivatedAt, ByScim));
      case Some(u) =>
        AddInvitationAdvances(db, o, email, db.identity.scim[c].defaultRole, None, now, ask);
        var k := FindMembership(db.memberships, o, u);
        if k.Some? {
          SaveFrames(db, k.value, db.memberships[k.value].(deactivatedAt := None, via := ByScim));
        }
    }
  }

  lemma AccountStepFrames(db: Tables, a: AccountAction)
    requires !a.CloseAccount?
    ensures var later := AccountStep(db, a).db;
            later.invitations == db.invitations && later.requests == db.requests && db.nextId <= later.nextId
  {
    hide Canonical, EmailTaken, S.Proves, S.Backs;
  }

  lemma AccountStepAdvances(db: Tables, a: AccountAction)
    ensures Advances(db, AccountStep(db, a).db, None)
  {
    if a.CloseAccount? {
      CloseAccountAdvances(db, a.user, a.session, a.now);
      hide S.CloseAccount;
    } else {
      AccountStepFrames(db, a);
      hide AccountStep;
      StillAdvances(db, AccountStep(db, a).db, None);
    }
  }

  lemma OrganizationStepAdvances(db: Tables, a: OrganizationAction)
    ensures Advances(db, OrganizationStep(db, a).db, None)
  {
    match a
    case CreateOrganization(u, privacy, logo, ok) => CreateOrganizationAdvances(db, u, privacy, logo, ok);
    case TransferOwnership(actor, target) => TransferAdvances(db, actor, target);
    case EraseOrganization(_, _) =>
    case PurgeJob(now, start, stop) => PurgeAdvances(db, now, start, stop);
    case _ =>
      hide OrganizationStep;
      SettingsFrame(db, a);
      StillAdvances(db, OrganizationStep(db, a).db, None);
  }

  lemma SeatStepAdvances(db: Tables, a: SeatAction)
    ensures Advances(db, SeatStep(db, a).db, AskOf(OnSeat(a)))
  {
    match a
    case RequestAccess(u, o) => RequestAccessAdvances(db, u, o);
    case Approve(actor, r) => ApproveAdvances(db, actor, r);
    case _ =>
  }

  lemma InviteStepAdvances(db: Tables, a: InviteAction)
    ensures Advances(db, InviteStep(db, a).db, None)
  {
    StillAdvances(db, db, None);
    match a
    case Invite(actor, email, role, ok, now) => InviteAdvances(db, actor, email, role, ok, now);
    case Accept(u, i, copy, now) => if i in db.invitations { RedeemAdvances(db, u, i, None); }
    case _ =>
  }

  lemma IdentityStepFrames(db: Tables, a: IdentityAction)
    requires !a.SsoSignIn? && !a.ScimCreate?
    ensures var later := IdentityStep(db, a).db;
            later.invitations == db.invitations && later.requests == db.requests && db.nextId <= later.nextId
  {
  }

  lemma IdentityStepAdvances(db: Tables, a: IdentityAction)
    ensures Advances(db, IdentityStep(db, a).db, None)
  {
    match a
    case SsoSignIn(c, email, ok) =>
      StillAdvances(db, db, None);
      if c in db.identity.connections {
        SignInFrames(db, c, email, ok);
        StillAdvances(db, S.ResolveSignIn(db, c, email, ok).db, None);
      }
    case ScimCreate(c, userName, active, ok, now) => ScimCreateAdvances(db, c, userName, active, ok, now, None);
    case _ =>
      hide IdentityStep;
      IdentityStepFrames(db, a);
      StillAdvances(db, IdentityStep(db, a).db, None);
  }

  lemma StepAdvances(db: Tables, a: Action)
    ensures Advances(db, Step(db, a).db, AskOf(a))
  {
    match a
    case OnAccount(b) => AccountStepAdvances(db, b);
    case OnOrganization(b) => OrganizationStepAdvances(db, b);
    case OnSeat(b) => SeatStepAdvances(db, b);
    case OnInvite(b) => InviteStepAdvances(db, b);
    case OnIdentity(b) => IdentityStepAdvances(db, b);
  }
}
