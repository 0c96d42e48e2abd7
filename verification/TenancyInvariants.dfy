/** What every reachable state of the tenancy machine keeps. */
module TenancyInvariants {
  import opened Common
  import opened Tenancy
  import opened TenancySteps

  ghost predicate Below<V>(m: map<Id, V>, next: Id) {
    forall k :: k in m ==> k < next
  }

  /** The id sequences are ahead of every row. */
  ghost predicate Fresh(db: Tables) {
    && Below(db.users, db.nextId) && Below(db.orgs, db.nextId)
    && Below(db.memberships, db.nextId) && Below(db.invitations, db.nextId) && Below(db.requests, db.nextId)
    && Below(db.files.projects, db.nextId) && Below(db.files.exports, db.nextId)
    && Below(db.identity.connections, db.nextId) && Below(db.identity.domains, db.nextId) && Below(db.identity.scim, db.nextId)
    && Below(db.logins.sessions, db.nextId) && Below(db.logins.magicLinks, db.nextId) && Below(db.logins.tickets, db.nextId)
  }

  ghost predicate UniqueEmails(us: map<Id, User>) {
    forall j, k :: j in us && k in us && us[j].email == us[k].email ==> j == k
  }

  /** A user has at most one membership in an organization. */
  ghost predicate UniqueMembers(ms: map<Id, Membership>) {
    forall j, k :: j in ms && k in ms && ms[j].org == ms[k].org && ms[j].user == ms[k].user ==> j == k
  }

  /** A verified domain belongs to one connection. */
  ghost predicate UniqueDomains(ds: map<Id, SsoDomain>) {
    forall j, k :: j in ds && k in ds && Verified(ds[j]) && Verified(ds[k]) && ds[j].domain == ds[k].domain ==> j == k
  }

  ghost predicate MembersRefer(ms: map<Id, Membership>, orgs: map<Id, Organization>, us: map<Id, User>) {
    forall k :: k in ms ==> ms[k].org in orgs && ms[k].user in us
  }

  ghost predicate OwnerRow(ms: map<Id, Membership>, k: Id, o: Id, owner: Id) {
    k in ms && ms[k].org == o && ms[k].user == owner && ActiveAdmin(ms[k])
  }

  /** Every organization's owner has an active admin membership in it. */
  ghost predicate OwnersHold(orgs: map<Id, Organization>, ms: map<Id, Membership>) {
    forall o :: o in orgs ==> exists k :: OwnerRow(ms, k, o, orgs[o].owner)
  }

  /** A project or export is filed under a membership of its own organization. */
  ghost predicate SameOrganizations(rs: map<Id, Resource>, ms: map<Id, Membership>) {
    forall r :: r in rs ==> SameOrganization(ms, rs[r])
  }

  ghost predicate Belongs(ms: map<Id, Membership>, k: Id, o: Id, u: Id) {
    k in ms && ms[k].org == o && ms[k].user == u
  }

  /** Whoever completed a join request still has a membership row in that organization. */
  ghost predicate CompletersBelong(rs: map<Id, JoinRequest>, ms: map<Id, Membership>) {
    forall r :: r in rs && rs[r].completedBy.Some? ==> exists k :: Belongs(ms, k, rs[r].org, rs[r].completedBy.value)
  }

  ghost predicate Inv(db: Tables) {
    && Fresh(db)
    && UniqueEmails(db.users) && UniqueMembers(db.memberships) && UniqueDomains(db.identity.domains)
    && MembersRefer(db.memberships, db.orgs, db.users)
    && OwnersHold(db.orgs, db.memberships)
    && SameOrganizations(db.files.projects, db.memberships) && SameOrganizations(db.files.exports, db.memberships)
    && CompletersBelong(db.requests, db.memberships)
  }

  // ---- Writing memberships

  /** `later` keeps every row of `ms` in place, and keeps the owners' rows active admins. */
  ghost predicate Upholds(orgs: map<Id, Organization>, ms: map<Id, Membership>, later: map<Id, Membership>) {
    && (forall k :: k in ms ==> k in later && later[k].org == ms[k].org && later[k].user == ms[k].user)
    && (forall k :: k in ms && OwnedBy(orgs, ms[k]) && ActiveAdmin(ms[k]) ==> ActiveAdmin(later[k]))
  }

  lemma OwnersKept(orgs: map<Id, Organization>, ms: map<Id, Membership>, later: map<Id, Membership>)
    requires OwnersHold(orgs, ms) && Upholds(orgs, ms, later)
    ensures OwnersHold(orgs, later)
  {
    forall o | o in orgs ensures exists k :: OwnerRow(later, k, o, orgs[o].owner) {
      var k :| OwnerRow(ms, k, o, orgs[o].owner);
      assert OwnerRow(later, k, o, orgs[o].owner);
    }
  }

  lemma CompletersKept(rs: map<Id, JoinRequest>, ms: map<Id, Membership>, later: map<Id, Membership>)
    requires CompletersBelong(rs, ms)
    requires forall k :: k in ms ==> k in later && later[k].org == ms[k].org && later[k].user == ms[k].user
    ensures CompletersBelong(rs, later)
  {
    forall r | r in rs && rs[r].completedBy.Some? ensures exists k :: Belongs(later, k, rs[r].org, rs[r].completedBy.value) {
      var k :| Belongs(ms, k, rs[r].org, rs[r].completedBy.value);
      assert Belongs(later, k, rs[r].org, rs[r].completedBy.value);
    }
  }

  /** Replacing the membership table keeps the invariant when no row moves and no owner loses its seat. */
  lemma RewriteKeepsInv(db: Tables, later: map<Id, Membership>, next: Id)
    requires Inv(db) && next >= db.nextId
    requires Upholds(db.orgs, db.memberships, later)
    requires Below(later, next) && UniqueMembers(later) && MembersRefer(later, db.orgs, db.users)
    ensures Inv(db.(memberships := later, nextId := next))
  {
    OwnersKept(db.orgs, db.memberships, later);
    CompletersKept(db.requests, db.memberships, later);
  }

  /** The demotion and deactivation validations protect exactly what the owner needs. */
  lemma OwnerStaysAdmin(db: Tables, id: Id, m: Membership)
    requires id in db.memberships && ValidUpdate(db, id, m)
    requires OwnedBy(db.orgs, m) && ActiveAdmin(db.memberships[id])
    ensures ActiveAdmin(m)
  {
  }

  /** One row written over, or in front of, a table that is in order. */
  lemma PutUpholds(orgs: map<Id, Organization>, us: map<Id, User>, ms: map<Id, Membership>, id: Id, m: Membership)
    requires UniqueMembers(ms) && MembersRefer(ms, orgs, us) && m.org in orgs && m.user in us
    requires forall k :: k in ms && k != id ==> ms[k].org != m.org || ms[k].user != m.user
    requires id in ms ==> m.org == ms[id].org && m.user == ms[id].user
    requires id in ms && OwnedBy(orgs, m) && ActiveAdmin(ms[id]) ==> ActiveAdmin(m)
    ensures UniqueMembers(ms[id := m]) && MembersRefer(ms[id := m], orgs, us) && Upholds(orgs, ms, ms[id := m])
  {
  }

  /** A row that passes the update validations leaves the invariant standing. */
  lemma SaveKeepsInv(db: Tables, id: Id, m: Membership)
    requires Inv(db) && id in db.memberships
    requires m.org == db.memberships[id].org && m.user == db.memberships[id].user
    ensures Inv(SaveMembership(db, id, m).db)
  {
    if ValidUpdate(db, id, m) {
      if OwnedBy(db.orgs, m) && ActiveAdmin(db.memberships[id]) {
        OwnerStaysAdmin(db, id, m);
      }
      PutUpholds(db.orgs, db.users, db.memberships, id, m);
      RewriteKeepsInv(db, db.memberships[id := m], db.nextId);
    }
  }

  lemma AddKeepsInv(db: Tables, m: Membership)
    requires Inv(db)
    ensures Inv(AddMembership(db, m).db)
  {
    if ValidNew(db, m) {
      PutUpholds(db.orgs, db.users, db.memberships, db.nextId, m);
      RewriteKeepsInv(db, db.memberships[db.nextId := m], db.nextId + 1);
    }
  }

  lemma AdmitKeepsInv(db: Tables, org: Id, user: Id)
    requires Inv(db)
    ensures Inv(Admit(db, org, user).db)
  {
    match FindMembership(db.memberships, org, user)
    case Some(k) => SaveKeepsInv(db, k, db.memberships[k].(deactivatedAt := None));
    case None => AddKeepsInv(db, Membership(org, user, Member, None, ByInvitation));
  }

  // ---- Accounts and organizations

  lemma SignUpKeepsInv(db: Tables, email: string, valid: bool)
    requires Inv(db)
    ensures Inv(SignUp(db, email, valid).db)
  {
  }

  lemma ChangeEmailKeepsInv(db: Tables, u: Id, session: Id, email: string, valid: bool)
    requires Inv(db)
    ensures Inv(ChangeEmail(db, u, session, email, valid).db)
  {
  }

  lemma BanKeepsInv(db: Tables, u: Id, banned: bool)
    requires Inv(db)
    ensures Inv(Ban(db, u, banned).db)
  {
  }

  lemma TwoFactorKeepsInv(db: Tables, u: Id, on: bool)
    requires Inv(db)
    ensures Inv(SetTwoFactor(db, u, on).db)
  {
  }

  lemma LoginsPutKeepsInv(db: Tables, logins: Logins)
    requires Inv(db) && Below(logins.sessions, db.nextId + 1) && Below(logins.magicLinks, db.nextId + 1) && Below(logins.tickets, db.nextId + 1)
    ensures Inv(db.(logins := logins, nextId := db.nextId + 1))
  {
  }

  lemma SessionKeepsInv(db: Tables, u: Id)
    requires Inv(db)
    ensures Inv(AddSession(db, u).db)
  {
    assert Fresh(db);
    hide Inv;
    LoginsPutKeepsInv(db, db.logins.(sessions := db.logins.sessions[db.nextId := u]));
  }

  lemma TicketKeepsInv(db: Tables, ticket: Ticket)
    requires Inv(db)
    ensures Inv(db.(logins := db.logins.(tickets := db.logins.tickets[db.nextId := ticket]), nextId := db.nextId + 1))
  {
    assert Fresh(db);
    hide Inv;
    LoginsPutKeepsInv(db, db.logins.(tickets := db.logins.tickets[db.nextId := ticket]));
  }

  lemma FirstFactorKeepsInv(db: Tables, u: Id, factor: FirstFactor, now: Time)
    requires Inv(db)
    ensures Inv(PassFirstFactor(db, u, factor, now).db)
  {
    hide Inv, Proves, AddSession;
    SessionKeepsInv(db, u);
    TicketKeepsInv(db, Ticket(u, factor, now + TICKET_LIFETIME));
  }

  lemma SecondFactorKeepsInv(db: Tables, t: Id, codeOk: bool, now: Time)
    requires Inv(db)
    ensures Inv(ConfirmSecondFactor(db, t, codeOk, now).db)
  {
    hide Inv, Backs, AddSession;
    if t in db.logins.tickets {
      SessionKeepsInv(db, db.logins.tickets[t].user);
    }
  }

  lemma EndSessionKeepsInv(db: Tables, s: Id)
    requires Inv(db)
    ensures Inv(EndSession(db, s).db)
  {
    LoginsKeepInv(db, db.logins.(sessions := db.logins.sessions - {s}));
    hide Inv;
  }

  lemma CredentialsKeepInv(db: Tables, u: Id)
    requires Inv(db)
    ensures Inv(SendMagicLink(db, u).db)
  {
    assert Fresh(db);
    hide Inv;
    LoginsPutKeepsInv(db, db.logins.(magicLinks := db.logins.magicLinks[db.nextId := u]));
  }

  /** Rewriting one organization is harmless while someone sits in the owner's seat. */
  lemma OrganizationPutKeepsInv(db: Tables, o: Id, row: Organization, k: Id)
    requires Inv(db) && o < db.nextId && OwnerRow(db.memberships, k, o, row.owner)
    ensures Inv(db.(orgs := db.orgs[o := row]))
  {
    var orgs := db.orgs[o := row];
    forall p | p in orgs ensures exists j :: OwnerRow(db.memberships, j, p, orgs[p].owner) {
      var j :| OwnerRow(db.memberships, j, p, orgs[p].owner);
    }
  }

  lemma SettingsKeepInv(db: Tables, o: Id, row: Organization)
    requires Inv(db) && o in db.orgs && row.owner == db.orgs[o].owner
    ensures Inv(db.(orgs := db.orgs[o := row]))
  {
    var k :| OwnerRow(db.memberships, k, o, row.owner);
    OrganizationPutKeepsInv(db, o, row, k);
  }

  lemma CreateProjectKeepsInv(db: Tables, actor: Id, valid: bool)
    requires Inv(db)
    ensures Inv(CreateProject(db, actor, valid).db)
  {
  }

  lemma DestroyProjectKeepsInv(db: Tables, actor: Id, p: Id)
    requires Inv(db)
    ensures Inv(DestroyProject(db, actor, p).db)
  {
  }

  lemma CreateExportKeepsInv(db: Tables, actor: Id)
    requires Inv(db)
    ensures Inv(CreateExport(db, actor).db)
  {
  }

  lemma PurgeExportKeepsInv(db: Tables, e: Id)
    requires Inv(db)
    ensures Inv(PurgeExport(db, e).db)
  {
  }

  /** A new organization comes with its owner's admin membership. */
  lemma FoundKeepsInv(db: Tables, o: Id, org: Organization, k: Id, m: Membership)
    requires Inv(db) && db.nextId <= o < k && org.owner in db.users
    requires m.org == o && m.user == org.owner && ActiveAdmin(m)
    ensures Inv(db.(orgs := db.orgs[o := org], memberships := db.memberships[k := m], nextId := k + 1))
  {
    hide OwnersHold, CompletersBelong, UniqueEmails, UniqueDomains;
    var ms, orgs := db.memberships[k := m], db.orgs[o := org];
    PutUpholds(orgs, db.users, db.memberships, k, m);
    CompletersKept(db.requests, db.memberships, ms);
    OwnersFound(db.orgs, db.memberships, o, org, k, m);
  }

  lemma OwnersFound(orgs: map<Id, Organization>, ms: map<Id, Membership>, o: Id, org: Organization, k: Id, m: Membership)
    requires OwnersHold(orgs, ms) && k !in ms
    requires m.org == o && m.user == org.owner && ActiveAdmin(m)
    ensures OwnersHold(orgs[o := org], ms[k := m])
  {
    var orgs', ms' := orgs[o := org], ms[k := m];
    forall p | p in orgs' ensures exists j :: OwnerRow(ms', j, p, orgs'[p].owner) {
      if p == o {
        assert OwnerRow(ms', k, p, orgs'[p].owner);
      } else {
        var j :| OwnerRow(ms, j, p, orgs[p].owner);
        assert OwnerRow(ms', j, p, orgs'[p].owner);
      }
    }
  }

  lemma AuditKeepsInv(db: Tables, m: Id)
    requires Inv(db)
    ensures Inv(Audit(db, m).db)
  {
  }

  lemma CreateOrganizationKeepsInv(db: Tables, u: Id, privacy: Privacy, logo: bool, valid: bool)
    requires Inv(db)
    ensures Inv(CreateOrganization(db, u, privacy, logo, valid).db)
  {
    hide Inv;
    if u in db.users {
      FoundKeepsInv(db, db.nextId, Organization(u, None, privacy, logo, false),
                    db.nextId + 1, Membership(db.nextId, u, Admin, None, ByInvitation));
    }
  }

  /** The candidate is made admin before the ownership moves to it. */
  lemma TransferKeepsInv(db: Tables, actor: Id, target: Id)
    requires Inv(db)
    ensures Inv(TransferOwnership(db, actor, target).db)
  {
    var t := TransferOwnership(db, actor, target);
    if t.reply == Done {
      var o := db.memberships[actor].org;
      var k := FindMembership(db.memberships, o, target).value;
      var m := db.memberships[k].(role := Admin);
      SaveKeepsInv(db, k, m);
      OrganizationPutKeepsInv(SaveMembership(db, k, m).db, o, db.orgs[o].(owner := target), k);
    }
  }

  lemma EraseOrganizationKeepsInv(db: Tables, actor: Id, now: Time)
    requires Inv(db)
    ensures Inv(EraseOrganization(db, actor, now).db)
  {
  }

  // ---- Invitations and join requests

  lemma FewerInvitationsKeepInv(db: Tables, invitations: map<Id, Invitation>)
    requires Inv(db) && invitations.Keys <= db.invitations.Keys
    ensures Inv(db.(invitations := invitations))
  {
  }

  lemma AddInvitationKeepsInv(db: Tables, o: Id, email: string, role: Role, inviter: Option<Id>, now: Time)
    requires Inv(db)
    ensures var r := AddInvitation(db, o, email, role, inviter, now); r.Some? ==> Inv(r.value)
  {
  }

  lemma AcceptKeepsInv(db: Tables, u: Id, i: Id, copy: Invitation, now: Time)
    requires Inv(db)
    ensures Inv(AcceptInvitation(db, u, i, copy, now).db)
  {
    if InviteeOf(db, u, copy, now) && Transitionable(db, u, i, now) {
      var row := db.invitations[i];
      var db1 := db.(invitations := db.invitations - {i});
      FewerInvitationsKeepInv(db, db.invitations - {i});
      match FindMembership(db.memberships, row.org, u)
      case Some(k) => SaveKeepsInv(db1, k, db.memberships[k].(role := row.role, deactivatedAt := None, via := ByInvitation));
      case None => AddKeepsInv(db1, Membership(row.org, u, row.role, None, ByInvitation));
    }
  }

  lemma RequestPutKeepsInv(db: Tables, r: Id, row: JoinRequest, next: Id)
    requires Inv(db) && r < next && next >= db.nextId
    requires row.completedBy.Some? ==> exists k :: Belongs(db.memberships, k, row.org, row.completedBy.value)
    ensures Inv(db.(requests := db.requests[r := row], nextId := next))
  {
  }

  lemma RequestAccessKeepsInv(db: Tables, u: Id, o: Id)
    requires Inv(db)
    ensures Inv(RequestAccess(db, u, o).db)
  {
    hide Inv;
    AdmitKeepsInv(db, o, u);
    RequestPutKeepsInv(db, db.nextId, JoinRequest(o, u, false, None), db.nextId + 1);
  }

  /** The approving admin's own membership is what keeps the completer's seat. */
  lemma ApproveKeepsInv(db: Tables, actor: Id, r: Id)
    requires Inv(db)
    ensures Inv(ApproveRequest(db, actor, r).db)
  {
    if MayDecide(db, actor, r) {
      var row := db.requests[r].(approved := true, completedBy := Some(db.memberships[actor].user));
      assert Belongs(db.memberships, actor, row.org, row.completedBy.value);
      RequestPutKeepsInv(db, r, row, db.nextId);
      AdmitKeepsInv(db.(requests := db.requests[r := row]), row.org, row.user);
    }
  }

  lemma FewerRequestsKeepInv(db: Tables, r: Id)
    requires Inv(db)
    ensures Inv(db.(requests := db.requests - {r}))
  {
  }

  // ---- Identity providers

  lemma NewUserKeepsInv(db: Tables, email: string)
    requires Inv(db) && !EmailTaken(db.users, email)
    ensures Inv(db.(users := db.users[db.nextId := User(email, false, None, false)], nextId := db.nextId + 1))
  {
  }

  /** A JIT or SCIM identity: a new user and its membership in one transaction. */
  lemma ProvisionKeepsInv(db: Tables, email: string, m: Membership)
    requires Inv(db) && m.user == db.nextId && !EmailTaken(db.users, email)
    ensures Inv(AddUserWithSeat(db, email, m).db)
  {
    hide Inv, EmailTaken, AddMembership;
    NewUserKeepsInv(db, email);
    AddKeepsInv(db.(users := db.users[db.nextId := User(email, false, None, false)], nextId := db.nextId + 1), m);
  }

  lemma SignInUserKeepsInv(db: Tables, connection: SsoConnection, u: Id)
    requires Inv(db) && u in db.users
    ensures Inv(SignInUser(db, connection, u).db)
  {
    hide Inv;
    var k := FindMembership(db.memberships, connection.org, u);
    if k.Some? {
      SaveKeepsInv(db, k.value, db.memberships[k.value].(deactivatedAt := None, via := BySso));
    }
  }

  lemma ResolveKeepsInv(db: Tables, c: Id, asserted: string, userOk: bool)
    requires Inv(db) && c in db.identity.connections
    ensures Inv(ResolveSignIn(db, c, asserted, userOk).db)
  {
    hide Inv, AddUserWithSeat, SignInUser;
    var connection, email := db.identity.connections[c], Canonical(asserted);
    match FindUser(db.users, email)
    case Some(u) => SignInUserKeepsInv(db, connection, u);
    case None => ProvisionKeepsInv(db, email, Membership(connection.org, db.nextId, connection.defaultRole, None, BySso));
  }

  lemma VerifyDomainKeepsInv(db: Tables, actor: Id, d: Id, published: bool, now: Time)
    requires Inv(db)
    ensures Inv(VerifyDomain(db, actor, d, published, now).db)
  {
  }

  lemma DestroyDomainKeepsInv(db: Tables, actor: Id, d: Id)
    requires Inv(db)
    ensures Inv(DestroyDomain(db, actor, d).db)
  {
  }

  lemma AddDomainKeepsInv(db: Tables, actor: Id, domain: string, ok: bool)
    requires Inv(db)
    ensures Inv(AddDomain(db, actor, domain, ok).db)
  {
  }

  lemma SaveConnectionKeepsInv(db: Tables, actor: Id, settings: SsoConnection, ok: bool)
    requires Inv(db)
    ensures Inv(SaveConnection(db, actor, settings, ok).db)
  {
  }

  lemma DestroyConnectionKeepsInv(db: Tables, actor: Id)
    requires Inv(db)
    ensures Inv(DestroyConnection(db, actor).db)
  {
  }

  lemma ScimSettingsKeepInv(db: Tables, actor: Id, enabled: bool, role: Role)
    requires Inv(db)
    ensures Inv(SaveScim(db, actor, enabled, role).db) && Inv(DestroyScim(db, actor).db)
  {
  }

  lemma ScimCreateKeepsInv(db: Tables, c: Id, userName: string, active: Option<bool>, userOk: bool, now: Time)
    requires Inv(db)
    ensures Inv(ScimCreate(db, c, userName, active, userOk, now).db)
  {
    hide Inv, AddUserWithSeat, SaveMembership;
    if c in db.identity.scim {
      var email, o := Canonical(userName), db.identity.scim[c].org;
      match FindUser(db.users, email)
      case None =>
        var deactivatedAt := if active == Some(false) then Some(now) else None;
        ProvisionKeepsInv(db, email, Membership(o, db.nextId, db.identity.scim[c].defaultRole, deactivatedAt, ByScim));
      case Some(u) =>
        AddInvitationKeepsInv(db, o, email, db.identity.scim[c].defaultRole, None, now);
        var k := FindMembership(db.memberships, o, u);
        if k.Some? {
          SaveKeepsInv(db, k.value, db.memberships[k.value].(deactivatedAt := None, via := ByScim));
        }
    }
  }

  lemma ScimUpdateKeepsInv(db: Tables, c: Id, id: Id, active: Option<bool>, now: Time)
    requires Inv(db)
    ensures Inv(ScimUpdate(db, c, id, active, now).db) && Inv(ScimDestroy(db, c, id, now).db)
  {
    hide Inv;
    if id in db.memberships {
      var m := db.memberships[id];
      SaveKeepsInv(db, id, m);
      SaveKeepsInv(db, id, m.(deactivatedAt := None));
      SaveKeepsInv(db, id, m.(deactivatedAt := Some(now)));
    }
  }

  // ---- Closing accounts and purging

  /** Account closure was refused unless every active seat can be given up. */
  lemma WithdrawnUpholds(db: Tables, u: Id, now: Time)
    requires UniqueMembers(db.memberships) && MembersRefer(db.memberships, db.orgs, db.users) && Below(db.memberships, db.nextId)
    requires forall o :: o in db.orgs ==> db.orgs[o].owner != u
    ensures var later := Withdrawn(db.memberships, u, now);
            Upholds(db.orgs, db.memberships, later) && UniqueMembers(later) && MembersRefer(later, db.orgs, db.users)
            && Below(later, db.nextId)
  {
  }

  lemma RedactUserKeepsInv(db: Tables, u: Id, row: User)
    requires Inv(db) && u in db.users
    requires forall v :: v in db.users && v != u ==> db.users[v].email != row.email
    ensures Inv(db.(users := db.users[u := row]))
  {
  }

  lemma LoginsKeepInv(db: Tables, logins: Logins)
    requires Inv(db) && logins.sessions.Keys <= db.logins.sessions.Keys && logins.magicLinks.Keys <= db.logins.magicLinks.Keys
    requires logins.tickets.Keys <= db.logins.tickets.Keys
    ensures Inv(db.(logins := logins))
  {
  }

  lemma RedactKeepsInv(db: Tables, u: Id, now: Time)
    requires Inv(db) && u in db.users
    ensures Inv(Redact(db, u, now).db)
  {
    assert UniqueMembers(db.memberships) && MembersRefer(db.memberships, db.orgs, db.users) && Below(db.memberships, db.nextId);
    hide Inv;
    if Redact(db, u, now).reply == Done {
      WithdrawnUpholds(db, u, now);
      var db1 := db.(memberships := Withdrawn(db.memberships, u, now), nextId := db.nextId);
      RewriteKeepsInv(db, db1.memberships, db.nextId);
      var db2 := db1.(users := db1.users[u := User(RedactedEmail(u), db.users[u].banned, Some(now), false)]);
      RedactUserKeepsInv(db1, u, db2.users[u]);
      var db3 := db2.(invitations := Keep(db.invitations, (i: Invitation) => i.email != db.users[u].email));
      FewerInvitationsKeepInv(db2, db3.invitations);
      LoginsKeepInv(db3, DropLogins(db.logins, {u}));
    }
  }

  lemma OwnersOutlive(orgs: map<Id, Organization>, ms: map<Id, Membership>, gone: set<Id>)
    requires OwnersHold(orgs, ms)
    requires forall k :: k in gone && k in ms ==> !OwnedBy(orgs, ms[k])
    ensures OwnersHold(orgs, ms - gone)
  {
    forall o | o in orgs ensures exists k :: OwnerRow(ms - gone, k, o, orgs[o].owner) {
      var k :| OwnerRow(ms, k, o, orgs[o].owner);
      assert OwnerRow(ms - gone, k, o, orgs[o].owner);
    }
  }

  lemma CompletersOutlive(rs: map<Id, JoinRequest>, later: map<Id, JoinRequest>, ms: map<Id, Membership>, gone: set<Id>)
    requires CompletersBelong(rs, ms) && Subtable(later, rs)
    requires forall k, r :: k in gone && r in later && later[r].completedBy.Some? ==>
               !Belongs(ms, k, later[r].org, later[r].completedBy.value)
    ensures CompletersBelong(later, ms - gone)
  {
    forall r | r in later && later[r].completedBy.Some?
      ensures exists k :: Belongs(ms - gone, k, later[r].org, later[r].completedBy.value)
    {
      var k :| Belongs(ms, k, rs[r].org, rs[r].completedBy.value);
      assert Belongs(ms - gone, k, later[r].org, later[r].completedBy.value);
    }
  }

  /** Nobody in `us` owns an organization, authored a project or completed someone else's request. */
  predicate Free(db: Tables, us: set<Id>) {
    && (forall o :: o in db.orgs ==> db.orgs[o].owner !in us)
    && (forall p :: p in db.files.projects && db.files.projects[p].membership in db.memberships ==>
          db.memberships[db.files.projects[p].membership].user !in us)
    && (forall r :: r in db.requests && db.requests[r].user !in us && db.requests[r].completedBy.Some? ==>
          db.requests[r].completedBy.value !in us)
  }

  predicate Subtable<V(==)>(part: map<Id, V>, whole: map<Id, V>) {
    forall k :: k in part ==> k in whole && part[k] == whole[k]
  }

  /** `later` only deletes rows, `gone` among the memberships, and leaves no project or export behind them. */
  ghost predicate Shrinks(db: Tables, later: Tables, gone: set<Id>) {
    && later.nextId == db.nextId && later.memberships == db.memberships - gone
    && Subtable(later.users, db.users) && Subtable(later.orgs, db.orgs)
    && Subtable(later.files.projects, db.files.projects) && Subtable(later.files.exports, db.files.exports)
    && Subtable(later.requests, db.requests) && Subtable(later.identity.domains, db.identity.domains)
    && later.invitations.Keys <= db.invitations.Keys
    && later.identity.connections.Keys <= db.identity.connections.Keys && later.identity.scim.Keys <= db.identity.scim.Keys
    && later.logins.sessions.Keys <= db.logins.sessions.Keys && later.logins.magicLinks.Keys <= db.logins.magicLinks.Keys
    && later.logins.tickets.Keys <= db.logins.tickets.Keys
    && (forall p :: p in later.files.projects ==> later.files.projects[p].membership !in gone)
    && (forall e :: e in later.files.exports ==> later.files.exports[e].membership !in gone)
    && MembersRefer(later.memberships, later.orgs, later.users)
  }

  lemma FewerMembersInOrder(ms: map<Id, Membership>, gone: set<Id>, next: Id)
    requires UniqueMembers(ms) && Below(ms, next)
    ensures UniqueMembers(ms - gone) && Below(ms - gone, next)
    ensures forall rs: map<Id, Resource>, later: map<Id, Resource> ::
              SameOrganizations(rs, ms) && Subtable(later, rs) && (forall r :: r in later ==> later[r].membership !in gone) ==>
                SameOrganizations(later, ms - gone)
  {
  }

  lemma FewerUsersInOrder(us: map<Id, User>, later: map<Id, User>, ds: map<Id, SsoDomain>, ds': map<Id, SsoDomain>)
    requires UniqueEmails(us) && Subtable(later, us) && UniqueDomains(ds) && Subtable(ds', ds)
    ensures UniqueEmails(later) && UniqueDomains(ds')
  {
  }

  lemma FewerRowsKeepInv(db: Tables, later: Tables, gone: set<Id>)
    requires Inv(db) && Shrinks(db, later, gone)
    requires OwnersHold(later.orgs, later.memberships) && CompletersBelong(later.requests, later.memberships)
    ensures Inv(later)
  {
    FewerMembersInOrder(db.memberships, gone, later.nextId);
    FewerUsersInOrder(db.users, later.users, db.identity.domains, later.identity.domains);
  }

  lemma DropUsersShrinks(db: Tables, us: set<Id>)
    requires Free(db, us) && SameOrganizations(db.files.projects, db.memberships) && MembersRefer(db.memberships, db.orgs, db.users)
    ensures Shrinks(db, DropUsers(db, us), SeatsOf(db.memberships, us))
  {
  }

  lemma DropUsersUpholds(db: Tables, us: set<Id>)
    requires Free(db, us) && OwnersHold(db.orgs, db.memberships) && CompletersBelong(db.requests, db.memberships)
    ensures var later := DropUsers(db, us);
            OwnersHold(later.orgs, later.memberships) && CompletersBelong(later.requests, later.memberships)
  {
    var gone := SeatsOf(db.memberships, us);
    var requests := Keep(db.requests, (r: JoinRequest) => r.user !in us);
    hide DropUsers, OwnersHold, CompletersBelong;
    OwnersOutlive(db.orgs, db.memberships, gone);
    CompletersOutlive(db.requests, requests, db.memberships, gone);
    DropUsersParts(db, us);
  }

  lemma DropUsersParts(db: Tables, us: set<Id>)
    ensures var later := DropUsers(db, us);
            && later.orgs == db.orgs
            && later.memberships == db.memberships - SeatsOf(db.memberships, us)
            && later.requests == Keep(db.requests, (r: JoinRequest) => r.user !in us)
  {
  }

  lemma DropUsersKeepsInv(db: Tables, us: set<Id>)
    requires Inv(db) && Free(db, us)
    ensures Inv(DropUsers(db, us))
  {
    DropUsersShrinks(db, us);
    DropUsersUpholds(db, us);
    hide Inv;
    FewerRowsKeepInv(db, DropUsers(db, us), SeatsOf(db.memberships, us));
  }

  lemma DropOrganizationsShrinks(db: Tables, os: set<Id>)
    requires SameOrganizations(db.files.projects, db.memberships) && MembersRefer(db.memberships, db.orgs, db.users)
    ensures Shrinks(db, DropOrganizations(db, os), SeatsIn(db.memberships, os))
  {
  }

  lemma DropOrganizationsUpholds(db: Tables, os: set<Id>)
    requires OwnersHold(db.orgs, db.memberships) && CompletersBelong(db.requests, db.memberships)
    ensures var later := DropOrganizations(db, os);
            OwnersHold(later.orgs, later.memberships) && CompletersBelong(later.requests, later.memberships)
  {
    var gone := SeatsIn(db.memberships, os);
    FewerOrganizationsHold(db.orgs, db.memberships, os);
    OwnersOutlive(db.orgs - os, db.memberships, gone);
    CompletersOutlive(db.requests, DropOrganizations(db, os).requests, db.memberships, gone);
  }

  lemma DropOrganizationsKeepsInv(db: Tables, os: set<Id>)
    requires Inv(db)
    ensures Inv(DropOrganizations(db, os))
  {
    DropOrganizationsShrinks(db, os);
    DropOrganizationsUpholds(db, os);
    hide Inv;
    FewerRowsKeepInv(db, DropOrganizations(db, os), SeatsIn(db.memberships, os));
  }

  lemma FewerOrganizationsHold(orgs: map<Id, Organization>, ms: map<Id, Membership>, os: set<Id>)
    requires OwnersHold(orgs, ms)
    ensures OwnersHold(orgs - os, ms)
  {
    var rest := orgs - os;
    forall o | o in rest ensures exists k :: OwnerRow(ms, k, o, rest[o].owner) {
      var k :| OwnerRow(ms, k, o, orgs[o].owner);
      assert rest[o] == orgs[o];
    }
  }

  lemma SignedOutKeepsInv(db: Tables, u: Id, session: Id)
    requires Inv(db)
    ensures Inv(SignedOut(db, u, session))
  {
  }

  lemma CloseAccountKeepsInv(db: Tables, u: Id, session: Id, now: Time)
    requires Inv(db)
    ensures Inv(CloseAccount(db, u, session, now).db)
  {
    hide Inv;
    if u in db.users {
      var db1 := SignedOut(db, u, session);
      SignedOutKeepsInv(db, u, session);
      RedactKeepsInv(db1, u, now);
      if Destroyable(db1, u) {
        DropUsersKeepsInv(db1, {u});
      }
    }
  }

  /** An orphan has no seat anywhere, so nothing of the invariant rests on it. */
  lemma OrphansAreFree(db: Tables, us: set<Id>)
    requires Inv(db) && us <= Orphans(db)
    ensures Free(db, us)
  {
    forall o | o in db.orgs ensures db.orgs[o].owner !in us {
      var k :| OwnerRow(db.memberships, k, o, db.orgs[o].owner);
    }
    forall r | r in db.requests && db.requests[r].completedBy.Some? ensures db.requests[r].completedBy.value !in us {
      var k :| Belongs(db.memberships, k, db.requests[r].org, db.requests[r].completedBy.value);
    }
  }

  lemma PurgeKeepsInv(db: Tables, now: Time, start: Id, stop: Option<Id>)
    requires Inv(db)
    ensures Inv(Purge(db, now, start, stop).db)
  {
    hide Inv;
    DropOrganizationsKeepsInv(db, PurgePrefix(db, now, start, stop));
    var first := PurgeOrganizations(db, now, start, stop).db;
    var purged := OrphanPrefix(first);
    OrphansAreFree(first, purged);
    DropUsersKeepsInv(first, purged);
  }
}
