/** What belongs to an organization, who has a standing in it, and the steps on accounts and
    organizations that leave it alone. */
module TenancyStanding {
  import opened Common
  import opened Tenancy
  import opened TenancyMachine
  import opened TenancyInvariants
  import opened TenancyGuarantees
  import opened TenancyErasure
  import S = TenancySteps

  // ---- What belongs to an organization

  ghost predicate SeatsKept(ms: map<Id, Membership>, later: map<Id, Membership>, o: Id) {
    && (forall k :: k in ms && ms[k].org == o ==> k in later && later[k] == ms[k])
    && (forall k :: k in later && later[k].org == o ==> k in ms && ms[k] == later[k])
  }

  ghost predicate InvitationsKept(invs: map<Id, Invitation>, later: map<Id, Invitation>, o: Id) {
    && (forall i :: i in invs && invs[i].org == o ==> i in later && later[i] == invs[i])
    && (forall i :: i in later && later[i].org == o ==> i in invs && invs[i] == later[i])
  }

  ghost predicate RequestsKept(rs: map<Id, JoinRequest>, later: map<Id, JoinRequest>, o: Id) {
    && (forall r :: r in rs && rs[r].org == o ==> r in later && later[r] == rs[r])
    && (forall r :: r in later && later[r].org == o ==> r in rs && rs[r] == later[r])
  }

  ghost predicate ResourcesKept(rs: map<Id, Resource>, later: map<Id, Resource>, o: Id) {
    && (forall r :: r in rs && rs[r].org == o ==> r in later && later[r] == rs[r])
    && (forall r :: r in later && later[r].org == o ==> r in rs && rs[r] == later[r])
  }

  ghost predicate ScimKept(cs: map<Id, ScimConnection>, later: map<Id, ScimConnection>, o: Id) {
    && (forall c :: c in cs && cs[c].org == o ==> c in later && later[c] == cs[c])
    && (forall c :: c in later && later[c].org == o ==> c in cs && cs[c] == later[c])
  }

  ghost predicate SsoKept(cs: map<Id, SsoConnection>, later: map<Id, SsoConnection>, o: Id) {
    && (forall c :: c in cs && cs[c].org == o ==> c in later && later[c] == cs[c])
    && (forall c :: c in later && later[c].org == o ==> c in cs && cs[c] == later[c])
  }

  /** Domain `d` is filed under a connection of `o`. */
  ghost predicate DomainOf(i: Identity, d: Id, o: Id) {
    d in i.domains && i.domains[d].connection in i.connections && i.connections[i.domains[d].connection].org == o
  }

  ghost predicate DomainsKept(i: Identity, later: Identity, o: Id) {
    && (forall d :: DomainOf(i, d, o) ==> d in later.domains && later.domains[d] == i.domains[d])
    && (forall d :: DomainOf(later, d, o) ==> d in i.domains && i.domains[d] == later.domains[d])
  }

  ghost predicate ProvidersKept(i: Identity, later: Identity, o: Id) {
    SsoKept(i.connections, later.connections, o) && ScimKept(i.scim, later.scim, o) && DomainsKept(i, later, o)
  }

  ghost predicate RowKept(orgs: map<Id, Organization>, later: map<Id, Organization>, o: Id) {
    o in orgs && o in later && later[o] == orgs[o]
  }

  /** Every row of the organization is there as it was, and none is new. */
  ghost predicate Untouched(db: Tables, later: Tables, o: Id) {
    && RowKept(db.orgs, later.orgs, o)
    && SeatsKept(db.memberships, later.memberships, o)
    && InvitationsKept(db.invitations, later.invitations, o) && RequestsKept(db.requests, later.requests, o)
    && ResourcesKept(db.files.projects, later.files.projects, o) && ResourcesKept(db.files.exports, later.files.exports, o)
    && ProvidersKept(db.identity, later.identity, o)
  }

  // ---- Who may reach it

  /** The account `u` has a seat, a join request or an invitation in `o`, or invited someone. */
  ghost predicate Concerns(db: Tables, u: Id, o: Id) {
    || (exists k :: Belongs(db.memberships, k, o, u))
    || (exists r :: r in db.requests && db.requests[r].org == o && db.requests[r].user == u)
    || (exists i :: i in db.invitations && db.invitations[i].org == o
                    && (db.invitations[i].invitedBy == Some(u) || (u in db.users && db.invitations[i].email == db.users[u].email)))
  }

  ghost predicate OwnerOf(db: Tables, k: Id, o: Id) {
    MemberOf(db, k, o) && db.orgs[o].owner == db.memberships[k].user
  }

  /** The step is taken by the user's own closing of an account with a row there. */
  ghost predicate AccountReaches(db: Tables, a: AccountAction, o: Id) {
    a.CloseAccount? && a.session in db.logins.sessions && db.logins.sessions[a.session] == a.user && Concerns(db, a.user, o)
  }

  ghost predicate OrganizationReaches(db: Tables, a: OrganizationAction, o: Id) {
    match a
    case CreateOrganization(_, _, _, _) => false
    case UpdateOrganization(actor, _, _) => AdminOf(db, actor, o)
    case PurgeLogo(p) => p == o
    case SetSubscription(p, _) => p == o
    case TransferOwnership(actor, _) => OwnerOf(db, actor, o)
    case EraseOrganization(actor, _) => OwnerOf(db, actor, o)
    case CreateProject(actor, _) => AdminOf(db, actor, o)
    case DestroyProject(actor, _) => AdminOf(db, actor, o)
    case CreateExport(actor) => AdminOf(db, actor, o)
    case PurgeExport(e) => e in db.files.exports && db.files.exports[e].org == o
    case Audit(_) => false
    case PurgeJob(now, _, _) =>
      || (o in db.orgs && db.orgs[o].deletedAt.Some? && db.orgs[o].deletedAt.value <= now - 30 * DAY)
      || (exists u :: u in db.users && db.users[u].redactedAt.Some? && Concerns(db, u, o))
  }

  ghost predicate SeatReaches(db: Tables, a: SeatAction, o: Id) {
    match a
    case ChangeRole(actor, _, _) => AdminOf(db, actor, o)
    case Deactivate(actor, id, _) => MemberOf(db, actor, o) && (id == actor || AdminOf(db, actor, o))
    case Reactivate(actor, _) => AdminOf(db, actor, o)
    case RequestAccess(u, p) => p == o && SignedIn(db, u)
    case CancelRequest(u, r) => r in db.requests && db.requests[r].org == o && db.requests[r].user == u
    case Approve(actor, _) => AdminOf(db, actor, o)
    case Reject(actor, _) => AdminOf(db, actor, o)
  }

  /** The invitation stands, is `o`'s, and bears the user's address. */
  ghost predicate InvitedTo(db: Tables, u: Id, i: Id, o: Id) {
    i in db.invitations && db.invitations[i].org == o && u in db.users && db.users[u].email == db.invitations[i].email
  }

  ghost predicate InviteReaches(db: Tables, a: InviteAction, o: Id) {
    match a
    case Invite(actor, _, _, _, _) => AdminOf(db, actor, o)
    case Accept(u, i, _, _) => InvitedTo(db, u, i, o)
    case Decline(u, i, _, _) => InvitedTo(db, u, i, o)
    case Revoke(actor, _, _, _) => AdminOf(db, actor, o)
    case Resend(actor, _, _, _) => AdminOf(db, actor, o)
    case PurgeInvitations(now) => exists i :: i in db.invitations && db.invitations[i].org == o && db.invitations[i].expiresAt <= now
  }

  ghost predicate IdentityReaches(db: Tables, a: IdentityAction, o: Id) {
    match a
    case SaveConnection(actor, _, _) => AdminOf(db, actor, o)
    case DestroyConnection(actor) => AdminOf(db, actor, o)
    case AddDomain(actor, _, _) => AdminOf(db, actor, o)
    case VerifyDomain(actor, _, _, _) => AdminOf(db, actor, o)
    case DestroyDomain(actor, _) => AdminOf(db, actor, o)
    case SsoSignIn(c, _, _) => c in db.identity.connections && db.identity.connections[c].org == o && db.identity.connections[c].enabled
    case SaveScim(actor, _, _) => AdminOf(db, actor, o)
    case DestroyScim(actor) => AdminOf(db, actor, o)
    case ScimCreate(c, _, _, _, _) => c in db.identity.scim && db.identity.scim[c].org == o && db.identity.scim[c].enabled
    case ScimUpdate(c, _, _, _) => c in db.identity.scim && db.identity.scim[c].org == o && db.identity.scim[c].enabled
    case ScimDestroy(c, _, _) => c in db.identity.scim && db.identity.scim[c].org == o && db.identity.scim[c].enabled
  }

  /** Whoever takes the step has a standing in `o`. */
  ghost predicate Reaches(db: Tables, a: Action, o: Id) {
    match a
    case OnAccount(b) => AccountReaches(db, b, o)
    case OnOrganization(b) => OrganizationReaches(db, b, o)
    case OnSeat(b) => SeatReaches(db, b, o)
    case OnInvite(b) => InviteReaches(db, b, o)
    case OnIdentity(b) => IdentityReaches(db, b, o)
  }

  /** A caller's copy of an invitation is of the organization the invitation is of. */
  predicate TrueCopy(db: Tables, a: Action) {
    a.OnInvite? && (a.invite.Revoke? || a.invite.Resend?) && a.invite.invitation in db.invitations ==>
      a.invite.copy.org == db.invitations[a.invite.invitation].org
  }

  // ---- The building blocks

  /** None of the tables an organization's rows are in differs. */
  ghost predicate SameTables(db: Tables, later: Tables) {
    && later.orgs == db.orgs && later.memberships == db.memberships && later.invitations == db.invitations
    && later.requests == db.requests && later.files.projects == db.files.projects && later.files.exports == db.files.exports
    && later.identity == db.identity
  }

  lemma SameUntouched(db: Tables, later: Tables, o: Id)
    requires o in db.orgs && SameTables(db, later)
    ensures Untouched(db, later, o)
  {
    assert ProvidersKept(db.identity, db.identity, o);
    hide ProvidersKept;
  }

  lemma SameParts(db: Tables, o: Id)
    requires o in db.orgs
    ensures ProvidersKept(db.identity, db.identity, o) && ResourcesKept(db.files.projects, db.files.projects, o)
            && RowKept(db.orgs, db.orgs, o)
  {
  }

  lemma SaveUntouched(db: Tables, id: Id, m: Membership, o: Id)
    requires o in db.orgs && id in db.memberships && db.memberships[id].org != o && m.org != o
    ensures Untouched(db, S.SaveMembership(db, id, m).db, o)
  {
    hide ValidUpdate;
  }

  lemma AddUntouched(db: Tables, m: Membership, o: Id)
    requires o in db.orgs && m.org != o && db.nextId !in db.memberships
    ensures Untouched(db, S.AddMembership(db, m).db, o)
  {
    hide ValidNew;
  }

  lemma AdmitUntouched(db: Tables, org: Id, user: Id, o: Id)
    requires o in db.orgs && org != o && db.nextId !in db.memberships
    ensures Untouched(db, S.Admit(db, org, user).db, o)
  {
    hide Untouched, S.SaveMembership, S.AddMembership;
    match FindMembership(db.memberships, org, user)
    case Some(k) => SaveUntouched(db, k, db.memberships[k].(deactivatedAt := None), o);
    case None => AddUntouched(db, Membership(org, user, Member, None, ByInvitation), o);
  }

  lemma AddUserUntouched(db: Tables, email: string, m: Membership, o: Id)
    requires o in db.orgs && m.org != o && db.nextId + 1 !in db.memberships
    ensures Untouched(db, S.AddUserWithSeat(db, email, m).db, o)
  {
    hide ValidNew;
  }

  lemma AddInvitationUntouched(db: Tables, org: Id, email: string, role: Role, inviter: Option<Id>, now: Time, o: Id)
    requires o in db.orgs && org != o && db.nextId !in db.invitations
    ensures var r := S.AddInvitation(db, org, email, role, inviter, now); r.Some? ==> Untouched(db, r.value, o)
  {
    hide S.AddressIsMember, S.AddressIsInvited;
  }

  lemma FilesOutlive(db: Tables, us: set<Id>, o: Id)
    requires Inv(db) && forall u :: u in us ==> !Concerns(db, u, o)
    ensures ResourcesKept(db.files.exports, S.DropUsers(db, us).files.exports, o)
  {
    forall e | e in db.files.exports && db.files.exports[e].org == o ensures e in S.DropUsers(db, us).files.exports {
      assert S.SameOrganization(db.memberships, db.files.exports[e]);
      var m := db.memberships[db.files.exports[e].membership];
      assert Belongs(db.memberships, db.files.exports[e].membership, o, m.user);
    }
  }

  lemma SeatsOutlive(db: Tables, us: set<Id>, o: Id)
    requires forall u :: u in us ==> !Concerns(db, u, o)
    ensures var later := S.DropUsers(db, us);
            SeatsKept(db.memberships, later.memberships, o) && RequestsKept(db.requests, later.requests, o)
  {
    forall k | k in db.memberships && db.memberships[k].org == o ensures db.memberships[k].user !in us {
      assert Belongs(db.memberships, k, o, db.memberships[k].user);
    }
  }

  lemma LettersOutlive(db: Tables, us: set<Id>, o: Id)
    requires forall u :: u in us ==> !Concerns(db, u, o)
    ensures InvitationsKept(db.invitations, S.DropUsers(db, us).invitations, o)
  {
    forall i | i in db.invitations && db.invitations[i].org == o
      ensures db.invitations[i].email !in S.EmailsOf(db.users, us) && S.Uninvited(db.invitations[i], us) == db.invitations[i]
    {
    }
  }

  lemma DropUsersUntouched(db: Tables, us: set<Id>, o: Id)
    requires Inv(db) && o in db.orgs && forall u :: u in us ==> !Concerns(db, u, o)
    ensures Untouched(db, S.DropUsers(db, us), o)
  {
    FilesOutlive(db, us, o);
    SeatsOutlive(db, us, o);
    LettersOutlive(db, us, o);
    SameParts(db, o);
    hide Inv, Concerns, SeatsKept, RequestsKept, InvitationsKept, ResourcesKept, ProvidersKept, RowKept;
  }

  lemma ExportsOutlive(db: Tables, os: set<Id>, o: Id)
    requires Inv(db) && o !in os
    ensures ResourcesKept(db.files.exports, S.DropOrganizations(db, os).files.exports, o)
  {
    forall e | e in db.files.exports && db.files.exports[e].org == o ensures e in S.DropOrganizations(db, os).files.exports {
      assert S.SameOrganization(db.memberships, db.files.exports[e]);
    }
  }

  lemma ProvidersOutlive(i: Identity, os: set<Id>, o: Id)
    requires o !in os
    ensures ProvidersKept(i, S.DropConnections(i, os), o)
  {
  }

  lemma RowsOutlive(db: Tables, os: set<Id>, o: Id)
    requires o in db.orgs && o !in os
    ensures var later := S.DropOrganizations(db, os);
            && RowKept(db.orgs, later.orgs, o) && SeatsKept(db.memberships, later.memberships, o)
            && InvitationsKept(db.invitations, later.invitations, o) && RequestsKept(db.requests, later.requests, o)
            && ResourcesKept(db.files.projects, later.files.projects, o)
  {
    hide S.DropConnections;
  }

  lemma DropOrganizationsUntouched(db: Tables, os: set<Id>, o: Id)
    requires Inv(db) && o in db.orgs && o !in os
    ensures Untouched(db, S.DropOrganizations(db, os), o)
  {
    ExportsOutlive(db, os, o);
    ProvidersOutlive(db.identity, os, o);
    RowsOutlive(db, os, o);
    hide Inv, SeatsKept, RequestsKept, InvitationsKept, ResourcesKept, ProvidersKept, RowKept, S.DropConnections;
  }

  // ---- Steps on accounts

  lemma SeatsUnwithdrawn(db: Tables, u: Id, now: Time, o: Id)
    requires !Concerns(db, u, o)
    ensures SeatsKept(db.memberships, S.Withdrawn(db.memberships, u, now), o)
  {
    forall k | k in db.memberships && db.memberships[k].org == o ensures db.memberships[k].user != u {
      assert Belongs(db.memberships, k, o, db.memberships[k].user);
    }
  }

  lemma LettersUnpurged(db: Tables, u: Id, o: Id)
    requires u in db.users && !Concerns(db, u, o)
    ensures InvitationsKept(db.invitations, Keep(db.invitations, (i: Invitation) => i.email != db.users[u].email), o)
  {
  }

  lemma RedactUntouched(db: Tables, u: Id, now: Time, o: Id)
    requires o in db.orgs && u in db.users && !Concerns(db, u, o)
    ensures Untouched(db, S.Redact(db, u, now).db, o)
  {
    SameUntouched(db, db, o);
    SeatsUnwithdrawn(db, u, now, o);
    LettersUnpurged(db, u, o);
    hide Deletable, Concerns, SeatsKept, InvitationsKept, RequestsKept, ResourcesKept, ProvidersKept, RowKept, S.Withdrawn, Keep, RedactedEmail;
  }

  lemma SignedOutConcerns(db: Tables, u: Id, session: Id, o: Id)
    requires !Concerns(db, u, o)
    ensures var db1 := S.SignedOut(db, u, session);
            !Concerns(db1, u, o) && SameTables(db, db1) && db1.users == db.users && db1.orgs == db.orgs
  {
  }

  lemma ErasureUntouched(db: Tables, u: Id, now: Time, o: Id)
    requires Inv(db) && o in db.orgs && u in db.users && !Concerns(db, u, o)
    ensures Untouched(db, S.Redact(db, u, now).db, o) && Untouched(db, S.DestroyUser(db, u).db, o)
  {
    SameUntouched(db, db, o);
    RedactUntouched(db, u, now, o);
    DropUsersUntouched(db, {u}, o);
    hide Untouched, Inv, Concerns, S.Redact, S.DropUsers, S.Destroyable;
  }

  lemma UntouchedAlike(db: Tables, db1: Tables, later: Tables, o: Id)
    requires SameTables(db, db1) && Untouched(db1, later, o)
    ensures Untouched(db, later, o)
  {
    hide RowKept, SeatsKept, RequestsKept, InvitationsKept, ResourcesKept, ProvidersKept;
  }

  lemma CloseAccountUntouched(db: Tables, u: Id, session: Id, now: Time, o: Id)
    requires Inv(db) && o in db.orgs && !AccountReaches(db, CloseAccount(u, session, now), o)
    ensures Untouched(db, S.CloseAccount(db, u, session, now).db, o)
  {
    SameUntouched(db, db, o);
    hide Untouched, SameTables, Inv, Concerns, S.Redact, S.DestroyUser, S.SignedOut, Deletable, RetainedFootprint;
    if u in db.users && session in db.logins.sessions && db.logins.sessions[session] == u {
      var db1 := S.SignedOut(db, u, session);
      SignedOutKeepsInv(db, u, session);
      SignedOutConcerns(db, u, session, o);
      ErasureUntouched(db1, u, now, o);
      UntouchedAlike(db, db1, S.Redact(db1, u, now).db, o);
      UntouchedAlike(db, db1, S.DestroyUser(db1, u).db, o);
    }
  }

  lemma AccountsTouchNothing(db: Tables, a: AccountAction)
    requires a.SignUp? || a.ChangeEmail? || a.Ban? || a.SetTwoFactor?
    ensures SameTables(db, AccountStep(db, a).db)
  {
    hide Canonical, EmailTaken;
  }

  lemma LoginsTouchNothing(db: Tables, a: AccountAction)
    requires !a.SignUp? && !a.ChangeEmail? && !a.Ban? && !a.SetTwoFactor? && !a.CloseAccount?
    ensures SameTables(db, AccountStep(db, a).db)
  {
    hide S.Proves, S.Backs;
  }

  lemma AccountStepUntouched(db: Tables, a: AccountAction, o: Id)
    requires Inv(db) && o in db.orgs && !AccountReaches(db, a, o)
    ensures Untouched(db, AccountStep(db, a).db, o)
  {
    hide Inv, Untouched, SameTables, S.CloseAccount;
    match a
    case CloseAccount(u, session, now) => CloseAccountUntouched(db, u, session, now, o);
    case _ =>
      hide AccountStep;
      if a.SignUp? || a.ChangeEmail? || a.Ban? || a.SetTwoFactor? { AccountsTouchNothing(db, a); } else { LoginsTouchNothing(db, a); }
      SameUntouched(db, AccountStep(db, a).db, o);
  }

  // ---- Steps on organizations

  lemma ActsElsewhere(db: Tables, actor: Id, o: Id)
    ensures ActingAdmin(db, actor) && !AdminOf(db, actor, o) ==> db.memberships[actor].org != o
    ensures Acting(db, actor) && !MemberOf(db, actor, o) ==> db.memberships[actor].org != o
    ensures Acting(db, actor) && OwnedBy(db.orgs, db.memberships[actor]) && !OwnerOf(db, actor, o) ==> db.memberships[actor].org != o
  {
  }

  lemma FoundingUntouched(db: Tables, u: Id, privacy: Privacy, logo: bool, ok: bool, o: Id)
    requires Fresh(db) && o in db.orgs
    ensures Untouched(db, S.CreateOrganization(db, u, privacy, logo, ok).db, o)
  {
    assert db.nextId !in db.orgs && db.nextId + 1 !in db.memberships;
    hide Fresh;
    SameUntouched(db, db, o);
    hide ValidNew;
  }

  lemma OrganizationPutUntouched(db: Tables, p: Id, row: Organization, o: Id)
    requires o in db.orgs && p != o
    ensures Untouched(db, db.(orgs := db.orgs[p := row]), o)
  {
    SameParts(db, o);
    hide ProvidersKept;
  }

  lemma SettingsUntouched(db: Tables, a: OrganizationAction, o: Id)
    requires o in db.orgs && (a.UpdateOrganization? || a.PurgeLogo? || a.SetSubscription?) && !OrganizationReaches(db, a, o)
    ensures Untouched(db, OrganizationStep(db, a).db, o)
  {
    SameUntouched(db, db, o);
    hide Untouched, AdminOf, ActingAdmin;
    match a
    case UpdateOrganization(actor, privacy, logo) =>
      ActsElsewhere(db, actor, o);
      if ActingAdmin(db, actor) && db.memberships[actor].org in db.orgs {
        var p := db.memberships[actor].org;
        OrganizationPutUntouched(db, p, db.orgs[p].(privacy := privacy, logo := logo), o);
      }
    case PurgeLogo(p) => if p in db.orgs { OrganizationPutUntouched(db, p, db.orgs[p].(logo := false), o); }
    case SetSubscription(p, subscribed) => if p in db.orgs { OrganizationPutUntouched(db, p, db.orgs[p].(subscribed := subscribed), o); }
  }

  lemma TransferUntouched(db: Tables, actor: Id, target: Id, o: Id)
    requires o in db.orgs && !OwnerOf(db, actor, o)
    ensures Untouched(db, S.TransferOwnership(db, actor, target).db, o)
  {
    ActsElsewhere(db, actor, o);
    SameUntouched(db, db, o);
    hide OwnerOf, Untouched, S.SaveMembership;
    if Acting(db, actor) && OwnedBy(db.orgs, db.memberships[actor]) {
      var p := db.memberships[actor].org;
      var k := FindMembership(db.memberships, p, target);
      if k.Some? {
        var saved := S.SaveMembership(db, k.value, db.memberships[k.value].(role := Admin)).db;
        SaveUntouched(db, k.value, db.memberships[k.value].(role := Admin), o);
        SaveFramesAll(db, k.value, db.memberships[k.value].(role := Admin));
        OrganizationPutUntouched(saved, p, saved.orgs[p].(owner := target), o);
        UntouchedTwice(db, saved, saved.(orgs := saved.orgs[p := saved.orgs[p].(owner := target)]), o);
      }
    }
  }

  lemma ErasureOfAnotherUntouched(db: Tables, actor: Id, now: Time, o: Id)
    requires o in db.orgs && !OwnerOf(db, actor, o)
    ensures Untouched(db, S.EraseOrganization(db, actor, now).db, o)
  {
    ActsElsewhere(db, actor, o);
    SameUntouched(db, db, o);
    hide OwnerOf, S.DropConnections, ProvidersKept;
    if Acting(db, actor) && OwnedBy(db.orgs, db.memberships[actor]) {
      ProvidersOutlive(db.identity, {db.memberships[actor].org}, o);
    }
  }

  /** The step files, or takes away, projects and exports of other organizations only. */
  lemma FilesPutUntouched(db: Tables, files: Files, next: Id, o: Id)
    requires o in db.orgs && ResourcesKept(db.files.projects, files.projects, o) && ResourcesKept(db.files.exports, files.exports, o)
    ensures Untouched(db, db.(files := files, nextId := next), o)
  {
    SameParts(db, o);
    hide ProvidersKept, ResourcesKept;
  }

  lemma ResourcePutKept(rs: map<Id, Resource>, r: Id, row: Resource, o: Id)
    requires r !in rs && row.org != o
    ensures ResourcesKept(rs, rs, o) && ResourcesKept(rs, rs[r := row], o)
  {
  }

  lemma ResourceGoneKept(rs: map<Id, Resource>, r: Id, o: Id)
    requires r in rs ==> rs[r].org != o
    ensures ResourcesKept(rs, rs, o) && ResourcesKept(rs, rs - {r}, o)
  {
  }

  lemma FilesUntouched(db: Tables, a: OrganizationAction, o: Id)
    requires Fresh(db) && o in db.orgs && (a.CreateProject? || a.DestroyProject? || a.CreateExport? || a.PurgeExport?)
    requires !OrganizationReaches(db, a, o)
    ensures Untouched(db, OrganizationStep(db, a).db, o)
  {
    assert db.nextId !in db.files.projects && db.nextId !in db.files.exports;
    SameUntouched(db, db, o);
    SameParts(db, o);
    hide Fresh, Untouched, AdminOf, ActingAdmin, ResourcesKept, ProvidersKept;
    match a
    case PurgeExport(e) => PurgeExportUntouched(db, e, o);
    case CreateProject(actor, _) =>
      ActsElsewhere(db, actor, o);
      if ActingAdmin(db, actor) && actor in db.memberships { FiledUntouched(db, Resource(db.memberships[actor].org, actor), o); }
    case CreateExport(actor) =>
      ActsElsewhere(db, actor, o);
      if ActingAdmin(db, actor) && actor in db.memberships { FiledUntouched(db, Resource(db.memberships[actor].org, actor), o); }
    case DestroyProject(actor, p) =>
      ActsElsewhere(db, actor, o);
      if p in db.files.projects && db.files.projects[p].org != o { UnfiledUntouched(db, p, o); }
  }

  lemma FiledUntouched(db: Tables, row: Resource, o: Id)
    requires o in db.orgs && row.org != o && db.nextId !in db.files.projects && db.nextId !in db.files.exports
    ensures Untouched(db, db.(files := db.files.(projects := db.files.projects[db.nextId := row]), nextId := db.nextId + 1), o)
    ensures Untouched(db, db.(files := db.files.(exports := db.files.exports[db.nextId := row]), nextId := db.nextId + 1), o)
  {
    ResourcePutKept(db.files.projects, db.nextId, row, o);
    ResourcePutKept(db.files.exports, db.nextId, row, o);
    hide Untouched, ResourcesKept;
    FilesPutUntouched(db, db.files.(projects := db.files.projects[db.nextId := row]), db.nextId + 1, o);
    FilesPutUntouched(db, db.files.(exports := db.files.exports[db.nextId := row]), db.nextId + 1, o);
  }

  lemma UnfiledUntouched(db: Tables, p: Id, o: Id)
    requires o in db.orgs && p in db.files.projects && db.files.projects[p].org != o
    ensures Untouched(db, db.(files := db.files.(projects := db.files.projects - {p})), o)
  {
    ResourceGoneKept(db.files.projects, p, o);
    assert ResourcesKept(db.files.exports, db.files.exports, o);
    hide Untouched, ResourcesKept;
    FilesPutUntouched(db, db.files.(projects := db.files.projects - {p}), db.nextId, o);
  }

  lemma PurgeExportUntouched(db: Tables, e: Id, o: Id)
    requires o in db.orgs && (e in db.files.exports ==> db.files.exports[e].org != o)
    ensures Untouched(db, S.PurgeExport(db, e).db, o)
  {
    ResourceGoneKept(db.files.exports, e, o);
    assert ResourcesKept(db.files.projects, db.files.projects, o);
    hide Untouched, ResourcesKept;
    FilesPutUntouched(db, db.files.(exports := db.files.exports - {e}), db.nextId, o);
  }

  lemma PurgeIs(db: Tables, now: Time, start: Id, stop: Option<Id>)
    ensures var first := S.DropOrganizations(db, S.PurgePrefix(db, now, start, stop));
            S.Purge(db, now, start, stop).db == first || S.Purge(db, now, start, stop).db == S.DropUsers(first, S.OrphanPrefix(first))
  {
    hide S.PurgePrefix, S.OrphanPrefix, S.DueBetween, S.DropOrganizations, S.DropUsers, S.Orphans;
  }

  lemma NotDue(db: Tables, now: Time, start: Id, stop: Option<Id>, o: Id)
    requires o in db.orgs && !OrganizationReaches(db, PurgeJob(now, start, stop), o)
    ensures o !in S.PurgePrefix(db, now, start, stop) && !OrganizationReaches(db, PurgeJob(now, 0, None), o)
  {
  }

  lemma PurgeUntouched(db: Tables, now: Time, start: Id, stop: Option<Id>, o: Id)
    requires Inv(db) && o in db.orgs && !OrganizationReaches(db, PurgeJob(now, start, stop), o)
    ensures Untouched(db, S.Purge(db, now, start, stop).db, o)
  {
    hide Inv, Untouched, Concerns, OrganizationReaches, S.Purge, S.PurgePrefix, S.OrphanPrefix, S.DropOrganizations, S.DropUsers;
    var os := S.PurgePrefix(db, now, start, stop);
    NotDue(db, now, start, stop, o);
    OrphansAreStrangers(db, os, now, o);
    PurgeIs(db, now, start, stop);
    DropOrganizationsUntouched(db, os, o);
    OrphansUntouched(db, os, o);
  }

  lemma OrphansUntouched(db: Tables, os: set<Id>, o: Id)
    requires Inv(db) && o in db.orgs && o !in os
    requires var first := S.DropOrganizations(db, os); forall u :: u in S.OrphanPrefix(first) ==> !Concerns(first, u, o)
    ensures var first := S.DropOrganizations(db, os); Untouched(db, S.DropUsers(first, S.OrphanPrefix(first)), o)
  {
    var first := S.DropOrganizations(db, os);
    DropOrganizationsUntouched(db, os, o);
    DropOrganizationsKeepsInv(db, os);
    hide Inv, Untouched, Concerns, S.OrphanPrefix, S.DropOrganizations, S.DropUsers;
    UntouchedRow(db, first, o);
    DropUsersUntouched(first, S.OrphanPrefix(first), o);
    UntouchedTwice(db, first, S.DropUsers(first, S.OrphanPrefix(first)), o);
  }

  lemma UntouchedRow(db: Tables, later: Tables, o: Id)
    requires Untouched(db, later, o)
    ensures RowKept(db.orgs, later.orgs, o)
  {
  }

  lemma OrphansAreStrangers(db: Tables, os: set<Id>, now: Time, o: Id)
    requires !OrganizationReaches(db, PurgeJob(now, 0, None), o)
    ensures var first := S.DropOrganizations(db, os); forall u :: u in S.OrphanPrefix(first) ==> !Concerns(first, u, o)
  {
    var first := S.DropOrganizations(db, os);
    forall u | u in S.OrphanPrefix(first) ensures !Concerns(first, u, o) {
      assert u in S.Orphans(first);
      OrphanIsStranger(db, os, u, now, o);
    }
  }

  lemma OrphanIsStranger(db: Tables, os: set<Id>, u: Id, now: Time, o: Id)
    requires u in S.Orphans(S.DropOrganizations(db, os)) && !OrganizationReaches(db, PurgeJob(now, 0, None), o)
    ensures !Concerns(S.DropOrganizations(db, os), u, o)
  {
    assert !Concerns(db, u, o);
  }

  lemma UntouchedTwice(db: Tables, db1: Tables, db2: Tables, o: Id)
    requires Untouched(db, db1, o) && Untouched(db1, db2, o)
    ensures Untouched(db, db2, o)
  {
    ProvidersTwice(db.identity, db1.identity, db2.identity, o);
    ResourcesTwice(db.files.projects, db1.files.projects, db2.files.projects, o);
    ResourcesTwice(db.files.exports, db1.files.exports, db2.files.exports, o);
    SeatsTwice(db.memberships, db1.memberships, db2.memberships, o);
    InvitationsTwice(db.invitations, db1.invitations, db2.invitations, o);
    hide ProvidersKept, ResourcesKept, SeatsKept, InvitationsKept;
  }

  lemma SeatsTwice(ms: map<Id, Membership>, ms1: map<Id, Membership>, ms2: map<Id, Membership>, o: Id)
    requires SeatsKept(ms, ms1, o) && SeatsKept(ms1, ms2, o)
    ensures SeatsKept(ms, ms2, o)
  {
  }

  lemma InvitationsTwice(invs: map<Id, Invitation>, invs1: map<Id, Invitation>, invs2: map<Id, Invitation>, o: Id)
    requires InvitationsKept(invs, invs1, o) && InvitationsKept(invs1, invs2, o)
    ensures InvitationsKept(invs, invs2, o)
  {
  }

  lemma ResourcesTwice(rs: map<Id, Resource>, rs1: map<Id, Resource>, rs2: map<Id, Resource>, o: Id)
    requires ResourcesKept(rs, rs1, o) && ResourcesKept(rs1, rs2, o)
    ensures ResourcesKept(rs, rs2, o)
  {
  }

  lemma ProvidersTwice(i: Identity, i1: Identity, i2: Identity, o: Id)
    requires ProvidersKept(i, i1, o) && ProvidersKept(i1, i2, o)
    ensures ProvidersKept(i, i2, o)
  {
  }

  lemma OwnersStepUntouched(db: Tables, a: OrganizationAction, o: Id)
    requires o in db.orgs && (a.TransferOwnership? || a.EraseOrganization?) && !OrganizationReaches(db, a, o)
    ensures Untouched(db, OrganizationStep(db, a).db, o)
  {
    hide Untouched, OwnerOf, S.TransferOwnership, S.EraseOrganization;
    match a
    case TransferOwnership(actor, target) => TransferUntouched(db, actor, target, o);
    case EraseOrganization(actor, now) => ErasureOfAnotherUntouched(db, actor, now, o);
  }

  lemma PurgeJobUntouched(db: Tables, a: OrganizationAction, o: Id)
    requires Inv(db) && o in db.orgs && a.PurgeJob? && !OrganizationReaches(db, a, o)
    ensures Untouched(db, OrganizationStep(db, a).db, o)
  {
    hide Inv, Untouched, S.Purge, OrganizationReaches;
    PurgeUntouched(db, a.now, a.start, a.stop, o);
  }

  lemma OrganizationStepUntouched(db: Tables, a: OrganizationAction, o: Id)
    requires Inv(db) && o in db.orgs && !OrganizationReaches(db, a, o)
    ensures Untouched(db, OrganizationStep(db, a).db, o)
  {
    assert Fresh(db);
    hide Inv, Fresh, Untouched, OrganizationStep, OrganizationReaches;
    match a
    case CreateOrganization(_, _, _, _) => FoundingStepUntouched(db, a, o);
    case TransferOwnership(_, _) => OwnersStepUntouched(db, a, o);
    case EraseOrganization(_, _) => OwnersStepUntouched(db, a, o);
    case PurgeJob(_, _, _) => PurgeJobUntouched(db, a, o);
    case Audit(_) => AuditUntouched(db, a, o);
    case UpdateOrganization(_, _, _) => SettingsUntouched(db, a, o);
    case PurgeLogo(_) => SettingsUntouched(db, a, o);
    case SetSubscription(_, _) => SettingsUntouched(db, a, o);
    case _ => FilesUntouched(db, a, o);
  }

  lemma FoundingStepUntouched(db: Tables, a: OrganizationAction, o: Id)
    requires Fresh(db) && o in db.orgs && a.CreateOrganization?
    ensures Untouched(db, OrganizationStep(db, a).db, o)
  {
    hide Fresh, Untouched, S.CreateOrganization;
    FoundingUntouched(db, a.user, a.privacy, a.logo, a.valid, o);
  }

  lemma AuditUntouched(db: Tables, a: OrganizationAction, o: Id)
    requires o in db.orgs && a.Audit?
    ensures Untouched(db, OrganizationStep(db, a).db, o)
  {
    SameUntouched(db, OrganizationStep(db, a).db, o);
  }
}
