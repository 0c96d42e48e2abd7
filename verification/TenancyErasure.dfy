/** An erased organization is closed for good: nobody acts in it, nobody is
    invited to it and no identity provider serves it, in any later state. */
module TenancyErasure {
  import opened Common
  import opened Tenancy
  import opened TenancyMachine
  import opened TenancyInvariants
  import S = TenancySteps

  predicate NoInvitation(invs: map<Id, Invitation>, o: Id) {
    forall i :: i in invs ==> invs[i].org != o
  }

  predicate NoProvider(identity: Identity, o: Id) {
    && (forall c :: c in identity.connections ==> identity.connections[c].org != o)
    && (forall c :: c in identity.scim ==> identity.scim[c].org != o)
  }

  /** The row is gone, or soft-deleted. */
  predicate NotKept(orgs: map<Id, Organization>, o: Id) {
    o in orgs ==> orgs[o].deletedAt.Some?
  }

  ghost predicate Erased(db: Tables, o: Id) {
    o < db.nextId && NotKept(db.orgs, o) && NoInvitation(db.invitations, o) && NoProvider(db.identity, o)
  }

  lemma ActingIsElsewhere(db: Tables, actor: Id, o: Id)
    requires NotKept(db.orgs, o) && Acting(db, actor)
    ensures db.memberships[actor].org != o
  {
  }

  // ---- What a step may do to the three tables

  ghost predicate StillErased(db: Tables, later: Tables, o: Id) {
    db.nextId <= later.nextId && NotKept(later.orgs, o) && NoInvitation(later.invitations, o) && NoProvider(later.identity, o)
  }

  /** Steps on seats and accounts leave the three tables alone, or only delete from them. */
  lemma FewerStayErased(db: Tables, later: Tables, o: Id)
    requires Erased(db, o) && db.nextId <= later.nextId
    requires Subtable(later.orgs, db.orgs)
    requires forall i :: i in later.invitations ==> i in db.invitations && later.invitations[i].org == db.invitations[i].org
    requires Subtable(later.identity.connections, db.identity.connections) && Subtable(later.identity.scim, db.identity.scim)
    ensures StillErased(db, later, o)
  {
  }

  lemma OrganizationPutStaysErased(db: Tables, o: Id, p: Id, row: Organization)
    requires Erased(db, o) && (p == o ==> row.deletedAt.Some?)
    ensures StillErased(db, db.(orgs := db.orgs[p := row]), o)
  {
  }

  lemma InvitationAddStaysErased(db: Tables, o: Id, org: Id, email: string, role: Role, inviter: Option<Id>, now: Time)
    requires Erased(db, o) && org != o
    ensures var r := S.AddInvitation(db, org, email, role, inviter, now); r.Some? ==> StillErased(db, r.value, o)
  {
  }

  lemma SaveFramesAll(db: Tables, id: Id, m: Membership)
    requires id in db.memberships
    ensures var later := S.SaveMembership(db, id, m).db;
            later.orgs == db.orgs && later.invitations == db.invitations && later.identity == db.identity && later.nextId == db.nextId
  {
  }

  lemma AddFramesAll(db: Tables, m: Membership)
    ensures var later := S.AddMembership(db, m).db;
            later.orgs == db.orgs && later.invitations == db.invitations && later.identity == db.identity && db.nextId <= later.nextId
  {
  }

  lemma AdmitFramesAll(db: Tables, org: Id, user: Id)
    ensures var later := S.Admit(db, org, user).db;
            later.orgs == db.orgs && later.invitations == db.invitations && later.identity == db.identity && db.nextId <= later.nextId
  {
    match FindMembership(db.memberships, org, user)
    case Some(k) => SaveFramesAll(db, k, db.memberships[k].(deactivatedAt := None));
    case None => AddFramesAll(db, Membership(org, user, Member, None, ByInvitation));
  }

  lemma AddUserFramesAll(db: Tables, email: string, m: Membership)
    ensures var later := S.AddUserWithSeat(db, email, m).db;
            later.orgs == db.orgs && later.invitations == db.invitations && later.identity == db.identity && db.nextId <= later.nextId
  {
    AddFramesAll(db.(users := db.users[db.nextId := User(email, false, None, false)], nextId := db.nextId + 1), m);
  }

  lemma LoginsFrameAll(db: Tables, a: AccountAction)
    requires !a.CloseAccount?
    ensures var later := AccountStep(db, a).db;
            later.orgs == db.orgs && later.invitations == db.invitations && later.identity == db.identity && db.nextId <= later.nextId
  {
    hide Canonical, EmailTaken, S.Proves, S.Backs;
  }

  lemma AccountStepStaysErased(db: Tables, a: AccountAction, o: Id)
    requires Erased(db, o)
    ensures StillErased(db, AccountStep(db, a).db, o)
  {
    hide S.CloseAccount;
    match a
    case CloseAccount(u, session, now) => CloseAccountStaysErased(db, u, session, now, o);
    case _ =>
      hide AccountStep;
      LoginsFrameAll(db, a);
      FewerStayErased(db, AccountStep(db, a).db, o);
  }

  lemma DropUsersStaysErased(db: Tables, us: set<Id>, o: Id)
    requires Erased(db, o)
    ensures StillErased(db, S.DropUsers(db, us), o)
  {
  }

  lemma DropOrganizationsStaysErased(db: Tables, os: set<Id>, o: Id)
    requires Erased(db, o)
    ensures StillErased(db, S.DropOrganizations(db, os), o)
  {
  }

  lemma RedactStaysErased(db: Tables, u: Id, now: Time, o: Id)
    requires Erased(db, o) && u in db.users
    ensures StillErased(db, S.Redact(db, u, now).db, o)
  {
  }

  lemma CloseAccountStaysErased(db: Tables, u: Id, session: Id, now: Time, o: Id)
    requires Erased(db, o)
    ensures StillErased(db, S.CloseAccount(db, u, session, now).db, o)
  {
    hide NotKept, NoInvitation, NoProvider, S.Redact, S.DropUsers, S.Destroyable, Deletable, RetainedFootprint;
    var db1 := S.SignedOut(db, u, session);
    DropUsersStaysErased(db1, {u}, o);
    if u in db.users {
      RedactStaysErased(db1, u, now, o);
    }
  }

  lemma CreateStaysErased(db: Tables, u: Id, privacy: Privacy, logo: bool, ok: bool, o: Id)
    requires Erased(db, o)
    ensures StillErased(db, S.CreateOrganization(db, u, privacy, logo, ok).db, o)
  {
    var org := Organization(u, None, privacy, logo, false);
    var db1 := db.(orgs := db.orgs[db.nextId := org], nextId := db.nextId + 1);
    OrganizationPutStaysErased(db, o, db.nextId, org);
    AddFramesAll(db1, Membership(db.nextId, u, Admin, None, ByInvitation));
    hide S.AddMembership;
  }

  lemma TransferStaysErased(db: Tables, actor: Id, target: Id, o: Id)
    requires Erased(db, o)
    ensures StillErased(db, S.TransferOwnership(db, actor, target).db, o)
  {
    if Acting(db, actor) {
      var p := db.memberships[actor].org;
      var k := FindMembership(db.memberships, p, target);
      if k.Some? {
        var m := db.memberships[k.value].(role := Admin);
        SaveFramesAll(db, k.value, m);
        OrganizationPutStaysErased(S.SaveMembership(db, k.value, m).db, o, p, db.orgs[p].(owner := target));
      }
    }
    hide S.SaveMembership;
  }

  lemma EraseStaysErased(db: Tables, actor: Id, now: Time, o: Id)
    requires Erased(db, o)
    ensures StillErased(db, S.EraseOrganization(db, actor, now).db, o)
  {
  }

  lemma PurgeStaysErased(db: Tables, now: Time, start: Id, stop: Option<Id>, o: Id)
    requires Erased(db, o)
    ensures StillErased(db, S.Purge(db, now, start, stop).db, o)
  {
    hide NotKept, NoInvitation, NoProvider, S.DropOrganizations, S.DropUsers, S.PurgePrefix, S.Orphans, S.Destroyable;
    var first := S.PurgeOrganizations(db, now, start, stop).db;
    DropOrganizationsStaysErased(db, S.PurgePrefix(db, now, start, stop), o);
    DropUsersStaysErased(first, S.OrphanPrefix(first), o);
  }

  lemma OrganizationStepStaysErased(db: Tables, a: OrganizationAction, o: Id)
    requires Erased(db, o)
    ensures StillErased(db, OrganizationStep(db, a).db, o)
  {
    match a
    case CreateOrganization(u, privacy, logo, ok) => CreateStaysErased(db, u, privacy, logo, ok, o);
    case UpdateOrganization(actor, privacy, logo) => if Acting(db, actor) { ActingIsElsewhere(db, actor, o); }
    case TransferOwnership(actor, target) => TransferStaysErased(db, actor, target, o);
    case EraseOrganization(actor, now) => EraseStaysErased(db, actor, now, o);
    case PurgeJob(now, start, stop) => PurgeStaysErased(db, now, start, stop, o);
    case _ =>
  }

  lemma SeatStepStaysErased(db: Tables, a: SeatAction, o: Id)
    requires Erased(db, o)
    ensures StillErased(db, SeatStep(db, a).db, o)
  {
    match a
    case RequestAccess(u, p) => AdmitFramesAll(db, p, u);
    case Approve(actor, r) =>
      if S.MayDecide(db, actor, r) {
        var row := db.requests[r].(approved := true, completedBy := Some(db.memberships[actor].user));
        AdmitFramesAll(db.(requests := db.requests[r := row]), row.org, row.user);
      }
    case _ => hide ValidUpdate;
  }

  lemma RedeemStaysErased(db: Tables, u: Id, i: Id, o: Id)
    requires Erased(db, o) && i in db.invitations
    ensures StillErased(db, S.Redeem(db, u, i).db, o)
  {
    var row, db1 := db.invitations[i], db.(invitations := db.invitations - {i});
    match FindMembership(db.memberships, row.org, u)
    case Some(k) => SaveFramesAll(db1, k, db.memberships[k].(role := row.role, deactivatedAt := None, via := ByInvitation));
    case None => AddFramesAll(db1, Membership(row.org, u, row.role, None, ByInvitation));
  }

  lemma InviteStepStaysErased(db: Tables, a: InviteAction, o: Id)
    requires Erased(db, o)
    ensures StillErased(db, InviteStep(db, a).db, o)
  {
    match a
    case Invite(actor, email, role, ok, now) =>
      if ActingAdmin(db, actor) {
        ActingIsElsewhere(db, actor, o);
        InvitationAddStaysErased(db, o, db.memberships[actor].org, Canonical(email), role, Some(db.memberships[actor].user), now);
      }
    case Accept(u, i, copy, now) => if i in db.invitations { RedeemStaysErased(db, u, i, o); }
    case _ =>
  }

  lemma SignOnStaysErased(db: Tables, c: Id, asserted: string, ok: bool, o: Id)
    requires Erased(db, o) && c in db.identity.connections
    ensures StillErased(db, S.ResolveSignIn(db, c, asserted, ok).db, o)
  {
    var connection, email := db.identity.connections[c], Canonical(asserted);
    match FindUser(db.users, email)
    case Some(u) =>
      var k := FindMembership(db.memberships, connection.org, u);
      if k.Some? { SaveFramesAll(db, k.value, db.memberships[k.value].(deactivatedAt := None, via := BySso)); }
    case None => AddUserFramesAll(db, email, Membership(connection.org, db.nextId, connection.defaultRole, None, BySso));
  }

  lemma ScimCreateStaysErased(db: Tables, c: Id, userName: string, active: Option<bool>, ok: bool, now: Time, o: Id)
    requires Erased(db, o)
    ensures StillErased(db, S.ScimCreate(db, c, userName, active, ok, now).db, o)
  {
    if c in db.identity.scim {
      var email, p := Canonical(userName), db.identity.scim[c].org;
      match FindUser(db.users, email)
      case None =>
        var deactivatedAt := if active == Some(false) then Some(now) else None;
        AddUserFramesAll(db, email, Membership(p, db.nextId, db.identity.scim[c].defaultRole, deactivatedAt, ByScim));
      case Some(u) =>
        InvitationAddStaysErased(db, o, p, email, db.identity.scim[c].defaultRole, None, now);
        var k := FindMembership(db.memberships, p, u);
        if k.Some? { SaveFramesAll(db, k.value, db.memberships[k.value].(deactivatedAt := None, via := ByScim)); }
    }
  }

  lemma SettingsStayErased(db: Tables, a: IdentityAction, o: Id)
    requires Erased(db, o) && !a.SsoSignIn? && !a.ScimCreate? && !a.ScimUpdate? && !a.ScimDestroy?
    ensures StillErased(db, IdentityStep(db, a).db, o)
  {
  }

  lemma IdentityStepStaysErased(db: Tables, a: IdentityAction, o: Id)
    requires Erased(db, o)
    ensures StillErased(db, IdentityStep(db, a).db, o)
  {
    match a
    case SsoSignIn(c, email, ok) => if c in db.identity.connections { SignOnStaysErased(db, c, email, ok, o); }
    case ScimCreate(c, userName, active, ok, now) => ScimCreateStaysErased(db, c, userName, active, ok, now, o);
    case ScimUpdate(_, _, _, _) => hide ValidUpdate;
    case ScimDestroy(_, _, _) => hide ValidUpdate;
    case _ => SettingsStayErased(db, a, o);
  }

  lemma StepStaysErased(db: Tables, a: Action, o: Id)
    requires Erased(db, o)
    ensures Erased(Step(db, a).db, o)
  {
    hide NotKept, NoInvitation, NoProvider;
    match a
    case OnAccount(b) => AccountStepStaysErased(db, b, o);
    case OnOrganization(b) => OrganizationStepStaysErased(db, b, o);
    case OnSeat(b) => SeatStepStaysErased(db, b, o);
    case OnInvite(b) => InviteStepStaysErased(db, b, o);
    case OnIdentity(b) => IdentityStepStaysErased(db, b, o);
  }

  lemma {:induction false} RunStaysErased(db: Tables, run: seq<Action>, o: Id)
    requires Erased(db, o)
    ensures Erased(Run(db, run), o)
    decreases run
  {
    hide Erased, Step;
    if run != [] {
      StepStaysErased(db, run[0], o);
      RunStaysErased(Step(db, run[0]).db, run[1..], o);
    }
  }

  lemma ErasureErases(db: Tables, actor: Id, now: Time)
    requires Inv(db) && S.EraseOrganization(db, actor, now).reply == S.Done
    ensures actor in db.memberships && Erased(S.EraseOrganization(db, actor, now).db, db.memberships[actor].org)
  {
  }

  /** Once its owner erased it, no member acts in the organization again, no invitation
      to it exists and no sign-on or provisioning connection serves it, until the purge
      takes the row and ever after. */
  lemma ErasedStaysClosed(db: Tables, actor: Id, now: Time, run: seq<Action>)
    requires Inv(db) && S.EraseOrganization(db, actor, now).reply == S.Done
    ensures actor in db.memberships
    ensures var (o, later) := (db.memberships[actor].org, Run(S.EraseOrganization(db, actor, now).db, run));
            && (forall k :: k in later.memberships && later.memberships[k].org == o ==> !Acting(later, k))
            && NotKept(later.orgs, o) && NoInvitation(later.invitations, o) && NoProvider(later.identity, o)
  {
    ErasureErases(db, actor, now);
    hide Inv, Step, S.EraseOrganization;
    RunStaysErased(S.EraseOrganization(db, actor, now).db, run, db.memberships[actor].org);
  }

  /** The organization is soft-deleted, its invitations and providers are gone, and every row
      of other organizations, every seat, request and file is as it was. */
  ghost predicate ErasedOnly(db: Tables, later: Tables, o: Id, now: Time) {
    && later == db.(orgs := later.orgs, invitations := later.invitations, identity := later.identity)
    && o in db.orgs && later.orgs == db.orgs[o := db.orgs[o].(deletedAt := Some(now))]
    && Subtable(later.invitations, db.invitations) && Subtable(later.identity.connections, db.identity.connections)
    && Subtable(later.identity.scim, db.identity.scim) && Subtable(later.identity.domains, db.identity.domains)
    && (forall i :: i in later.invitations <==> i in db.invitations && db.invitations[i].org != o)
    && (forall c :: c in later.identity.connections <==> c in db.identity.connections && db.identity.connections[c].org != o)
    && (forall c :: c in later.identity.scim <==> c in db.identity.scim && db.identity.scim[c].org != o)
    && (forall d :: d in later.identity.domains <==>
          d in db.identity.domains && !(db.identity.domains[d].connection in db.identity.connections
                                        && db.identity.connections[db.identity.domains[d].connection].org == o))
  }

  /** An organization is erased by its acting owner exactly when no subscription is active and
      it is valid, that is, private or with a logo; anything else writes nothing. */
  lemma ErasureCommitsIff(db: Tables, actor: Id, now: Time)
    ensures var r := S.EraseOrganization(db, actor, now);
            if && actor in db.memberships && db.memberships[actor].deactivatedAt == None
               && db.memberships[actor].org in db.orgs
               && var org := db.orgs[db.memberships[actor].org];
               && org.deletedAt == None && org.owner == db.memberships[actor].user && !org.subscribed && (org.privacy == Private || org.logo)
            then r.reply == S.Done && ErasedOnly(db, r.db, db.memberships[actor].org, now)
            else r.reply != S.Done && r.db == db
  {
  }
}
