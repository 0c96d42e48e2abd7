/** Where roles come from. A step leaves every membership in the role it had, or gives it
    one that somebody entitled to it chose. */
module TenancyRoles {
  import opened Common
  import opened Tenancy
  import opened TenancyMachine
  import opened TenancyInvariants
  import opened TenancyRuns
  import opened TenancyEvolution
  import opened TenancyGuarantees
  import S = TenancySteps

  /** Row `k` had the role before. */
  ghost predicate HadRole(ms: map<Id, Membership>, k: Id, role: Role) {
    k in ms && ms[k].role == role
  }

  /** Step `a` gives membership `m` its role: its founder's, a new owner's, one an admin of
      the organization chose, the invited one, a provider's default for a new account, or
      the plain member's of a first join. */
  ghost predicate Grants(db: Tables, a: Action, k: Id, m: Membership) {
    match a
    case OnAccount(_) => false
    case OnOrganization(CreateOrganization(u, _, _, _)) => k !in db.memberships && m.user == u && m.org !in db.orgs && m.role == Admin
    case OnOrganization(TransferOwnership(actor, target)) =>
      MemberOf(db, actor, m.org) && db.orgs[m.org].owner == db.memberships[actor].user && m.user == target && m.role == Admin
    case OnOrganization(_) => false
    case OnSeat(ChangeRole(actor, id, role)) => k == id && AdminOf(db, actor, m.org) && db.orgs[m.org].owner != m.user && m.role == role
    case OnSeat(RequestAccess(u, o)) => k !in db.memberships && m.user == u && m.org == o && m.role == Member
    case OnSeat(Approve(actor, r)) => k !in db.memberships && AdminOf(db, actor, m.org) && m.role == Member
    case OnSeat(_) => false
    case OnInvite(Accept(u, i, _, _)) => i in db.invitations && m.user == u && m.org == db.invitations[i].org && m.role == db.invitations[i].role
    case OnInvite(_) => false
    case OnIdentity(SsoSignIn(c, _, _)) =>
      k !in db.memberships && m.user !in db.users && c in db.identity.connections
      && m.org == db.identity.connections[c].org && m.role == db.identity.connections[c].defaultRole
    case OnIdentity(ScimCreate(c, _, _, _, _)) =>
      k !in db.memberships && m.user !in db.users && c in db.identity.scim
      && m.org == db.identity.scim[c].org && m.role == db.identity.scim[c].defaultRole
    case OnIdentity(_) => false
  }

  /** Rows go, or keep their role. */
  ghost predicate KeepsRoles(db: Tables, later: Tables) {
    forall k :: k in later.memberships ==> HadRole(db.memberships, k, later.memberships[k].role)
  }

  lemma AccountStepKeepsRoles(db: Tables, a: AccountAction)
    ensures KeepsRoles(db, AccountStep(db, a).db)
  {
    hide Deletable, RetainedFootprint, S.Destroyable, Canonical;
  }

  lemma PurgeKeepsRoles(db: Tables, now: Time, start: Id, stop: Option<Id>)
    ensures KeepsRoles(db, S.Purge(db, now, start, stop).db)
  {
    hide S.PurgePrefix, S.OrphanPrefix, S.Orphans, S.DueBetween;
  }

  lemma SaveGrants(db: Tables, id: Id, m: Membership, k: Id)
    requires id in db.memberships && k in S.SaveMembership(db, id, m).db.memberships
    ensures var later := S.SaveMembership(db, id, m).db.memberships[k]; k in db.memberships && (later == db.memberships[k] || (k == id && later == m))
  {
    hide ValidUpdate;
  }

  lemma AddGrants(db: Tables, m: Membership, k: Id)
    requires k in S.AddMembership(db, m).db.memberships
    ensures var later := S.AddMembership(db, m).db.memberships[k];
            (k in db.memberships && later == db.memberships[k]) || (k == db.nextId && later == m)
  {
    hide ValidNew;
  }

  lemma AddUserGrants(db: Tables, email: string, m: Membership, k: Id)
    requires k in S.AddUserWithSeat(db, email, m).db.memberships
    ensures var later := S.AddUserWithSeat(db, email, m).db.memberships[k];
            (k in db.memberships && later == db.memberships[k]) || (k == db.nextId + 1 && later == m)
  {
    hide ValidNew;
  }

  lemma AdmitGrants(db: Tables, o: Id, u: Id, k: Id)
    requires Fresh(db) && k in S.Admit(db, o, u).db.memberships
    ensures var m := S.Admit(db, o, u).db.memberships[k];
            HadRole(db.memberships, k, m.role) || (k !in db.memberships && m.user == u && m.org == o && m.role == Member)
  {
    hide S.SaveMembership, S.AddMembership;
    match FindMembership(db.memberships, o, u)
    case Some(j) => SaveGrants(db, j, db.memberships[j].(deactivatedAt := None), k);
    case None => AddGrants(db, Membership(o, u, Member, None, ByInvitation), k);
  }

  lemma FoundingGrants(db: Tables, u: Id, privacy: Privacy, logo: bool, ok: bool, k: Id)
    requires Fresh(db) && k in S.CreateOrganization(db, u, privacy, logo, ok).db.memberships
    ensures var m := S.CreateOrganization(db, u, privacy, logo, ok).db.memberships[k];
            HadRole(db.memberships, k, m.role) || Grants(db, OnOrganization(CreateOrganization(u, privacy, logo, ok)), k, m)
  {
    hide ValidNew;
  }

  lemma TransferGrants(db: Tables, actor: Id, target: Id, k: Id)
    requires k in S.TransferOwnership(db, actor, target).db.memberships
    ensures var m := S.TransferOwnership(db, actor, target).db.memberships[k];
            HadRole(db.memberships, k, m.role) || Grants(db, OnOrganization(TransferOwnership(actor, target)), k, m)
  {
    hide S.SaveMembership;
    if Acting(db, actor) {
      var j := FindMembership(db.memberships, db.memberships[actor].org, target);
      if j.Some? && k in S.SaveMembership(db, j.value, db.memberships[j.value].(role := Admin)).db.memberships {
        SaveGrants(db, j.value, db.memberships[j.value].(role := Admin), k);
      }
    }
  }

  lemma OrganizationStepGrants(db: Tables, a: OrganizationAction, k: Id)
    requires Fresh(db) && k in OrganizationStep(db, a).db.memberships
    ensures var m := OrganizationStep(db, a).db.memberships[k];
            HadRole(db.memberships, k, m.role) || Grants(db, OnOrganization(a), k, m)
  {
    match a
    case CreateOrganization(u, privacy, logo, ok) => FoundingGrants(db, u, privacy, logo, ok, k);
    case TransferOwnership(actor, target) => TransferGrants(db, actor, target, k);
    case PurgeJob(now, start, stop) => PurgeKeepsRoles(db, now, start, stop); hide S.Purge;
    case _ =>
  }

  lemma DecidersAdminister(db: Tables, actor: Id, r: Id)
    requires S.MayDecide(db, actor, r)
    ensures AdminOf(db, actor, db.requests[r].org)
  {
  }

  lemma ApprovalGrants(db: Tables, actor: Id, r: Id, k: Id)
    requires Fresh(db) && k in S.ApproveRequest(db, actor, r).db.memberships
    ensures var m := S.ApproveRequest(db, actor, r).db.memberships[k];
            HadRole(db.memberships, k, m.role) || Grants(db, OnSeat(Approve(actor, r)), k, m)
  {
    hide AdminOf, S.Admit;
    if S.MayDecide(db, actor, r) {
      var row := db.requests[r].(approved := true, completedBy := Some(db.memberships[actor].user));
      var db1 := db.(requests := db.requests[r := row]);
      DecidersAdminister(db, actor, r);
      hide S.MayDecide;
      if k in S.Admit(db1, row.org, row.user).db.memberships {
        AdmitGrants(db1, row.org, row.user, k);
      }
    }
  }

  lemma ChangeRoleGrants(db: Tables, actor: Id, id: Id, role: Role, k: Id)
    requires Inv(db) && k in S.ChangeRole(db, actor, id, role).db.memberships
    ensures var m := S.ChangeRole(db, actor, id, role).db.memberships[k];
            HadRole(db.memberships, k, m.role) || Grants(db, OnSeat(ChangeRole(actor, id, role)), k, m)
  {
    UpdatePolicy(db, actor, id);
    hide Inv, MayUpdate, AdminOf, S.SaveMembership;
    if MayUpdate(db, actor, id) {
      SaveGrants(db, id, db.memberships[id].(role := role), k);
    }
  }

  lemma ActivationKeepsRoles(db: Tables, a: SeatAction)
    requires a.Deactivate? || a.Reactivate? || a.CancelRequest? || a.Reject?
    ensures KeepsRoles(db, SeatStep(db, a).db)
  {
    hide ValidUpdate;
  }

  lemma RequestAccessGrants(db: Tables, u: Id, o: Id, k: Id)
    requires Fresh(db) && k in S.RequestAccess(db, u, o).db.memberships
    ensures var m := S.RequestAccess(db, u, o).db.memberships[k];
            HadRole(db.memberships, k, m.role) || Grants(db, OnSeat(RequestAccess(u, o)), k, m)
  {
    if k in S.Admit(db, o, u).db.memberships {
      AdmitGrants(db, o, u, k);
    }
    hide S.Admit;
  }

  lemma SeatStepGrants(db: Tables, a: SeatAction, k: Id)
    requires Inv(db) && k in SeatStep(db, a).db.memberships
    ensures var m := SeatStep(db, a).db.memberships[k];
            HadRole(db.memberships, k, m.role) || Grants(db, OnSeat(a), k, m)
  {
    assert Fresh(db);
    hide Inv, Grants, S.ChangeRole, S.RequestAccess, S.ApproveRequest;
    match a
    case ChangeRole(actor, id, role) => ChangeRoleGrants(db, actor, id, role, k);
    case RequestAccess(u, o) => RequestAccessGrants(db, u, o, k);
    case Approve(actor, r) => ApprovalGrants(db, actor, r, k);
    case _ => ActivationKeepsRoles(db, a); hide SeatStep;
  }

  lemma AcceptGrants(db: Tables, u: Id, i: Id, copy: Invitation, now: Time, k: Id)
    requires Fresh(db) && k in S.AcceptInvitation(db, u, i, copy, now).db.memberships
    ensures var m := S.AcceptInvitation(db, u, i, copy, now).db.memberships[k];
            HadRole(db.memberships, k, m.role) || Grants(db, OnInvite(Accept(u, i, copy, now)), k, m)
  {
    hide S.SaveMembership, S.AddMembership;
    if i in db.invitations {
      var row := db.invitations[i];
      var db1 := db.(invitations := db.invitations - {i});
      match FindMembership(db.memberships, row.org, u)
      case Some(j) =>
        var m := db.memberships[j].(role := row.role, deactivatedAt := None, via := ByInvitation);
        if k in S.SaveMembership(db1, j, m).db.memberships { SaveGrants(db1, j, m, k); }
      case None =>
        var m := Membership(row.org, u, row.role, None, ByInvitation);
        if k in S.AddMembership(db1, m).db.memberships { AddGrants(db1, m, k); }
    }
  }

  lemma InviteStepGrants(db: Tables, a: InviteAction, k: Id)
    requires Fresh(db) && k in InviteStep(db, a).db.memberships
    ensures var m := InviteStep(db, a).db.memberships[k];
            HadRole(db.memberships, k, m.role) || Grants(db, OnInvite(a), k, m)
  {
    match a
    case Accept(u, i, copy, now) => AcceptGrants(db, u, i, copy, now, k);
    case _ =>
  }

  lemma ReopeningGrants(db: Tables, id: Id, via: Via, k: Id)
    requires id in db.memberships && k in S.SaveMembership(db, id, db.memberships[id].(deactivatedAt := None, via := via)).db.memberships
    ensures HadRole(db.memberships, k, S.SaveMembership(db, id, db.memberships[id].(deactivatedAt := None, via := via)).db.memberships[k].role)
  {
    SaveGrants(db, id, db.memberships[id].(deactivatedAt := None, via := via), k);
    hide S.SaveMembership;
  }

  lemma SignInUserKeepsRoles(db: Tables, connection: SsoConnection, u: Id)
    requires u in db.users
    ensures KeepsRoles(db, S.SignInUser(db, connection, u).db)
  {
    hide ValidUpdate;
  }

  lemma SignInStrangerGrants(db: Tables, connection: SsoConnection, email: string, ok: bool, k: Id)
    requires Fresh(db) && k in S.SignInStranger(db, connection, email, ok).db.memberships
    ensures var m := S.SignInStranger(db, connection, email, ok).db.memberships[k];
            HadRole(db.memberships, k, m.role)
            || (k !in db.memberships && m.user !in db.users && m.org == connection.org && m.role == connection.defaultRole)
  {
    var m := Membership(connection.org, db.nextId, connection.defaultRole, None, BySso);
    if k in S.AddUserWithSeat(db, email, m).db.memberships { AddUserGrants(db, email, m, k); }
    hide S.AddUserWithSeat;
  }

  lemma SignOnGrants(db: Tables, c: Id, asserted: string, ok: bool, k: Id)
    requires Fresh(db) && k in S.SsoCallback(db, c, asserted, ok).db.memberships
    ensures var m := S.SsoCallback(db, c, asserted, ok).db.memberships[k];
            HadRole(db.memberships, k, m.role) || Grants(db, OnIdentity(SsoSignIn(c, asserted, ok)), k, m)
  {
    hide Fresh, S.SignInUser, S.SignInStranger, AssertsEmail, Canonical;
    if c in db.identity.connections {
      var (connection, email) := (db.identity.connections[c], Canonical(asserted));
      match FindUser(db.users, email)
      case Some(u) => SignInUserKeepsRoles(db, connection, u);
      case None =>
        if k in S.SignInStranger(db, connection, email, ok).db.memberships { SignInStrangerGrants(db, connection, email, ok, k); }
    }
  }

  lemma ScimCreateGrants(db: Tables, c: Id, userName: string, active: Option<bool>, ok: bool, now: Time, k: Id)
    requires Fresh(db) && k in S.ScimCreate(db, c, userName, active, ok, now).db.memberships
    ensures var m := S.ScimCreate(db, c, userName, active, ok, now).db.memberships[k];
            HadRole(db.memberships, k, m.role) || Grants(db, OnIdentity(ScimCreate(c, userName, active, ok, now)), k, m)
  {
    assert db.nextId !in db.users && db.nextId + 1 !in db.memberships;
    hide Fresh, S.SaveMembership, S.AddUserWithSeat, Canonical;
    if c in db.identity.scim {
      var (connection, email) := (db.identity.scim[c], Canonical(userName));
      match FindUser(db.users, email)
      case Some(u) =>
        var j := FindMembership(db.memberships, connection.org, u);
        if j.Some? {
          if k in S.SaveMembership(db, j.value, db.memberships[j.value].(deactivatedAt := None, via := ByScim)).db.memberships {
            ReopeningGrants(db, j.value, ByScim, k);
          }
        }
      case None =>
        var m := Membership(connection.org, db.nextId, connection.defaultRole, if active == Some(false) then Some(now) else None, ByScim);
        if k in S.AddUserWithSeat(db, email, m).db.memberships { AddUserGrants(db, email, m, k); }
    }
  }

  lemma OtherIdentityStepsKeepRoles(db: Tables, a: IdentityAction)
    requires !a.SsoSignIn? && !a.ScimCreate?
    ensures KeepsRoles(db, IdentityStep(db, a).db)
  {
    hide ValidUpdate;
  }

  lemma IdentityStepGrants(db: Tables, a: IdentityAction, k: Id)
    requires Fresh(db) && k in IdentityStep(db, a).db.memberships
    ensures var m := IdentityStep(db, a).db.memberships[k];
            HadRole(db.memberships, k, m.role) || Grants(db, OnIdentity(a), k, m)
  {
    hide Grants, S.SsoCallback, S.ScimCreate;
    match a
    case SsoSignIn(c, asserted, ok) => SignOnGrants(db, c, asserted, ok, k);
    case ScimCreate(c, userName, active, ok, now) => ScimCreateGrants(db, c, userName, active, ok, now, k);
    case _ => OtherIdentityStepsKeepRoles(db, a); hide IdentityStep;
  }

  /** Every step leaves a membership its role, or grants the one it has now. */
  lemma StepGrants(db: Tables, a: Action, k: Id)
    requires Inv(db) && k in Step(db, a).db.memberships
    ensures var m := Step(db, a).db.memberships[k];
            HadRole(db.memberships, k, m.role) || Grants(db, a, k, m)
  {
    assert Fresh(db);
    hide Inv, Grants, HadRole, AccountStep, OrganizationStep, SeatStep, InviteStep, IdentityStep;
    match a
    case OnAccount(b) => AccountStepKeepsRoles(db, b);
    case OnOrganization(b) => OrganizationStepGrants(db, b, k);
    case OnSeat(b) => SeatStepGrants(db, b, k);
    case OnInvite(b) => InviteStepGrants(db, b, k);
    case OnIdentity(b) => IdentityStepGrants(db, b, k);
  }

  // ---- Over a run

  /** The same user's row for the same organization, in the same role. */
  predicate SameRole(ms: map<Id, Membership>, k: Id, m: Membership) {
    k in ms && ms[k].user == m.user && ms[k].org == m.org && ms[k].role == m.role
  }

  /** Step `i` of the run grants row `k` the role it has in `m`. */
  ghost predicate GrantedAt(db: Tables, run: seq<Action>, i: nat, k: Id, m: Membership) {
    && i < |run|
    && var before := Run(db, run[..i]);
       var later := Step(before, run[i]).db.memberships;
       SameRole(later, k, m) && Grants(before, run[i], k, later[k])
  }

  lemma StepGrantsOrKeeps(db: Tables, a: Action, k: Id, m: Membership)
    requires Inv(db) && SameRole(Step(db, a).db.memberships, k, m)
    ensures SameRole(db.memberships, k, m) || Grants(db, a, k, Step(db, a).db.memberships[k])
  {
    StepGrants(db, a, k);
    StepEvolves(db, a);
    hide Inv, Step, Grants;
  }

  lemma {:induction false} RunGrants(db: Tables, run: seq<Action>, k: Id, m: Membership)
    requires Inv(db) && SameRole(Run(db, run).memberships, k, m)
    ensures SameRole(db.memberships, k, m) || exists i: nat :: GrantedAt(db, run, i, k, m)
    decreases run
  {
    hide Inv, Step, Grants, SameRole;
    if run != [] {
      var (db1, rest) := (Step(db, run[0]).db, run[1..]);
      StepKeepsInv(db, run[0]);
      RunGrants(db1, rest, k, m);
      if SameRole(db1.memberships, k, m) {
        StepGrantsOrKeeps(db, run[0], k, m);
        assert run[..0] == [];
        assert SameRole(db.memberships, k, m) || GrantedAt(db, run, 0, k, m);
      } else {
        var i: nat :| GrantedAt(db1, rest, i, k, m);
        assert run[..i + 1][1..] == rest[..i];
        assert GrantedAt(db, run, i + 1, k, m);
      }
    }
  }

  /** Nobody gets a role on their own say: after any run, behind the role of every membership
      stands a step that granted it, so behind every admin's the founding of the organization,
      a transfer by its owner, an admin's choice, or an invitation or provider default that
      names it. */
  lemma RoleWasGranted(run: seq<Action>, k: Id)
    requires k in Run(EMPTY, run).memberships
    ensures exists i: nat :: GrantedAt(EMPTY, run, i, k, Run(EMPTY, run).memberships[k])
  {
    hide Run, Step, Grants;
    RunGrants(EMPTY, run, k, Run(EMPTY, run).memberships[k]);
  }
}
