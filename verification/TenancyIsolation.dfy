/** Tenant isolation: a step changes nothing that belongs to an organization unless whoever
    takes it has a standing there. */
module TenancyIsolation {
  import opened Common
  import opened Tenancy
  import opened TenancyMachine
  import opened TenancyInvariants
  import opened TenancyRuns
  import opened TenancyGuarantees
  import opened TenancyStanding
  import S = TenancySteps

  // ---- Steps on seats

  lemma RequestsPutUntouched(db: Tables, rs: map<Id, JoinRequest>, next: Id, o: Id)
    requires o in db.orgs && RequestsKept(db.requests, rs, o)
    ensures Untouched(db, db.(requests := rs, nextId := next), o)
  {
    SameParts(db, o);
    hide ProvidersKept, RequestsKept;
  }

  lemma RequestPutKept(rs: map<Id, JoinRequest>, r: Id, row: JoinRequest, o: Id)
    requires row.org != o && (r in rs ==> rs[r].org != o)
    ensures RequestsKept(rs, rs[r := row], o)
  {
  }

  lemma RequestGoneKept(rs: map<Id, JoinRequest>, r: Id, o: Id)
    requires r in rs ==> rs[r].org != o
    ensures RequestsKept(rs, rs - {r}, o)
  {
  }

  lemma RequestAccessUntouched(db: Tables, u: Id, p: Id, o: Id)
    requires Fresh(db) && o in db.orgs && !SeatReaches(db, RequestAccess(u, p), o)
    ensures Untouched(db, S.RequestAccess(db, u, p).db, o)
  {
    assert db.nextId !in db.requests && db.nextId !in db.memberships;
    SameUntouched(db, db, o);
    hide Fresh, Untouched, S.Admit, S.Participant, S.Requested;
    if p != o {
      AdmitUntouched(db, p, u, o);
      RequestPutKept(db.requests, db.nextId, JoinRequest(p, u, false, None), o);
      RequestsPutUntouched(db, db.requests[db.nextId := JoinRequest(p, u, false, None)], db.nextId + 1, o);
    }
  }

  lemma ApproveUntouched(db: Tables, actor: Id, r: Id, o: Id)
    requires Fresh(db) && o in db.orgs && !AdminOf(db, actor, o)
    ensures Untouched(db, S.ApproveRequest(db, actor, r).db, o)
  {
    assert db.nextId !in db.memberships;
    SameUntouched(db, db, o);
    ActsElsewhere(db, actor, o);
    hide Fresh, Untouched, AdminOf, S.Admit;
    if S.MayDecide(db, actor, r) {
      var row := db.requests[r].(approved := true, completedBy := Some(db.memberships[actor].user));
      var db1 := db.(requests := db.requests[r := row]);
      RequestPutKept(db.requests, r, row, o);
      RequestsPutUntouched(db, db.requests[r := row], db.nextId, o);
      AdmitUntouched(db1, row.org, row.user, o);
      UntouchedTwice(db, db1, S.Admit(db1, row.org, row.user).db, o);
    }
  }

  lemma SettleRequestUntouched(db: Tables, r: Id, o: Id)
    requires o in db.orgs && (r in db.requests ==> db.requests[r].org != o)
    ensures Untouched(db, db.(requests := db.requests - {r}), o)
  {
    RequestGoneKept(db.requests, r, o);
    RequestsPutUntouched(db, db.requests - {r}, db.nextId, o);
  }

  lemma ManagedUntouched(db: Tables, a: SeatAction, o: Id)
    requires o in db.orgs && (a.ChangeRole? || a.Deactivate? || a.Reactivate?) && !SeatReaches(db, a, o)
    ensures Untouched(db, SeatStep(db, a).db, o)
  {
    SameUntouched(db, db, o);
    ActsElsewhere(db, a.actor, o);
    hide Untouched, S.SaveMembership;
    if a.membership in db.memberships && db.memberships[a.membership].org != o {
      var m := db.memberships[a.membership];
      if a.ChangeRole? { SaveUntouched(db, a.membership, m.(role := a.role), o); }
      if a.Deactivate? { SaveUntouched(db, a.membership, m.(deactivatedAt := Some(a.now)), o); }
      SaveUntouched(db, a.membership, m.(deactivatedAt := None), o);
    }
  }

  lemma SeatStepUntouched(db: Tables, a: SeatAction, o: Id)
    requires Inv(db) && o in db.orgs && !SeatReaches(db, a, o)
    ensures Untouched(db, SeatStep(db, a).db, o)
  {
    assert Fresh(db);
    SameUntouched(db, db, o);
    hide Inv, Fresh, Untouched, S.RequestAccess, S.ApproveRequest;
    match a
    case RequestAccess(u, p) => RequestAccessUntouched(db, u, p, o);
    case Approve(actor, r) => ApproveUntouched(db, actor, r, o);
    case CancelRequest(u, r) => if S.CancelRequest(db, u, r).reply == S.Done { SettleRequestUntouched(db, r, o); }
    case Reject(actor, r) =>
      ActsElsewhere(db, actor, o);
      if S.MayDecide(db, actor, r) { SettleRequestUntouched(db, r, o); }
    case _ => hide SeatStep, SeatReaches; ManagedUntouched(db, a, o);
  }

  // ---- Steps on invitations

  lemma InvitationsPutUntouched(db: Tables, invs: map<Id, Invitation>, o: Id)
    requires o in db.orgs && InvitationsKept(db.invitations, invs, o)
    ensures Untouched(db, db.(invitations := invs), o)
  {
    SameParts(db, o);
    hide ProvidersKept, InvitationsKept;
  }

  lemma InvitationGoneKept(invs: map<Id, Invitation>, i: Id, o: Id)
    requires i in invs ==> invs[i].org != o
    ensures InvitationsKept(invs, invs - {i}, o)
  {
  }

  lemma WithdrawUntouched(db: Tables, i: Id, o: Id)
    requires o in db.orgs && (i in db.invitations ==> db.invitations[i].org != o)
    ensures Untouched(db, db.(invitations := db.invitations - {i}), o)
  {
    InvitationGoneKept(db.invitations, i, o);
    InvitationsPutUntouched(db, db.invitations - {i}, o);
  }

  lemma RedeemUntouched(db: Tables, u: Id, i: Id, o: Id)
    requires Fresh(db) && o in db.orgs && i in db.invitations && db.invitations[i].org != o
    ensures Untouched(db, S.Redeem(db, u, i).db, o)
  {
    assert db.nextId !in db.memberships;
    SameUntouched(db, db, o);
    hide Fresh, Untouched, S.SaveMembership, S.AddMembership;
    var row, db1 := db.invitations[i], db.(invitations := db.invitations - {i});
    WithdrawUntouched(db, i, o);
    match FindMembership(db.memberships, row.org, u)
    case Some(k) =>
      var m := db.memberships[k].(role := row.role, deactivatedAt := None, via := ByInvitation);
      SaveUntouched(db1, k, m, o);
      UntouchedTwice(db, db1, S.SaveMembership(db1, k, m).db, o);
    case None =>
      AddUntouched(db1, Membership(row.org, u, row.role, None, ByInvitation), o);
      UntouchedTwice(db, db1, S.AddMembership(db1, Membership(row.org, u, row.role, None, ByInvitation)).db, o);
  }

  lemma InviteUntouched(db: Tables, actor: Id, email: string, role: Role, ok: bool, now: Time, o: Id)
    requires Fresh(db) && o in db.orgs && !AdminOf(db, actor, o)
    ensures Untouched(db, S.Invite(db, actor, email, role, ok, now).db, o)
  {
    assert db.nextId !in db.invitations;
    SameUntouched(db, db, o);
    ActsElsewhere(db, actor, o);
    hide Fresh, Untouched, AdminOf, S.AddInvitation;
    if ActingAdmin(db, actor) {
      AddInvitationUntouched(db, db.memberships[actor].org, Canonical(email), role, Some(db.memberships[actor].user), now, o);
    }
  }

  lemma ResendUntouched(db: Tables, actor: Id, i: Id, copy: Invitation, now: Time, o: Id)
    requires o in db.orgs && !AdminOf(db, actor, o) && (i in db.invitations ==> copy.org == db.invitations[i].org)
    ensures Untouched(db, S.ResendInvitation(db, actor, i, copy, now).db, o)
  {
    var later := S.ResendInvitation(db, actor, i, copy, now).db;
    ActsElsewhere(db, actor, o);
    hide AdminOf;
    assert InvitationsKept(db.invitations, later.invitations, o);
    hide Untouched, InvitationsKept;
    InvitationsPutUntouched(db, later.invitations, o);
  }

  lemma PurgeInvitationsUntouched(db: Tables, now: Time, o: Id)
    requires o in db.orgs && !InviteReaches(db, PurgeInvitations(now), o)
    ensures Untouched(db, S.PurgeInvitations(db, now).db, o)
  {
    var later := S.PurgeInvitations(db, now).db;
    assert InvitationsKept(db.invitations, later.invitations, o);
    hide Untouched, InvitationsKept;
    InvitationsPutUntouched(db, later.invitations, o);
  }

  lemma SettlingUntouched(db: Tables, a: InviteAction, o: Id)
    requires Fresh(db) && o in db.orgs && (a.Accept? || a.Decline? || a.Revoke?) && !InviteReaches(db, a, o) && TrueCopy(db, OnInvite(a))
    ensures Untouched(db, InviteStep(db, a).db, o)
  {
    SameUntouched(db, db, o);
    if a.Revoke? { ActsElsewhere(db, a.actor, o); }
    hide Fresh, Untouched, AdminOf, ActingAdmin, S.Redeem;
    if a.invitation in db.invitations && db.invitations[a.invitation].org != o {
      WithdrawUntouched(db, a.invitation, o);
      if a.Accept? { RedeemUntouched(db, a.user, a.invitation, o); }
    }
  }

  lemma InviteStepUntouched(db: Tables, a: InviteAction, o: Id)
    requires Inv(db) && o in db.orgs && !InviteReaches(db, a, o) && TrueCopy(db, OnInvite(a))
    ensures Untouched(db, InviteStep(db, a).db, o)
  {
    assert Fresh(db);
    hide Inv, Fresh, Untouched, S.Invite, S.ResendInvitation, S.PurgeInvitations;
    hide S.AcceptInvitation, S.DeclineInvitation, S.RevokeInvitation;
    match a
    case Invite(actor, email, role, ok, now) => InviteUntouched(db, actor, email, role, ok, now, o);
    case Resend(actor, i, copy, now) => ResendUntouched(db, actor, i, copy, now, o);
    case PurgeInvitations(now) => PurgeInvitationsUntouched(db, now, o);
    case _ => hide InviteStep, InviteReaches, TrueCopy; SettlingUntouched(db, a, o);
  }

  // ---- Steps on identity providers

  lemma IdentityPutUntouched(db: Tables, identity: Identity, next: Id, o: Id)
    requires o in db.orgs && ProvidersKept(db.identity, identity, o)
    ensures Untouched(db, db.(identity := identity, nextId := next), o)
  {
    hide ProvidersKept;
  }

  lemma ConnectionPutKept(i: Identity, c: Id, row: SsoConnection, o: Id)
    requires row.org != o && (c in i.connections ==> i.connections[c].org != o)
    ensures ProvidersKept(i, i.(connections := i.connections[c := row]), o)
  {
  }

  lemma DomainPutKept(i: Identity, d: Id, row: SsoDomain, o: Id)
    requires row.connection in i.connections ==> i.connections[row.connection].org != o
    requires !DomainOf(i, d, o)
    ensures ProvidersKept(i, i.(domains := i.domains[d := row]), o) && ProvidersKept(i, i.(domains := i.domains - {d}), o)
  {
  }

  lemma ScimPutKept(i: Identity, c: Id, row: ScimConnection, o: Id)
    requires row.org != o && (c in i.scim ==> i.scim[c].org != o)
    ensures ProvidersKept(i, i.(scim := i.scim[c := row]), o)
  {
  }

  lemma SaveConnectionUntouched(db: Tables, actor: Id, settings: SsoConnection, ok: bool, o: Id)
    requires Fresh(db) && o in db.orgs && !AdminOf(db, actor, o)
    ensures Untouched(db, S.SaveConnection(db, actor, settings, ok).db, o)
  {
    assert db.nextId !in db.identity.connections;
    SameUntouched(db, db, o);
    ActsElsewhere(db, actor, o);
    hide Fresh, Untouched, AdminOf, ProvidersKept;
    if ActingAdmin(db, actor) {
      var row := settings.(org := db.memberships[actor].org);
      var current := S.SsoOf(db, row.org);
      var id := if current.Some? then current.value else db.nextId;
      ConnectionPutKept(db.identity, id, row, o);
      IdentityPutUntouched(db, db.identity.(connections := db.identity.connections[id := row]),
                           if current.Some? then db.nextId else db.nextId + 1, o);
    }
  }

  lemma AddDomainUntouched(db: Tables, actor: Id, domain: string, ok: bool, o: Id)
    requires Fresh(db) && o in db.orgs && !AdminOf(db, actor, o)
    ensures Untouched(db, S.AddDomain(db, actor, domain, ok).db, o)
  {
    assert db.nextId !in db.identity.domains;
    SameUntouched(db, db, o);
    ActsElsewhere(db, actor, o);
    hide Fresh, Untouched, AdminOf, ProvidersKept;
    if ActingAdmin(db, actor) && S.SsoOf(db, db.memberships[actor].org).Some? {
      var row := SsoDomain(S.SsoOf(db, db.memberships[actor].org).value, domain, None);
      DomainPutKept(db.identity, db.nextId, row, o);
      IdentityPutUntouched(db, db.identity.(domains := db.identity.domains[db.nextId := row]), db.nextId + 1, o);
    }
  }

  lemma DomainStepUntouched(db: Tables, actor: Id, d: Id, published: bool, now: Time, o: Id)
    requires o in db.orgs && !AdminOf(db, actor, o)
    ensures Untouched(db, S.VerifyDomain(db, actor, d, published, now).db, o) && Untouched(db, S.DestroyDomain(db, actor, d).db, o)
  {
    SameUntouched(db, db, o);
    ActsElsewhere(db, actor, o);
    hide Untouched, AdminOf, ProvidersKept, S.ClaimedElsewhere;
    if S.ManagesDomain(db, actor, d) {
      DomainPutKept(db.identity, d, db.identity.domains[d].(verifiedAt := Some(now)), o);
      IdentityPutUntouched(db, db.identity.(domains := db.identity.domains[d := db.identity.domains[d].(verifiedAt := Some(now))]), db.nextId, o);
      IdentityPutUntouched(db, db.identity.(domains := db.identity.domains - {d}), db.nextId, o);
    }
  }

  lemma SaveScimUntouched(db: Tables, actor: Id, enabled: bool, role: Role, o: Id)
    requires Fresh(db) && o in db.orgs && !AdminOf(db, actor, o)
    ensures Untouched(db, S.SaveScim(db, actor, enabled, role).db, o)
  {
    assert db.nextId !in db.identity.scim;
    SameUntouched(db, db, o);
    ActsElsewhere(db, actor, o);
    hide Fresh, Untouched, AdminOf, ProvidersKept;
    if ActingAdmin(db, actor) {
      var p := db.memberships[actor].org;
      var current := S.OfOrganization(db.identity.scim, (c: ScimConnection) => c.org, p);
      var id := if current.Some? then current.value else db.nextId;
      ScimPutKept(db.identity, id, ScimConnection(p, enabled, role), o);
      IdentityPutUntouched(db, db.identity.(scim := db.identity.scim[id := ScimConnection(p, enabled, role)]),
                           if current.Some? then db.nextId else db.nextId + 1, o);
    }
  }

  lemma ProvidersGoneKept(i: Identity, p: Id, o: Id)
    requires p != o
    ensures ProvidersKept(i, i.(scim := S.ScimOutside(i.scim, {p})), o)
    ensures ProvidersKept(i, S.DropConnections(i, {p}).(scim := i.scim), o)
  {
  }

  lemma ProvidersGoneUntouched(db: Tables, actor: Id, o: Id)
    requires o in db.orgs && !AdminOf(db, actor, o)
    ensures Untouched(db, S.DestroyScim(db, actor).db, o) && Untouched(db, S.DestroyConnection(db, actor).db, o)
  {
    SameUntouched(db, db, o);
    ActsElsewhere(db, actor, o);
    hide Untouched, AdminOf, ProvidersKept, S.DropConnections, S.ScimOutside;
    if ActingAdmin(db, actor) {
      var p := db.memberships[actor].org;
      ProvidersGoneKept(db.identity, p, o);
      IdentityPutUntouched(db, db.identity.(scim := S.ScimOutside(db.identity.scim, {p})), db.nextId, o);
      IdentityPutUntouched(db, S.DropConnections(db.identity, {p}).(scim := db.identity.scim), db.nextId, o);
    }
  }

  lemma SignOnUntouched(db: Tables, c: Id, asserted: string, ok: bool, o: Id)
    requires Fresh(db) && o in db.orgs && !IdentityReaches(db, SsoSignIn(c, asserted, ok), o)
    ensures Untouched(db, S.SsoCallback(db, c, asserted, ok).db, o)
  {
    assert db.nextId + 1 !in db.memberships;
    SameUntouched(db, db, o);
    hide Fresh, Untouched, S.SaveMembership, S.AddUserWithSeat, AssertsEmail, Canonical;
    if c in db.identity.connections && db.identity.connections[c].enabled {
      var (connection, email) := (db.identity.connections[c], Canonical(asserted));
      match FindUser(db.users, email)
      case Some(u) =>
        var k := FindMembership(db.memberships, connection.org, u);
        if k.Some? { SaveUntouched(db, k.value, db.memberships[k.value].(deactivatedAt := None, via := BySso), o); }
      case None => AddUserUntouched(db, email, Membership(connection.org, db.nextId, connection.defaultRole, None, BySso), o);
    }
  }

  lemma ScimCreateUntouched(db: Tables, c: Id, userName: string, active: Option<bool>, ok: bool, now: Time, o: Id)
    requires Fresh(db) && o in db.orgs && !IdentityReaches(db, ScimCreate(c, userName, active, ok, now), o)
    ensures Untouched(db, S.ScimCreate(db, c, userName, active, ok, now).db, o)
  {
    assert db.nextId + 1 !in db.memberships && db.nextId !in db.invitations;
    SameUntouched(db, db, o);
    hide Fresh, Untouched, S.SaveMembership, S.AddUserWithSeat, S.AddInvitation, S.AddressIsPending, Canonical;
    if c in db.identity.scim && db.identity.scim[c].enabled {
      var (connection, email) := (db.identity.scim[c], Canonical(userName));
      match FindUser(db.users, email)
      case Some(u) =>
        var k := FindMembership(db.memberships, connection.org, u);
        AddInvitationUntouched(db, connection.org, email, connection.defaultRole, None, now, o);
        if k.Some? { SaveUntouched(db, k.value, db.memberships[k.value].(deactivatedAt := None, via := ByScim), o); }
      case None =>
        var deactivatedAt := if active == Some(false) then Some(now) else None;
        AddUserUntouched(db, email, Membership(connection.org, db.nextId, connection.defaultRole, deactivatedAt, ByScim), o);
    }
  }

  lemma ScimUpdateUntouched(db: Tables, c: Id, id: Id, active: Option<bool>, now: Time, o: Id)
    requires o in db.orgs && !IdentityReaches(db, ScimUpdate(c, id, active, now), o)
    ensures Untouched(db, S.ScimUpdate(db, c, id, active, now).db, o)
  {
    SameUntouched(db, db, o);
    hide Untouched, S.SaveMembership;
    if id in db.memberships && db.memberships[id].org != o {
      SaveUntouched(db, id, db.memberships[id], o);
      SaveUntouched(db, id, db.memberships[id].(deactivatedAt := None), o);
      SaveUntouched(db, id, db.memberships[id].(deactivatedAt := Some(now)), o);
    }
  }

  lemma ScimDestroyUntouched(db: Tables, c: Id, id: Id, now: Time, o: Id)
    requires o in db.orgs && !IdentityReaches(db, ScimDestroy(c, id, now), o)
    ensures Untouched(db, S.ScimDestroy(db, c, id, now).db, o)
  {
    SameUntouched(db, db, o);
    hide Untouched, S.SaveMembership;
    if id in db.memberships && db.memberships[id].org != o {
      SaveUntouched(db, id, db.memberships[id].(deactivatedAt := Some(now)), o);
    }
  }

  lemma ProviderStepUntouched(db: Tables, a: IdentityAction, o: Id)
    requires Fresh(db) && o in db.orgs && !IdentityReaches(db, a, o)
    requires a.SaveConnection? || a.DestroyConnection? || a.AddDomain? || a.VerifyDomain? || a.DestroyDomain? || a.SaveScim? || a.DestroyScim?
    ensures Untouched(db, IdentityStep(db, a).db, o)
  {
    hide Fresh, Untouched, AdminOf;
    hide S.SaveConnection, S.DestroyConnection, S.AddDomain, S.VerifyDomain, S.DestroyDomain, S.SaveScim, S.DestroyScim;
    match a
    case SaveConnection(actor, settings, ok) => SaveConnectionUntouched(db, actor, settings, ok, o);
    case DestroyConnection(actor) => ProvidersGoneUntouched(db, actor, o);
    case AddDomain(actor, domain, ok) => AddDomainUntouched(db, actor, domain, ok, o);
    case VerifyDomain(actor, d, published, now) => DomainStepUntouched(db, actor, d, published, now, o);
    case DestroyDomain(actor, d) => DomainStepUntouched(db, actor, d, false, 0, o);
    case SaveScim(actor, enabled, role) => SaveScimUntouched(db, actor, enabled, role, o);
    case DestroyScim(actor) => ProvidersGoneUntouched(db, actor, o);
  }

  lemma ProvisioningStepUntouched(db: Tables, a: IdentityAction, o: Id)
    requires Fresh(db) && o in db.orgs && (a.SsoSignIn? || a.ScimCreate?) && !IdentityReaches(db, a, o)
    ensures Untouched(db, IdentityStep(db, a).db, o)
  {
    hide Fresh, Untouched, IdentityReaches, S.SsoCallback, S.ScimCreate;
    match a
    case SsoSignIn(c, asserted, ok) => SignOnUntouched(db, c, asserted, ok, o);
    case ScimCreate(c, userName, active, ok, now) => ScimCreateUntouched(db, c, userName, active, ok, now, o);
  }

  lemma DeprovisioningStepUntouched(db: Tables, a: IdentityAction, o: Id)
    requires o in db.orgs && (a.ScimUpdate? || a.ScimDestroy?) && !IdentityReaches(db, a, o)
    ensures Untouched(db, IdentityStep(db, a).db, o)
  {
    hide Untouched, IdentityReaches, S.ScimUpdate, S.ScimDestroy;
    match a
    case ScimUpdate(c, m, active, now) => ScimUpdateUntouched(db, c, m, active, now, o);
    case ScimDestroy(c, m, now) => ScimDestroyUntouched(db, c, m, now, o);
  }

  lemma IdentityStepUntouched(db: Tables, a: IdentityAction, o: Id)
    requires Inv(db) && o in db.orgs && !IdentityReaches(db, a, o)
    ensures Untouched(db, IdentityStep(db, a).db, o)
  {
    assert Fresh(db);
    hide Inv, Fresh, Untouched, IdentityReaches, IdentityStep;
    if a.SsoSignIn? || a.ScimCreate? {
      ProvisioningStepUntouched(db, a, o);
    } else if a.ScimUpdate? || a.ScimDestroy? {
      DeprovisioningStepUntouched(db, a, o);
    } else {
      ProviderStepUntouched(db, a, o);
    }
  }

  // ---- Isolation

  /** A step whose actor has no standing in an organization leaves every row of it as it was. */
  lemma NobodyReachesAcross(db: Tables, a: Action, o: Id)
    requires Inv(db) && o in db.orgs && !Reaches(db, a, o) && TrueCopy(db, a)
    ensures Untouched(db, Step(db, a).db, o)
  {
    hide Inv, Untouched, AccountStep, OrganizationStep, SeatStep, InviteStep, IdentityStep;
    hide AccountReaches, OrganizationReaches, SeatReaches, InviteReaches, IdentityReaches;
    match a
    case OnAccount(b) => AccountStepUntouched(db, b, o);
    case OnOrganization(b) => OrganizationStepUntouched(db, b, o);
    case OnSeat(b) => SeatStepUntouched(db, b, o);
    case OnInvite(b) => hide TrueCopy; InviteStepUntouched(db, b, o);
    case OnIdentity(b) => IdentityStepUntouched(db, b, o);
  }

  /** No step of the run reaches `o`. */
  ghost predicate LeftAlone(db: Tables, run: seq<Action>, o: Id)
    decreases run
  {
    run == [] || (!Reaches(db, run[0], o) && TrueCopy(db, run[0]) && LeftAlone(Step(db, run[0]).db, run[1..], o))
  }

  /** Nor does a whole run of such steps, however long. */
  lemma {:induction false} IsolationOverRuns(db: Tables, run: seq<Action>, o: Id)
    requires Inv(db) && o in db.orgs && LeftAlone(db, run, o)
    ensures Untouched(db, Run(db, run), o)
    decreases run
  {
    if run == [] {
      SameUntouched(db, db, o);
    } else {
      hide Inv, Step, Reaches, TrueCopy, Untouched;
      var db1 := Step(db, run[0]).db;
      NobodyReachesAcross(db, run[0], o);
      UntouchedRow(db, db1, o);
      StepKeepsInv(db, run[0]);
      IsolationOverRuns(db1, run[1..], o);
      UntouchedTwice(db, db1, Run(db1, run[1..]), o);
    }
  }
}
