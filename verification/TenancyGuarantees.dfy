/** The promises of the tenancy machine, each stated for every state a run can reach. */
module TenancyGuarantees {
  import opened Common
  import opened Tenancy
  import opened TenancyMachine
  import opened TenancyInvariants
  import opened TenancyRuns
  import S = TenancySteps

  lemma Reachable(run: seq<Action>)
    ensures Inv(Run(EMPTY, run))
  {
    RunKeepsInv(EMPTY, run);
  }

  // ---- The owner's seat

  /** After any run, an organization's owner has exactly one membership in it, active and admin. */
  lemma OwnerHoldsOneSeat(run: seq<Action>, o: Id)
    requires o in Run(EMPTY, run).orgs
    ensures var db := Run(EMPTY, run);
            exists k :: OnlySeat(db.memberships, k, o, db.orgs[o].owner) && ActiveAdmin(db.memberships[k])
  {
    Reachable(run);
    var db := Run(EMPTY, run);
    var k :| OwnerRow(db.memberships, k, o, db.orgs[o].owner);
    BelongsAlone(db.memberships, k, o, db.orgs[o].owner);
  }

  /** The owner is another active admin to everyone else, so nobody else is ever the sole one. */
  lemma NonOwnerIsNeverSole(db: Tables, id: Option<Id>, was: Role, m: Membership)
    requires Inv(db) && m.org in db.orgs && !OwnedBy(db.orgs, m)
    requires id.Some? ==> id.value in db.memberships && db.memberships[id.value].org == m.org && db.memberships[id.value].user == m.user
    ensures UndeactivatableReasons(db, id, was, m) == {}
  {
    var k: Id :| OwnerRow(db.memberships, k, m.org, db.orgs[m.org].owner);
    assert id != Some(k);
  }

  /** After any run every seat but the owner's can be given up. */
  lemma OtherSeatsAreSpare(run: seq<Action>, id: Id)
    requires id in Run(EMPTY, run).memberships && !OwnedBy(Run(EMPTY, run).orgs, Run(EMPTY, run).memberships[id])
    ensures var db := Run(EMPTY, run); UndeactivatableReasons(db, Some(id), db.memberships[id].role, db.memberships[id]) == {}
  {
    Reachable(run);
    var db := Run(EMPTY, run);
    hide Step, Run;
    NonOwnerIsNeverSole(db, Some(id), db.memberships[id].role, db.memberships[id]);
  }

  /** The row saved, and nothing else. */
  ghost predicate Wrote(db: Tables, r: S.Outcome, id: Id, m: Membership) {
    r == S.Outcome(db.(memberships := db.memberships[id := m]), S.Done)
  }

  /** Whoever asks, a save of the owner's row goes through exactly when it leaves the owner
      an active admin; one that deactivates or demotes it writes nothing. */
  lemma OwnerIsUndeactivatable(db: Tables, id: Id, m: Membership)
    requires Inv(db) && id in db.memberships && OwnedBy(db.orgs, db.memberships[id])
    requires m.org == db.memberships[id].org && m.user == db.memberships[id].user
    ensures var r := S.SaveMembership(db, id, m); if ActiveAdmin(m) then Wrote(db, r, id, m) else r == S.Outcome(db, S.Invalid)
  {
    OwnerSits(db, id);
    if ActiveAdmin(m) {
      StaysUnclaimed(db.memberships, id, m);
    } else {
      hide Inv;
      if ValidUpdate(db, id, m) { OwnerStaysAdmin(db, id, m); }
    }
  }

  lemma OwnerSits(db: Tables, id: Id)
    requires Inv(db) && id in db.memberships && OwnedBy(db.orgs, db.memberships[id])
    ensures ActiveAdmin(db.memberships[id])
  {
    var o := db.memberships[id].org;
    var k :| OwnerRow(db.memberships, k, o, db.orgs[o].owner);
  }

  /** Seat `k` is active, in organization `o`, which is not soft-deleted. */
  predicate MemberOf(db: Tables, k: Id, o: Id) {
    && k in db.memberships && db.memberships[k].org == o && db.memberships[k].deactivatedAt == None
    && o in db.orgs && db.orgs[o].deletedAt == None
  }

  predicate AdminOf(db: Tables, k: Id, o: Id) {
    MemberOf(db, k, o) && db.memberships[k].role == Admin
  }

  lemma UpdatePolicy(db: Tables, actor: Id, id: Id)
    requires MembersRefer(db.memberships, db.orgs, db.users)
    ensures MayUpdate(db, actor, id) <==>
            id in db.memberships && AdminOf(db, actor, db.memberships[id].org)
            && db.orgs[db.memberships[id].org].owner != db.memberships[id].user
  {
  }

  lemma DeactivationPolicy(db: Tables, actor: Id, id: Id)
    requires MembersRefer(db.memberships, db.orgs, db.users) && UniqueMembers(db.memberships)
    ensures MayDeactivate(db, actor, id) <==>
            && id in db.memberships && MemberOf(db, actor, db.memberships[id].org)
            && db.orgs[db.memberships[id].org].owner != db.memberships[id].user
            && (id == actor || (db.memberships[actor].role == Admin && db.memberships[id].deactivatedAt == None))
  {
  }

  lemma ReactivationPolicy(db: Tables, actor: Id, id: Id)
    requires MembersRefer(db.memberships, db.orgs, db.users)
    ensures MayReactivate(db, actor, id) <==>
            && id in db.memberships && AdminOf(db, actor, db.memberships[id].org)
            && db.memberships[id].deactivatedAt != None && db.users[db.memberships[id].user].redactedAt == None
  {
  }

  /** Whatever the policy allows passes the validations; what it refuses is not written. */
  lemma AllowedRoleChangeSaves(db: Tables, actor: Id, id: Id, role: Role)
    requires Inv(db)
    ensures var r := S.ChangeRole(db, actor, id, role);
            if id in db.memberships && AdminOf(db, actor, db.memberships[id].org)
               && db.orgs[db.memberships[id].org].owner != db.memberships[id].user
            then Wrote(db, r, id, db.memberships[id].(role := role)) else r == S.Outcome(db, S.NotAllowed)
  {
    UpdatePolicy(db, actor, id);
    hide AdminOf;
    if MayUpdate(db, actor, id) {
      NonOwnerIsNeverSole(db, Some(id), db.memberships[id].role, db.memberships[id].(role := role));
      StaysUnclaimed(db.memberships, id, db.memberships[id].(role := role));
    }
  }

  lemma AllowedDeactivationSaves(db: Tables, actor: Id, id: Id, now: Time)
    requires Inv(db)
    ensures var r := S.Deactivate(db, actor, id, now);
            if id in db.memberships && MemberOf(db, actor, db.memberships[id].org)
               && db.orgs[db.memberships[id].org].owner != db.memberships[id].user
               && (id == actor || (db.memberships[actor].role == Admin && db.memberships[id].deactivatedAt == None))
            then Wrote(db, r, id, db.memberships[id].(deactivatedAt := Some(now)))
            else r == S.Outcome(db, S.NotAllowed)
  {
    DeactivationPolicy(db, actor, id);
    hide MemberOf;
    if MayDeactivate(db, actor, id) {
      var m := db.memberships[id].(deactivatedAt := Some(now));
      NonOwnerIsNeverSole(db, Some(id), m.role, m);
      StaysUnclaimed(db.memberships, id, m);
    }
  }

  lemma AllowedReactivationSaves(db: Tables, actor: Id, id: Id)
    requires Inv(db)
    ensures var r := S.Reactivate(db, actor, id);
            if id in db.memberships && AdminOf(db, actor, db.memberships[id].org) && db.memberships[id].deactivatedAt != None
               && db.users[db.memberships[id].user].redactedAt == None
            then Wrote(db, r, id, db.memberships[id].(deactivatedAt := None))
            else r == S.Outcome(db, S.NotAllowed)
  {
    ReactivationPolicy(db, actor, id);
    hide AdminOf;
    if MayReactivate(db, actor, id) {
      StaysUnclaimed(db.memberships, id, db.memberships[id].(deactivatedAt := None));
    }
  }

  /** Everyone but the owner may leave, at any time. */
  lemma MemberMayLeave(db: Tables, actor: Id, now: Time)
    requires Inv(db) && Acting(db, actor) && !OwnedBy(db.orgs, db.memberships[actor])
    ensures Wrote(db, S.Deactivate(db, actor, actor, now), actor, db.memberships[actor].(deactivatedAt := Some(now)))
  {
    AllowedDeactivationSaves(db, actor, actor, now);
  }

  /** Nobody but an admin of the organization changes another seat in it, and nobody
      at all changes the owner's. */
  lemma OnlyAdminsManageOthers(db: Tables, actor: Id, id: Id, role: Role, now: Time)
    requires Inv(db) && id in db.memberships
    requires OwnedBy(db.orgs, db.memberships[id]) || (actor != id && !AdminOf(db, actor, db.memberships[id].org))
    ensures S.ChangeRole(db, actor, id, role).db == db && S.Deactivate(db, actor, id, now).db == db && S.Reactivate(db, actor, id).db == db
  {
    UpdatePolicy(db, actor, id);
    DeactivationPolicy(db, actor, id);
    ReactivationPolicy(db, actor, id);
    if OwnedBy(db.orgs, db.memberships[id]) {
      OwnerSits(db, id);
    }
    hide Inv, MayUpdate, MayDeactivate, MayReactivate, S.SaveMembership;
  }

  lemma StaysUnclaimed(ms: map<Id, Membership>, id: Id, m: Membership)
    requires UniqueMembers(ms) && id in ms && m.org == ms[id].org && m.user == ms[id].user
    ensures Unclaimed(ms, Some(id), m)
  {
  }

  // ---- Invitations

  lemma DeactivatedIsNotOwner(db: Tables, k: Id)
    requires Inv(db) && k in db.memberships && !Active(db.memberships[k])
    ensures !OwnedBy(db.orgs, db.memberships[k])
  {
  }

  /** A former member may come back in any role, unless the account was redacted. */
  lemma ReentryIsValid(db: Tables, k: Id, m: Membership)
    requires Inv(db) && k in db.memberships && !Active(db.memberships[k]) && Active(m)
    requires m.org == db.memberships[k].org && m.user == db.memberships[k].user
    ensures m.user in db.users && (ValidUpdate(db, k, m) <==> !Redacted(db.users[m.user]))
  {
    DeactivatedIsNotOwner(db, k);
    NonOwnerIsNeverSole(db, Some(k), db.memberships[k].role, m);
    StaysUnclaimed(db.memberships, k, m);
    assert UndeactivatableReasons(db, Some(k), db.memberships[k].role, m) == {};
  }

  /** `u` is signed in and bears the address of the invitation, both as the caller loaded
      it and as it stands, and neither is past its time. */
  predicate Invited(db: Tables, u: Id, i: Id, copy: Invitation, now: Time) {
    && SignedIn(db, u) && i in db.invitations
    && db.users[u].email == copy.email == db.invitations[i].email && now <= copy.expiresAt && now <= db.invitations[i].expiresAt
  }

  /** Accepting commits exactly when the locked row still stands, the address
      matches, and the invitee has no active seat yet. */
  lemma AcceptCommitsIff(db: Tables, u: Id, i: Id, copy: Invitation, now: Time)
    requires Inv(db)
    ensures S.AcceptInvitation(db, u, i, copy, now).reply == S.Done <==>
            && Invited(db, u, i, copy, now) && db.invitations[i].org in db.orgs
            && forall k :: Belongs(db.memberships, k, db.invitations[i].org, u) ==> db.memberships[k].deactivatedAt != None
  {
    assert Invited(db, u, i, copy, now) <==> S.InviteeOf(db, u, copy, now) && S.Transitionable(db, u, i, now);
    hide Invited, S.InviteeOf, S.Transitionable;
    if S.InviteeOf(db, u, copy, now) && S.Transitionable(db, u, i, now) {
      var row := db.invitations[i];
      var db1 := db.(invitations := db.invitations - {i});
      FewerInvitationsKeepInv(db, db1.invitations);
      match FindMembership(db.memberships, row.org, u)
      case None =>
      case Some(k) =>
        if !Active(db.memberships[k]) {
          ReentryIsValid(db1, k, db.memberships[k].(role := row.role, deactivatedAt := None, via := ByInvitation));
        }
        hide Inv, ValidUpdate;
    }
  }

  /** The invitation is used up, and one membership is written; nothing else differs. */
  ghost predicate Redeemed(db: Tables, later: Tables, i: Id, k: Id) {
    && later == db.(invitations := db.invitations - {i}, memberships := later.memberships, nextId := later.nextId)
    && k in later.memberships && later.memberships == db.memberships[k := later.memberships[k]]
  }

  /** The invitee's seat after a committed accept. */
  ghost predicate SeatedAs(ms: map<Id, Membership>, k: Id, o: Id, u: Id, role: Role) {
    k in ms && ms[k] == Membership(o, u, role, None, ByInvitation)
  }

  lemma SavedSeat(db: Tables, k: Id, m: Membership)
    requires k in db.memberships
    ensures var r := S.SaveMembership(db, k, m);
            r.reply == S.Done ==> r.db == db.(memberships := db.memberships[k := m])
  {
  }

  lemma AddedSeat(db: Tables, m: Membership)
    ensures var r := S.AddMembership(db, m);
            r.reply == S.Done ==> r.db == db.(memberships := db.memberships[db.nextId := m], nextId := db.nextId + 1)
  {
  }

  lemma RedeemSeats(db: Tables, u: Id, i: Id)
    requires i in db.invitations
    ensures var r := S.Redeem(db, u, i);
            var row := db.invitations[i];
            if r.reply == S.Done
            then exists k :: SeatedAs(r.db.memberships, k, row.org, u, row.role) && Redeemed(db, r.db, i, k)
            else r.db == db
  {
    hide S.SaveMembership, S.AddMembership;
    var r, row := S.Redeem(db, u, i), db.invitations[i];
    var db1 := db.(invitations := db.invitations - {i});
    match FindMembership(db.memberships, row.org, u)
    case Some(k) =>
      SavedSeat(db1, k, db.memberships[k].(role := row.role, deactivatedAt := None, via := ByInvitation));
      assert r.reply == S.Done ==> SeatedAs(r.db.memberships, k, row.org, u, row.role) && Redeemed(db, r.db, i, k);
    case None =>
      AddedSeat(db1, Membership(row.org, u, row.role, None, ByInvitation));
      assert r.reply == S.Done ==> SeatedAs(r.db.memberships, db.nextId, row.org, u, row.role) && Redeemed(db, r.db, i, db.nextId);
  }

  /** A committed accept uses the invitation up and leaves its actor one seat,
      active, in the invited role; any other outcome writes nothing. */
  lemma AcceptSeatsInvitee(db: Tables, u: Id, i: Id, copy: Invitation, now: Time)
    requires Inv(db)
    ensures var r := S.AcceptInvitation(db, u, i, copy, now);
            if r.reply == S.Done then
              && i in db.invitations
              && exists k :: OnlySeat(r.db.memberships, k, db.invitations[i].org, u) && Redeemed(db, r.db, i, k)
                             && SeatedAs(r.db.memberships, k, db.invitations[i].org, u, db.invitations[i].role)
            else r.db == db
  {
    var r := S.AcceptInvitation(db, u, i, copy, now);
    AcceptKeepsInv(db, u, i, copy, now);
    assert UniqueMembers(r.db.memberships);
    hide Inv, UniqueMembers, S.Redeem;
    if i in db.invitations {
      var o, role := db.invitations[i].org, db.invitations[i].role;
      RedeemSeats(db, u, i);
      if r.reply == S.Done {
        var k :| SeatedAs(r.db.memberships, k, o, u, role) && Redeemed(db, r.db, i, k);
        BelongsAlone(r.db.memberships, k, o, u);
      }
    }
  }

  ghost predicate OnlySeat(ms: map<Id, Membership>, k: Id, o: Id, u: Id) {
    Belongs(ms, k, o, u) && forall j :: Belongs(ms, j, o, u) ==> j == k
  }

  lemma BelongsAlone(ms: map<Id, Membership>, k: Id, o: Id, u: Id)
    requires UniqueMembers(ms) && Belongs(ms, k, o, u)
    ensures OnlySeat(ms, k, o, u)
  {
  }

  // ---- SAML sign-on

  lemma {:induction false} AfterOnlyAt(before: string, domain: string)
    requires '@' !in domain
    ensures AfterLastAt(domain) == domain && AfterLastAt(before + "@" + domain) == domain
  {
    if before == "" {
      assert (before + "@" + domain)[1..] == domain;
    } else {
      AfterOnlyAt(before[1..], domain);
      assert (before + "@" + domain)[1..] == before[1..] + "@" + domain;
      assert (before + "@" + domain)[|before|] == '@';
    }
  }

  /** domain_for takes what stands behind the last '@', so a second '@' in front of it cannot spoof the domain. */
  lemma DomainIsBehindLastAt(before: string, domain: string)
    requires '@' !in domain && Canonical(domain) != ""
    ensures DomainFor(before + "@" + domain) == Some(Canonical(domain))
  {
    var email := before + "@" + domain;
    assert domain != "" && email[|email| - 1] == domain[|domain| - 1];
    AfterOnlyAt(before, domain);
  }

  /** A verified domain names one connection, so e-mail discovery does not depend on row order. */
  lemma DiscoveryIsUnambiguous(db: Tables, email: string, c: Id)
    requires Inv(db)
    ensures DiscoverableFor(db, email) == Some(c) <==>
            c in db.identity.connections && db.identity.connections[c].enabled && AssertsEmail(db, c, email)
  {
  }

  ghost predicate HasEntered(db: Tables, k: Id, o: Id, email: string) {
    && k in db.memberships && Active(db.memberships[k]) && db.memberships[k].org == o
    && var u := db.memberships[k].user;
    && u in db.users && CanAuthenticate(db.users[u]) && db.users[u].email == email
  }

  lemma SignInUserIsSound(db: Tables, connection: SsoConnection, u: Id)
    requires u in db.users
    ensures var r := S.SignInUser(db, connection, u);
            if r.reply.Granted? then HasEntered(r.db, r.reply.membership, connection.org, db.users[u].email)
            else r.reply == S.Denied && r.db == db
  {
    hide ValidUpdate;
  }

  lemma SignInStrangerIsSound(db: Tables, connection: SsoConnection, email: string, userOk: bool)
    ensures var r := S.SignInStranger(db, connection, email, userOk);
            if r.reply.Granted? then HasEntered(r.db, r.reply.membership, connection.org, email)
            else r.reply == S.Denied && r.db == db
  {
    hide ValidNew;
  }

  /** A granted sign-in seats an authenticating user of the asserted domain; a denied one writes nothing. */
  lemma ResolveIsSound(db: Tables, c: Id, asserted: string, userOk: bool)
    requires c in db.identity.connections
    ensures var r := S.ResolveSignIn(db, c, asserted, userOk);
            if r.reply.Granted?
            then AssertsEmail(db, c, Canonical(asserted))
                 && HasEntered(r.db, r.reply.membership, db.identity.connections[c].org, Canonical(asserted))
            else r.reply == S.Denied && r.db == db
  {
    hide AssertsEmail, S.SignInUser, S.SignInStranger, HasEntered;
    var connection, email := db.identity.connections[c], Canonical(asserted);
    match FindUser(db.users, email)
    case Some(u) => SignInUserIsSound(db, connection, u);
    case None => SignInStrangerIsSound(db, connection, email, userOk);
  }

  /** Membership `k` in the connection's organization is its user's who bears the address
      and may authenticate, and is active or reopens with JIT. */
  predicate SeatOpens(db: Tables, connection: SsoConnection, email: string, k: Id) {
    && k in db.memberships && db.memberships[k].org == connection.org && (Active(db.memberships[k]) || connection.jit)
    && db.memberships[k].user in db.users
    && var user := db.users[db.memberships[k].user]; user.email == email && !user.banned && user.redactedAt == None
  }

  /** What decides a sign-on once the domain is asserted. */
  ghost predicate MaySignOn(db: Tables, connection: SsoConnection, email: string, userOk: bool) {
    if EmailTaken(db.users, email)
    then exists k :: SeatOpens(db, connection, email, k)
    else connection.jit && userOk && connection.org in db.orgs
  }

  lemma SignInUserIff(db: Tables, connection: SsoConnection, u: Id)
    requires Inv(db) && u in db.users
    ensures S.SignInUser(db, connection, u).reply.Granted? <==>
            && CanAuthenticate(db.users[u])
            && var k := FindMembership(db.memberships, connection.org, u);
               k.Some? && (Active(db.memberships[k.value]) || connection.jit)
  {
    var k := FindMembership(db.memberships, connection.org, u);
    if k.Some? && !Active(db.memberships[k.value]) {
      ReentryIsValid(db, k.value, db.memberships[k.value].(deactivatedAt := None, via := BySso));
      hide Inv, ValidUpdate;
    }
  }

  /** A provisioned identity always fits: nobody sits in the new user's seat yet, and
      the organization's owner is another active admin. */
  lemma NewUserFits(db: Tables, email: string, m: Membership)
    requires Inv(db) && m.user == db.nextId
    ensures S.AddUserWithSeat(db, email, m).reply == S.Done <==> m.org in db.orgs
  {
    var db1 := db.(users := db.users[db.nextId := User(email, false, None, false)], nextId := db.nextId + 1);
    if m.org in db.orgs {
      var k :| OwnerRow(db.memberships, k, m.org, db.orgs[m.org].owner);
      assert db.orgs[m.org].owner in db.users && db.orgs[m.org].owner != m.user;
      assert OtherActiveAdmin(db1.memberships, m.org, None);
      assert ValidNew(db1, m);
    }
  }

  /** Granted exactly when the connection asserts the domain and the address is either a
      member's who may authenticate (a former one's with JIT), or new, with JIT and a valid user. */
  lemma GrantedIff(db: Tables, c: Id, asserted: string, userOk: bool)
    requires Inv(db) && c in db.identity.connections
    ensures S.ResolveSignIn(db, c, asserted, userOk).reply.Granted? <==>
            AssertsEmail(db, c, Canonical(asserted)) && MaySignOn(db, db.identity.connections[c], Canonical(asserted), userOk)
  {
    var connection, email := db.identity.connections[c], Canonical(asserted);
    match FindUser(db.users, email)
    case None =>
      NewUserFits(db, email, Membership(connection.org, db.nextId, connection.defaultRole, None, BySso));
      hide Inv, AssertsEmail, Canonical, S.AddUserWithSeat;
    case Some(u) =>
      SignInUserIff(db, connection, u);
      KnownMaySignOn(db, connection, email, u, userOk);
      hide Inv, AssertsEmail, Canonical, S.SignInUser, MaySignOn;
  }

  lemma KnownMaySignOn(db: Tables, connection: SsoConnection, email: string, u: Id, userOk: bool)
    requires UniqueEmails(db.users) && UniqueMembers(db.memberships) && u in db.users && db.users[u].email == email
    ensures MaySignOn(db, connection, email, userOk) <==>
            && CanAuthenticate(db.users[u])
            && var k := FindMembership(db.memberships, connection.org, u);
               k.Some? && (Active(db.memberships[k.value]) || connection.jit)
  {
    assert EmailTaken(db.users, email);
    var k := FindMembership(db.memberships, connection.org, u);
    if MaySignOn(db, connection, email, userOk) {
      var j :| SeatOpens(db, connection, email, j);
      assert db.memberships[j].user == u && k == Some(j);
    } else if k.Some? {
      assert !SeatOpens(db, connection, email, k.value);
    }
  }
}
