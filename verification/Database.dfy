/** The tables as the application changes them: statement by statement, inside a
    transaction that is rolled back as a whole. Every method is proved to do
    exactly what its step function says. */
module TenancyDatabase {
  import opened Common
  import opened Tenancy
  import opened TenancyInvariants
  import opened TenancyClosure
  import opened TenancyEffects
  import S = TenancySteps

  class Database {
    var tables: Tables

    ghost predicate Valid()
      reads this
    {
      Inv(tables)
    }

    constructor ()
      ensures Valid() && tables == EMPTY
    {
      tables := EMPTY;
    }

    // ---- Lookups

    method MembershipOf(org: Id, user: Id) returns (r: Option<Id>)
      requires Valid()
      ensures r == FindMembership(tables.memberships, org, user)
    {
      if k: Id :| k in tables.memberships && tables.memberships[k].org == org && tables.memberships[k].user == user {
        r := Some(k);
      } else {
        r := None;
      }
    }

    method UserWith(email: string) returns (r: Option<Id>)
      requires Valid()
      ensures r == FindUser(tables.users, email)
    {
      if u: Id :| u in tables.users && tables.users[u].email == email {
        r := Some(u);
      } else {
        r := None;
      }
    }

    // ---- Membership rows

    /** membership.update: validate, then write. */
    method Save(id: Id, m: Membership) returns (ok: bool)
      requires Valid() && id in tables.memberships
      requires m.org == tables.memberships[id].org && m.user == tables.memberships[id].user
      modifies this
      ensures Valid()
      ensures S.Outcome(tables, if ok then S.Done else S.Invalid) == S.SaveMembership(old(tables), id, m)
    {
      SaveKeepsInv(tables, id, m);
      hide Inv;
      ok := ValidUpdate(tables, id, m);
      if ok {
        tables := tables.(memberships := tables.memberships[id := m]);
      }
    }

    /** memberships.create. */
    method Create(m: Membership) returns (ok: bool)
      requires Valid()
      modifies this
      ensures Valid()
      ensures S.Outcome(tables, if ok then S.Done else S.Invalid) == S.AddMembership(old(tables), m)
    {
      hide Inv, ValidNew;
      AddKeepsInv(tables, m);
      ok := ValidNew(tables, m);
      if ok {
        tables := tables.(memberships := tables.memberships[tables.nextId := m], nextId := tables.nextId + 1);
      }
    }

    method Deactivate(actor: Id, id: Id, now: Time) returns (reply: S.Reply)
      requires Valid()
      modifies this
      ensures Valid() && S.Outcome(tables, reply) == S.Deactivate(old(tables), actor, id, now)
    {
      if !MayDeactivate(tables, actor, id) {
        return S.NotAllowed;
      }
      hide ValidUpdate, Inv;
      var ok := Save(id, tables.memberships[id].(deactivatedAt := Some(now)));
      reply := if ok then S.Done else S.Invalid;
    }

    method Reactivate(actor: Id, id: Id) returns (reply: S.Reply)
      requires Valid()
      modifies this
      ensures Valid() && S.Outcome(tables, reply) == S.Reactivate(old(tables), actor, id)
    {
      if !MayReactivate(tables, actor, id) {
        return S.NotAllowed;
      }
      hide ValidUpdate, Inv;
      var ok := Save(id, tables.memberships[id].(deactivatedAt := None));
      reply := if ok then S.Done else S.Invalid;
    }

    // ---- Organizations

    /** organizations.create and, in the same transaction, create_owner_membership. */
    method CreateOrganization(owner: Id, privacy: Privacy, logo: bool, nameOk: bool) returns (reply: S.Reply)
      requires Valid()
      modifies this
      ensures Valid() && S.Outcome(tables, reply) == S.CreateOrganization(old(tables), owner, privacy, logo, nameOk)
    {
      hide Inv, ValidNew, ValidOrganization, S.CreateOrganization;
      CreateOrganizationKeepsInv(tables, owner, privacy, logo, nameOk);
      FoundingIs(tables, owner, privacy, logo, nameOk);
      var before, o, org := tables, tables.nextId, Organization(owner, None, privacy, logo, false);
      if !SignedIn(tables, owner) || !nameOk || !ValidOrganization(org) {
        return S.Invalid;
      }
      tables := tables.(orgs := tables.orgs[o := org], nextId := o + 1);
      var seat := Membership(o, owner, Admin, None, ByInvitation);
      if !ValidNew(tables, seat) {
        tables := before;
        return S.Invalid;
      }
      tables := tables.(memberships := tables.memberships[tables.nextId := seat], nextId := tables.nextId + 1);
      return S.Done;
    }

    method TransferOwnership(actor: Id, target: Id) returns (reply: S.Reply)
      requires Valid()
      modifies this
      ensures Valid() && S.Outcome(tables, reply) == S.TransferOwnership(old(tables), actor, target)
    {
      TransferKeepsInv(tables, actor, target);
      if !Acting(tables, actor) || !OwnedBy(tables.orgs, tables.memberships[actor]) {
        return S.NotAllowed;
      }
      var o := tables.memberships[actor].org;
      var candidate := MembershipOf(o, target);
      if candidate.None? || !Active(tables.memberships[candidate.value]) || target == tables.orgs[o].owner {
        return S.NotAllowed;
      }
      hide Inv, ValidUpdate;
      var before := tables;
      var ok := Save(candidate.value, tables.memberships[candidate.value].(role := Admin));
      if !ok || !ValidOrganization(tables.orgs[o].(owner := target)) {
        tables := before;
        return S.Invalid;
      }
      tables := tables.(orgs := tables.orgs[o := tables.orgs[o].(owner := target)]);
      return S.Done;
    }

    method EraseOrganization(actor: Id, now: Time) returns (reply: S.Reply)
      requires Valid()
      modifies this
      ensures Valid() && S.Outcome(tables, reply) == S.EraseOrganization(old(tables), actor, now)
    {
      EraseOrganizationKeepsInv(tables, actor, now);
      if !Acting(tables, actor) || !OwnedBy(tables.orgs, tables.memberships[actor]) {
        return S.NotAllowed;
      }
      var o := tables.memberships[actor].org;
      if tables.orgs[o].subscribed {
        return S.NotAllowed;
      }
      var before := tables;
      tables := tables.(invitations := S.InvitationsOutside(tables.invitations, {o}));
      tables := tables.(identity := S.DropConnections(tables.identity, {o}));
      var row := tables.orgs[o].(deletedAt := Some(now));
      if !ValidOrganization(row) {
        tables := before;
        return S.Invalid;
      }
      tables := tables.(orgs := tables.orgs[o := row]);
      return S.Done;
    }

    // ---- Invitations, under the row lock

    method Accept(user: Id, id: Id, copy: Invitation, now: Time) returns (reply: S.Reply)
      requires Valid()
      modifies this
      ensures Valid() && S.Outcome(tables, reply) == S.AcceptInvitation(old(tables), user, id, copy, now)
    {
      if !S.InviteeOf(tables, user, copy, now) {
        return S.NotAllowed;
      }
      if id !in tables.invitations || S.Expired(tables.invitations[id], now) || tables.invitations[id].email != tables.users[user].email {
        return S.TransitionError;
      }
      var i := tables.invitations[id];
      var seat := MembershipOf(i.org, user);
      if seat.Some? && Active(tables.memberships[seat.value]) {
        return S.TransitionError;
      }
      FewerInvitationsKeepInv(tables, tables.invitations - {id});
      hide Inv, ValidUpdate, ValidNew;
      var before := tables;
      tables := tables.(invitations := tables.invitations - {id});
      var ok;
      if seat.Some? {
        ok := Save(seat.value, tables.memberships[seat.value].(role := i.role, deactivatedAt := None, via := ByInvitation));
      } else {
        ok := Create(Membership(i.org, user, i.role, None, ByInvitation));
      }
      if !ok {
        tables := before;
        return S.Invalid;
      }
      return S.Done;
    }

    method Decline(user: Id, id: Id, copy: Invitation, now: Time) returns (reply: S.Reply)
      requires Valid()
      modifies this
      ensures Valid() && S.Outcome(tables, reply) == S.DeclineInvitation(old(tables), user, id, copy, now)
    {
      FewerInvitationsKeepInv(tables, tables.invitations - {id});
      hide Inv;
      if !S.InviteeOf(tables, user, copy, now) {
        return S.NotAllowed;
      }
      if id !in tables.invitations || S.Expired(tables.invitations[id], now) || tables.invitations[id].email != tables.users[user].email {
        return S.TransitionError;
      }
      tables := tables.(invitations := tables.invitations - {id});
      return S.Done;
    }

    method Revoke(actor: Id, id: Id, copy: Invitation, now: Time) returns (reply: S.Reply)
      requires Valid()
      modifies this
      ensures Valid() && S.Outcome(tables, reply) == S.RevokeInvitation(old(tables), actor, id, copy, now)
    {
      FewerInvitationsKeepInv(tables, tables.invitations - {id});
      if !ActingAdmin(tables, actor) || copy.org != tables.memberships[actor].org {
        return S.NotAllowed;
      }
      hide Inv;
      if id !in tables.invitations || S.Expired(tables.invitations[id], now) {
        return S.TransitionError;
      }
      tables := tables.(invitations := tables.invitations - {id});
      return S.Done;
    }

    /** invitations.create: expired duplicates go first, and come back when the save fails. */
    method CreateInvitation(org: Id, email: string, role: Role, inviter: Option<Id>, now: Time) returns (ok: bool)
      requires Valid()
      modifies this
      ensures Valid()
      ensures var r := S.AddInvitation(old(tables), org, email, role, inviter, now);
              ok == r.Some? && tables == if ok then r.value else old(tables)
    {
      AddInvitationKeepsInv(tables, org, email, role, inviter, now);
      hide Inv;
      var before := tables;
      hide S.AddressIsMember, S.AddressIsInvited, S.WithoutExpired;
      tables := tables.(invitations := S.WithoutExpired(tables.invitations, org, email, now));
      ok := !S.AddressIsMember(before, org, email) && !S.AddressIsInvited(tables.invitations, org, email);
      if ok {
        var i := Invitation(org, email, role, now + INVITATION_LIFETIME, now, inviter, now);
        tables := tables.(invitations := tables.invitations[tables.nextId := i], nextId := tables.nextId + 1);
      } else {
        tables := before;
      }
    }

    /** resend!: an update by primary key without a lock, which a vanished row ignores. */
    method Resend(actor: Id, id: Id, copy: Invitation, now: Time) returns (reply: S.Reply)
      requires Valid()
      modifies this
      ensures Valid() && S.Outcome(tables, reply) == S.ResendInvitation(old(tables), actor, id, copy, now)
    {
      FewerInvitationsKeepInv(tables, S.ResendInvitation(tables, actor, id, copy, now).db.invitations);
      hide Inv;
      if !ActingAdmin(tables, actor) || copy.org != tables.memberships[actor].org {
        return S.NotAllowed;
      }
      if copy.lastSentAt > now - RESEND_COOLDOWN {
        return S.Invalid;
      }
      if id in tables.invitations {
        var row := tables.invitations[id].(expiresAt := now + INVITATION_LIFETIME, lastSentAt := now);
        tables := tables.(invitations := tables.invitations[id := row]);
      }
      return S.Done;
    }

    // ---- Join requests

    /** find_or_initialize_by(user:), deactivated_at = nil, save. */
    method Admit(org: Id, user: Id) returns (ok: bool)
      requires Valid()
      modifies this
      ensures Valid()
      ensures S.Outcome(tables, if ok then S.Done else S.Invalid) == S.Admit(old(tables), org, user)
    {
      var seat := MembershipOf(org, user);
      hide Inv, ValidUpdate, ValidNew;
      if seat.Some? {
        ok := Save(seat.value, tables.memberships[seat.value].(deactivatedAt := None));
      } else {
        ok := Create(Membership(org, user, Member, None, ByInvitation));
      }
    }

    method RequestAccess(user: Id, org: Id) returns (reply: S.Reply)
      requires Valid()
      modifies this
      ensures Valid() && S.Outcome(tables, reply) == S.RequestAccess(old(tables), user, org)
    {
      hide Inv, S.Admit, S.Participant, S.Requested;
      RequestPutKeepsInv(tables, tables.nextId, JoinRequest(org, user, false, None), tables.nextId + 1);
      if !SignedIn(tables, user) || !S.Discoverable(tables, org) {
        return S.NotAllowed;
      }
      if S.Participant(tables.memberships, org, user) {
        return S.Invalid;
      }
      if tables.orgs[org].privacy.Public? {
        var _ := Admit(org, user);
        return S.Done;
      }
      if S.Requested(tables.requests, org, user) {
        return S.Invalid;
      }
      tables := tables.(requests := tables.requests[tables.nextId := JoinRequest(org, user, false, None)], nextId := tables.nextId + 1);
      return S.Done;
    }

    method Approve(actor: Id, id: Id) returns (reply: S.Reply)
      requires Valid()
      modifies this
      ensures Valid() && S.Outcome(tables, reply) == S.ApproveRequest(old(tables), actor, id)
    {
      if !S.MayDecide(tables, actor, id) {
        return S.NotAllowed;
      }
      var before := tables;
      var row := tables.requests[id].(approved := true, completedBy := Some(tables.memberships[actor].user));
      assert Belongs(tables.memberships, actor, row.org, row.completedBy.value);
      RequestPutKeepsInv(tables, id, row, tables.nextId);
      hide Inv, S.Admit;
      tables := tables.(requests := tables.requests[id := row]);
      var ok := Admit(row.org, row.user);
      if !ok {
        tables := before;
        return S.Invalid;
      }
      return S.Done;
    }

    method Reject(actor: Id, id: Id) returns (reply: S.Reply)
      requires Valid()
      modifies this
      ensures Valid() && S.Outcome(tables, reply) == S.RejectRequest(old(tables), actor, id)
    {
      if !S.MayDecide(tables, actor, id) {
        return S.NotAllowed;
      }
      FewerRequestsKeepInv(tables, id);
      hide Inv;
      tables := tables.(requests := tables.requests - {id});
      return S.Done;
    }

    // ---- Identity providers

    /** sso_domain.verify!; `published` is the answer of the DNS lookup. */
    method VerifyDomain(actor: Id, d: Id, published: bool, now: Time) returns (reply: S.Reply)
      requires Valid()
      modifies this
      ensures Valid() && S.Outcome(tables, reply) == S.VerifyDomain(old(tables), actor, d, published, now)
    {
      VerifyDomainKeepsInv(tables, actor, d, published, now);
      hide Inv;
      if !S.ManagesDomain(tables, actor, d) {
        return S.NotAllowed;
      }
      if Verified(tables.identity.domains[d]) {
        return S.Done;
      }
      if !published || S.ClaimedElsewhere(tables.identity.domains, d) {
        return S.Invalid;
      }
      var row := tables.identity.domains[d].(verifiedAt := Some(now));
      tables := tables.(identity := tables.identity.(domains := tables.identity.domains[d := row]));
      return S.Done;
    }

    /** User.create! and memberships.create! in one transaction. */
    method Provision(email: string, m: Membership) returns (ok: bool)
      requires Valid() && !EmailTaken(tables.users, email) && m.user == tables.nextId
      modifies this
      ensures Valid()
      ensures S.Outcome(tables, if ok then S.Done else S.Invalid) == S.AddUserWithSeat(old(tables), email, m)
    {
      hide Inv, EmailTaken, S.AddMembership;
      var before := tables;
      NewUserKeepsInv(tables, email);
      tables := tables.(users := tables.users[tables.nextId := User(email, false, None, false)], nextId := tables.nextId + 1);
      ok := Create(m);
      if !ok {
        tables := before;
      }
    }

    /** resolve_sign_in for an address the application knows. */
    method SignInUser(connection: SsoConnection, user: Id) returns (reply: S.Reply)
      requires Valid() && user in tables.users
      modifies this
      ensures Valid() && S.Outcome(tables, reply) == S.SignInUser(old(tables), connection, user)
    {
      if !CanAuthenticate(tables.users[user]) {
        return S.Denied;
      }
      var seat := MembershipOf(connection.org, user);
      if seat.Some? && Active(tables.memberships[seat.value]) {
        return S.Granted(seat.value);
      }
      if !connection.jit || seat.None? {
        return S.Denied;
      }
      hide Inv, S.SaveMembership;
      var m := tables.memberships[seat.value].(deactivatedAt := None, via := BySso);
      FailedSaveWritesNothing(tables, seat.value, m);
      var ok := Save(seat.value, m);
      return if ok then S.Granted(seat.value) else S.Denied;
    }

    /** The same for a new address; `userOk` says whether the new user would be valid. */
    method SignInStranger(connection: SsoConnection, email: string, userOk: bool) returns (reply: S.Reply)
      requires Valid() && !EmailTaken(tables.users, email)
      modifies this
      ensures Valid() && S.Outcome(tables, reply) == S.SignInStranger(old(tables), connection, email, userOk)
    {
      hide Inv, EmailTaken, ValidNew;
      reply := S.Denied;
      if connection.jit && userOk {
        var id := tables.nextId;
        var ok := Provision(email, Membership(connection.org, id, connection.defaultRole, None, BySso));
        if ok {
          reply := S.Granted(id + 1);
        }
      }
    }

    method ResolveSignIn(c: Id, asserted: string, userOk: bool) returns (reply: S.Reply)
      requires Valid() && c in tables.identity.connections
      modifies this
      ensures Valid() && S.Outcome(tables, reply) == S.ResolveSignIn(old(tables), c, asserted, userOk)
    {
      var connection, email := tables.identity.connections[c], Canonical(asserted);
      if !AssertsEmail(tables, c, email) {
        return S.Denied;
      }
      var user := UserWith(email);
      hide Inv, AssertsEmail, Canonical, S.SignInUser, S.SignInStranger;
      if user.Some? {
        reply := SignInUser(connection, user.value);
      } else {
        reply := SignInStranger(connection, email, userOk);
      }
    }

    /** The invitation an existing account has to accept before it can be provisioned. */
    method AskConsent(c: Id, email: string, now: Time)
      requires Valid() && c in tables.identity.scim
      modifies this
      ensures Valid() && tables == S.ScimInvite(old(tables), c, email, now)
    {
      hide Inv, S.AddInvitation;
      var connection := tables.identity.scim[c];
      if !S.AddressIsPending(tables.invitations, connection.org, email, now) {
        var _ := CreateInvitation(connection.org, email, connection.defaultRole, None, now);
      }
    }

    method ScimCreate(c: Id, userName: string, active: Option<bool>, userOk: bool, now: Time) returns (reply: S.Reply)
      requires Valid()
      modifies this
      ensures Valid() && S.Outcome(tables, reply) == S.ScimCreate(old(tables), c, userName, active, userOk, now)
    {
      if c !in tables.identity.scim || !tables.identity.scim[c].enabled {
        return S.NotAllowed;
      }
      var connection, email := tables.identity.scim[c], Canonical(userName);
      if email == "" {
        return S.Invalid;
      }
      var user := UserWith(email);
      var seat := None;
      if user.Some? {
        seat := MembershipOf(connection.org, user.value);
      }
      hide Inv, ValidUpdate, S.ScimInvite, S.AddUserWithSeat;
      if user.Some? && seat.None? {
        AskConsent(c, email, now);
        return S.Conflict;
      }
      if user.None? {
        if !userOk {
          return S.Invalid;
        }
        var deactivatedAt := if active == Some(false) then Some(now) else None;
        var ok := Provision(email, Membership(connection.org, tables.nextId, connection.defaultRole, deactivatedAt, ByScim));
        return if ok then S.Done else S.Conflict;
      }
      if Active(tables.memberships[seat.value]) {
        return S.Conflict;
      }
      var ok := Save(seat.value, tables.memberships[seat.value].(deactivatedAt := None, via := ByScim));
      return if ok then S.Done else S.Conflict;
    }

    predicate ScimMember(c: Id, id: Id)
      reads this
    {
      && c in tables.identity.scim && tables.identity.scim[c].enabled && id in tables.memberships
      && tables.memberships[id].org == tables.identity.scim[c].org
    }

    /** PUT and PATCH: the attribute setters, then save!. */
    method ScimUpdate(c: Id, id: Id, active: Option<bool>, now: Time) returns (reply: S.Reply)
      requires Valid()
      modifies this
      ensures Valid() && S.Outcome(tables, reply) == S.ScimUpdate(old(tables), c, id, active, now)
    {
      hide Inv, ValidUpdate;
      if !ScimMember(c, id) {
        return S.NotAllowed;
      }
      var m := tables.memberships[id];
      if active == Some(true) {
        m := m.(deactivatedAt := None);
      } else if active == Some(false) && Active(m) {
        m := m.(deactivatedAt := Some(now));
      }
      var ok := Save(id, m);
      return if ok then S.Done else S.Conflict;
    }

    /** DELETE: deactivation, which a deactivated member answers with success. */
    method ScimDestroy(c: Id, id: Id, now: Time) returns (reply: S.Reply)
      requires Valid()
      modifies this
      ensures Valid() && S.Outcome(tables, reply) == S.ScimDestroy(old(tables), c, id, now)
    {
      hide Inv, ValidUpdate;
      if !ScimMember(c, id) {
        return S.NotAllowed;
      }
      if !Active(tables.memberships[id]) {
        return S.Done;
      }
      var ok := Save(id, tables.memberships[id].(deactivatedAt := Some(now)));
      return if ok then S.Done else S.Conflict;
    }

    // ---- Account closure

    /** redact!: one guarded save per active membership, inside the transaction.
        No save of the loop fails, so only the address can roll it back. */
    method Redact(u: Id, now: Time) returns (reply: S.Reply)
      requires Valid() && u in tables.users
      modifies this
      ensures Valid() && S.Outcome(tables, reply) == S.Redact(old(tables), u, now)
    {
      RedactKeepsInv(tables, u, now);
      DeletableIffOwnsNothing(tables, u);
      if Redacted(tables.users[u]) || !Deletable(tables, u) {
        return S.NotAllowed;
      }
      var before, address := tables, tables.users[u].email;
      FewerInvitationsKeepInv(tables, Keep(tables.invitations, (i: Invitation) => i.email != address));
      hide Inv, Deletable, OwnsNothing;
      tables := tables.(invitations := Keep(tables.invitations, (i: Invitation) => i.email != address));
      assert OwnsNothing(tables, u) by { SameOwners(before, tables, u); }
      WithdrawAll(u, now);
      tables := tables.(logins := S.DropLogins(tables.logins, {u}));
      if exists v :: v in tables.users && v != u && tables.users[v].email == RedactedEmail(u) {
        tables := before;
        return S.Invalid;
      }
      tables := tables.(users := tables.users[u := User(RedactedEmail(u), tables.users[u].banned, Some(now), false)]);
      assert tables.invitations == S.Redact(before, u, now).db.invitations;
      return S.Done;
    }

    method WithdrawOne(k: Id, now: Time)
      requires Valid() && k in tables.memberships && OwnsNothing(tables, tables.memberships[k].user)
      modifies this
      ensures Valid()
      ensures tables == old(tables).(memberships := old(tables).memberships[k := old(tables).memberships[k].(deactivatedAt := Some(now))])
    {
      WithdrawalSaves(tables, k, now);
      hide Inv, OwnsNothing, S.SaveMembership;
      var saved := Save(k, tables.memberships[k].(deactivatedAt := Some(now)));
      assert saved;
    }

    /** memberships.active.find_each { update! }: never aborts for a user who owns nothing. */
    method WithdrawAll(u: Id, now: Time)
      requires Valid() && OwnsNothing(tables, u)
      modifies this
      ensures Valid() && tables == old(tables).(memberships := S.Withdrawn(old(tables).memberships, u, now))
    {
      ghost var start := tables;
      var todo := set k | k in tables.memberships && tables.memberships[k].user == u && Active(tables.memberships[k]);
      ghost var active := todo;
      GivenNone(start.memberships, active, now);
      hide Inv, OwnsNothing, Given;
      while todo != {}
        invariant Valid() && todo <= active && tables == start.(memberships := tables.memberships)
        invariant tables.memberships == Given(start.memberships, active - todo, now)
      {
        var k: Id :| k in todo;
        SameOwners(start, tables, u);
        GivenOneMore(start.memberships, active, todo, k, now);
        WithdrawOne(k, now);
        todo := todo - {k};
      }
      GivenAll(start.memberships, active, u, now);
    }
  }

  /** The rows `ks` deactivated at `now`. */
  function Given(ms: map<Id, Membership>, ks: set<Id>, now: Time): map<Id, Membership> {
    map k | k in ms :: if k in ks then ms[k].(deactivatedAt := Some(now)) else ms[k]
  }

  lemma FailedSaveWritesNothing(db: Tables, id: Id, m: Membership)
    requires id in db.memberships
    ensures var r := S.SaveMembership(db, id, m); r.reply == S.Done || r == S.Outcome(db, S.Invalid)
  {
  }

  lemma GivenNone(ms: map<Id, Membership>, ks: set<Id>, now: Time)
    ensures Given(ms, ks - ks, now) == ms
  {
  }

  lemma GivenOneMore(ms: map<Id, Membership>, ks: set<Id>, todo: set<Id>, k: Id, now: Time)
    requires k in ms && k in todo && todo <= ks
    ensures var sofar := Given(ms, ks - todo, now);
            k in sofar && sofar[k] == ms[k] && sofar[k := ms[k].(deactivatedAt := Some(now))] == Given(ms, ks - (todo - {k}), now)
  {
  }

  lemma WithdrawalSaves(db: Tables, k: Id, now: Time)
    requires Inv(db) && k in db.memberships && OwnsNothing(db, db.memberships[k].user)
    ensures var m := db.memberships[k].(deactivatedAt := Some(now));
            S.SaveMembership(db, k, m) == S.Outcome(db.(memberships := db.memberships[k := m]), S.Done)
  {
    WithdrawalIsValid(db, k, now);
  }

  lemma GivenAll(ms: map<Id, Membership>, ks: set<Id>, u: Id, now: Time)
    requires ks == set k | k in ms && ms[k].user == u && Active(ms[k])
    ensures Given(ms, ks - {}, now) == S.Withdrawn(ms, u, now)
  {
  }

  lemma SameOwners(db: Tables, later: Tables, u: Id)
    requires OwnsNothing(db, u) && later.orgs == db.orgs
    ensures OwnsNothing(later, u)
  {
  }
}
