/** What an operation that succeeds has done, and exactly when it succeeds. */
module TenancyEffects {
  import opened Common
  import opened Tenancy
  import opened TenancyInvariants
  import opened TenancyGuarantees
  import opened TenancySignOn
  import S = TenancySteps

  // ---- Ownership

  lemma FoundingIs(db: Tables, owner: Id, privacy: Privacy, logo: bool, nameOk: bool)
    ensures var org := Organization(owner, None, privacy, logo, false);
            var db1 := db.(orgs := db.orgs[db.nextId := org], nextId := db.nextId + 1);
            var seat := Membership(db.nextId, owner, Admin, None, ByInvitation);
            S.CreateOrganization(db, owner, privacy, logo, nameOk)
            == if !SignedIn(db, owner) || !nameOk || !ValidOrganization(org) || !ValidNew(db1, seat) then S.Outcome(db, S.Invalid)
               else S.Outcome(db1.(memberships := db.memberships[db.nextId + 1 := seat], nextId := db.nextId + 2), S.Done)
  {
  }

  /** Founding fails only on the founder or on the organization's own fields; the
      owner's seat never stands in the way. */
  lemma FoundingCommitsIff(db: Tables, owner: Id, privacy: Privacy, logo: bool, nameOk: bool)
    requires Inv(db)
    ensures var r := S.CreateOrganization(db, owner, privacy, logo, nameOk);
            var org := Organization(owner, None, privacy, logo, false);
            if SignedIn(db, owner) && nameOk && ValidOrganization(org)
            then && r.reply == S.Done && r.db == db.(orgs := r.db.orgs, memberships := r.db.memberships, nextId := db.nextId + 2)
                 && r.db.orgs == db.orgs[db.nextId := org]
                 && r.db.memberships == db.memberships[db.nextId + 1 := Membership(db.nextId, owner, Admin, None, ByInvitation)]
            else r == S.Outcome(db, S.Invalid)
  {
    hide Inv, ValidNew, S.CreateOrganization, ValidOrganization;
    FoundingIs(db, owner, privacy, logo, nameOk);
    if owner in db.users {
      FounderMaySit(db, owner, Organization(owner, None, privacy, logo, false));
    }
  }

  lemma FounderMaySit(db: Tables, owner: Id, org: Organization)
    requires Inv(db) && owner in db.users
    ensures ValidNew(db.(orgs := db.orgs[db.nextId := org], nextId := db.nextId + 1), Membership(db.nextId, owner, Admin, None, ByInvitation))
  {
    assert db.nextId !in db.orgs;
    assert forall k :: k in db.memberships ==> db.memberships[k].org != db.nextId;
  }

  /** The acting owner may hand over to any other active member. */
  predicate MayTransfer(db: Tables, actor: Id, k: Id) {
    && Acting(db, actor) && OwnedBy(db.orgs, db.memberships[actor])
    && k in db.memberships && db.memberships[k].org == db.memberships[actor].org && Active(db.memberships[k])
    && !OwnedBy(db.orgs, db.memberships[k]) && ValidOrganization(db.orgs[db.memberships[k].org])
  }

  /** A transfer makes the candidate admin and owner and changes no other row: the
      former owner stays an active admin. Anything short of that changes nothing. */
  lemma TransferMovesOwnership(db: Tables, actor: Id, target: Id)
    requires Inv(db)
    ensures var r := S.TransferOwnership(db, actor, target);
            if exists k :: MayTransfer(db, actor, k) && db.memberships[k].user == target
            then exists k :: MayTransfer(db, actor, k) && db.memberships[k].user == target && Transferred(db, r, k)
            else r.reply != S.Done && r.db == db
  {
    if k :| MayTransfer(db, actor, k) && db.memberships[k].user == target {
      var m := db.memberships[k].(role := Admin);
      StaysUnclaimed(db.memberships, k, m);
      assert FindMembership(db.memberships, db.memberships[actor].org, target) == Some(k);
      assert ValidUpdate(db, k, m);
      hide ValidUpdate, Inv;
      assert Transferred(db, S.TransferOwnership(db, actor, target), k);
    }
  }

  ghost predicate Transferred(db: Tables, r: S.Outcome, k: Id) {
    && k in db.memberships && db.memberships[k].org in db.orgs
    && var m := db.memberships[k];
       r == S.Outcome(db.(memberships := db.memberships[k := m.(role := Admin)],
                          orgs := db.orgs[m.org := db.orgs[m.org].(owner := m.user)]), S.Done)
  }

  // ---- Joining

  /** What a join request does is decided by the organization's privacy: nothing in a
      private one, one open request in a restricted one, and an active seat in a public one. */
  lemma JoiningDependsOnPrivacy(db: Tables, u: Id, o: Id)
    requires Inv(db) && o in db.orgs
    ensures var (r, org) := (S.RequestAccess(db, u, o), db.orgs[o]);
            if !SignedIn(db, u) || org.privacy.Private? || !org.logo then r == S.Outcome(db, S.NotAllowed)
            else if S.Participant(db.memberships, o, u) then r == S.Outcome(db, S.Invalid)
            else if org.privacy.Restricted? then
              if S.Requested(db.requests, o, u) then r == S.Outcome(db, S.Invalid)
              else r.reply == S.Done && r.db.memberships == db.memberships
                   && r.db.requests == db.requests[db.nextId := JoinRequest(o, u, false, None)]
            else r.reply == S.Done && Admitted(db, r.db, o, u)
  {
    if SignedIn(db, u) && db.orgs[o].privacy.Public? && !S.Participant(db.memberships, o, u) {
      AdmitSucceeds(db, u, o);
      AdmitSeats(db, u, o);
    }
    hide Inv, S.Participant, S.Requested;
  }

  /** `u` is seated in `o`: a former seat is active again as it was, a first one is a member's.
      Nothing else changed. */
  ghost predicate Admitted(db: Tables, later: Tables, o: Id, u: Id) {
    && later == db.(memberships := later.memberships, nextId := later.nextId)
    && (forall k :: Belongs(db.memberships, k, o, u) ==>
          && later.nextId == db.nextId
          && later.memberships == db.memberships[k := Membership(o, u, db.memberships[k].role, None, db.memberships[k].via)])
    && ((forall k :: !Belongs(db.memberships, k, o, u)) ==>
          && later.nextId == db.nextId + 1
          && later.memberships == db.memberships[db.nextId := Membership(o, u, Member, None, ByInvitation)])
  }

  lemma AdmitSeats(db: Tables, u: Id, o: Id)
    requires Inv(db) && S.Admit(db, o, u).reply == S.Done
    ensures Admitted(db, S.Admit(db, o, u).db, o, u)
  {
    hide ValidUpdate, ValidNew;
    match FindMembership(db.memberships, o, u)
    case None =>
    case Some(k) =>
      BelongsAlone(db.memberships, k, o, u);
      hide Inv;
      assert Belongs(db.memberships, k, o, u);
      assert db.memberships[k].(deactivatedAt := None) == Membership(o, u, db.memberships[k].role, None, db.memberships[k].via);
  }

  lemma AdmitSucceeds(db: Tables, u: Id, o: Id)
    requires Inv(db) && u in db.users && !Redacted(db.users[u]) && o in db.orgs && !S.Participant(db.memberships, o, u)
    ensures S.Admit(db, o, u).reply == S.Done
  {
    var k := FindMembership(db.memberships, o, u);
    if k.Some? {
      ReentryIsValid(db, k.value, db.memberships[k.value].(deactivatedAt := None));
      hide ValidUpdate;
    }
  }

  /** An approval names its completer, approves the one request, and admits its user in the
      role of the seat it had before, or as a member; a refused one writes nothing. */
  lemma ApprovalAdmits(db: Tables, actor: Id, id: Id)
    requires Inv(db)
    ensures var r := S.ApproveRequest(db, actor, id);
            if r.reply == S.Done then
              && id in db.requests && AdminOf(db, actor, db.requests[id].org)
              && var (o, u) := (db.requests[id].org, db.requests[id].user);
                 Admitted(db.(requests := db.requests[id := JoinRequest(o, u, true, Some(db.memberships[actor].user))]), r.db, o, u)
            else r.db == db
  {
    hide Inv, S.Admit, Admitted;
    if S.MayDecide(db, actor, id) {
      var row := db.requests[id].(approved := true, completedBy := Some(db.memberships[actor].user));
      CompletionKeepsInv(db, actor, id);
      if S.Admit(db.(requests := db.requests[id := row]), row.org, row.user).reply == S.Done {
        AdmitSeats(db.(requests := db.requests[id := row]), row.user, row.org);
      }
    }
  }

  lemma CompletionKeepsInv(db: Tables, actor: Id, id: Id)
    requires Inv(db) && S.MayDecide(db, actor, id)
    ensures Inv(db.(requests := db.requests[id := db.requests[id].(approved := true, completedBy := Some(db.memberships[actor].user))]))
  {
    var row := db.requests[id].(approved := true, completedBy := Some(db.memberships[actor].user));
    hide Inv;
    assert Belongs(db.memberships, actor, row.org, row.completedBy.value);
    RequestPutKeepsInv(db, id, row, db.nextId);
  }

  // ---- Identity providers and existing accounts

  predicate Unaffiliated(db: Tables, org: Id, u: Id) {
    forall k :: k in db.memberships ==> db.memberships[k].org != org || db.memberships[k].user != u
  }

  /** An account that never belonged to the organization is turned away by its sign-on. */
  lemma SignOnNeverAdopts(db: Tables, c: Id, asserted: string, userOk: bool, u: Id)
    requires Inv(db) && c in db.identity.connections && u in db.users && db.users[u].email == Canonical(asserted)
    requires Unaffiliated(db, db.identity.connections[c].org, u)
    ensures S.ResolveSignIn(db, c, asserted, userOk) == S.Outcome(db, S.Denied)
  {
    assert FindUser(db.users, Canonical(asserted)) == Some(u);
    hide Inv, AssertsEmail, Canonical;
  }

  /** An invitation of `o` to the address, for fourteen days, replaced the expired ones to it;
      nothing else differs. */
  ghost predicate InvitationAdded(db: Tables, later: Tables, o: Id, email: string, role: Role, inviter: Option<Id>, now: Time) {
    && later == db.(invitations := later.invitations, nextId := db.nextId + 1)
    && (forall i :: i in later.invitations <==>
          || i == db.nextId
          || (i in db.invitations
              && !(db.invitations[i].org == o && db.invitations[i].email == email && db.invitations[i].expiresAt <= now)))
    && (forall i :: i in later.invitations ==>
          later.invitations[i] == if i == db.nextId then Invitation(o, email, role, now + 14 * DAY, now, inviter, now) else db.invitations[i])
  }

  /** No active member bears the address, and no standing invitation is to it. */
  ghost predicate Invitable(db: Tables, o: Id, email: string, now: Time) {
    && !(exists k :: k in db.memberships && db.memberships[k].org == o && db.memberships[k].deactivatedAt == None
                     && db.memberships[k].user in db.users && db.users[db.memberships[k].user].email == email)
    && (forall i :: i in db.invitations && db.invitations[i].org == o && db.invitations[i].email == email ==> db.invitations[i].expiresAt <= now)
  }

  lemma InvitableIff(db: Tables, o: Id, email: string, now: Time)
    ensures Invitable(db, o, email, now) <==>
            !S.AddressIsMember(db, o, email) && !S.AddressIsInvited(S.WithoutExpired(db.invitations, o, email, now), o, email)
  {
    var rest := S.WithoutExpired(db.invitations, o, email, now);
    if i: Id :| i in db.invitations && db.invitations[i].org == o && db.invitations[i].email == email && db.invitations[i].expiresAt > now {
      assert i in rest && rest[i] == db.invitations[i];
    }
  }

  lemma AddsInvitationIff(db: Tables, o: Id, email: string, role: Role, inviter: Option<Id>, now: Time)
    ensures var r := S.AddInvitation(db, o, email, role, inviter, now);
            && (r.Some? <==> Invitable(db, o, email, now))
            && (r.Some? ==> InvitationAdded(db, r.value, o, email, role, inviter, now))
  {
    InvitableIff(db, o, email, now);
    hide Invitable, S.AddressIsMember, S.AddressIsInvited;
  }

  /** An admin's invitation is issued exactly for a well-formed address that no active member
      bears and no standing invitation is to. */
  lemma InvitingCommitsIff(db: Tables, actor: Id, rawEmail: string, role: Role, formatOk: bool, now: Time)
    ensures var (r, email) := (S.Invite(db, actor, rawEmail, role, formatOk, now), Canonical(rawEmail));
            if actor in db.memberships && AdminOf(db, actor, db.memberships[actor].org) && formatOk && email != ""
               && Invitable(db, db.memberships[actor].org, email, now)
            then r.reply == S.Done
                 && InvitationAdded(db, r.db, db.memberships[actor].org, email, role, Some(db.memberships[actor].user), now)
            else r.reply != S.Done && r.db == db
  {
    hide S.AddInvitation, Canonical, Invitable, InvitationAdded;
    if ActingAdmin(db, actor) {
      AddsInvitationIff(db, db.memberships[actor].org, Canonical(rawEmail), role, Some(db.memberships[actor].user), now);
    }
  }

  /** Declining is for whom the standing invitation is addressed to, revoking for the admins of
      its organization; each takes the one invitation away. */
  lemma WithdrawingCommitsIff(db: Tables, u: Id, i: Id, copy: Invitation, now: Time)
    requires i in db.invitations && copy.org == db.invitations[i].org
    ensures var (decline, revoke) := (S.DeclineInvitation(db, u, i, copy, now), S.RevokeInvitation(db, u, i, copy, now));
            var gone := db.(invitations := db.invitations - {i});
            && (if Invited(db, u, i, copy, now) then decline == S.Outcome(gone, S.Done) else decline.reply != S.Done && decline.db == db)
            && (if AdminOf(db, u, copy.org) && now <= db.invitations[i].expiresAt then revoke == S.Outcome(gone, S.Done)
                else revoke.reply != S.Done && revoke.db == db)
  {
  }

  /** The nightly purge takes exactly the invitations that expired and are older than thirty days. */
  lemma OldInvitationsGo(db: Tables, now: Time)
    ensures var later := S.PurgeInvitations(db, now).db;
            && later == db.(invitations := later.invitations)
            && (forall i :: i in later.invitations <==>
                  i in db.invitations && !(db.invitations[i].expiresAt <= now && db.invitations[i].createdAt <= now - 30 * DAY))
            && (forall i :: i in later.invitations ==> later.invitations[i] == db.invitations[i])
  {
  }

  /** A join request is withdrawn by its own user while it is pending, and by nobody else. */
  lemma CancellingCommitsIff(db: Tables, u: Id, id: Id)
    ensures var r := S.CancelRequest(db, u, id);
            if SignedIn(db, u)
               && id in db.requests && db.requests[id].user == u && !db.requests[id].approved
            then r == S.Outcome(db.(requests := db.requests - {id}), S.Done)
            else r == S.Outcome(db, S.NotAllowed)
  {
  }

  /** Provisioning such an account seats nobody; it answers 409 and leaves a standing
      invitation in the default role for the account's owner to accept. */
  lemma ProvisioningAsksConsent(db: Tables, c: Id, userName: string, active: Option<bool>, userOk: bool, now: Time, u: Id)
    requires Inv(db) && c in db.identity.scim && db.identity.scim[c].enabled && Canonical(userName) != ""
    requires u in db.users && db.users[u].email == Canonical(userName) && Unaffiliated(db, db.identity.scim[c].org, u)
    ensures var (r, connection, email) := (S.ScimCreate(db, c, userName, active, userOk, now), db.identity.scim[c], Canonical(userName));
            && r.reply == S.Conflict
            && if exists i :: i in db.invitations && db.invitations[i].org == connection.org && db.invitations[i].email == email
                              && db.invitations[i].expiresAt > now
               then r.db == db
               else InvitationAdded(db, r.db, connection.org, email, connection.defaultRole, None, now)
  {
    var email := Canonical(userName);
    hide Canonical;
    assert FindUser(db.users, email) == Some(u);
    ConsentIsPending(db, c, email, now, u);
    hide Inv, S.ScimInvite, InvitationAdded;
  }

  lemma ConsentIsPending(db: Tables, c: Id, email: string, now: Time, u: Id)
    requires Inv(db) && c in db.identity.scim && u in db.users && db.users[u].email == email
    requires Unaffiliated(db, db.identity.scim[c].org, u)
    ensures var (later, connection) := (S.ScimInvite(db, c, email, now), db.identity.scim[c]);
            if exists i :: i in db.invitations && db.invitations[i].org == connection.org && db.invitations[i].email == email
                           && db.invitations[i].expiresAt > now
            then later == db
            else InvitationAdded(db, later, connection.org, email, connection.defaultRole, None, now)
  {
    var o := db.identity.scim[c].org;
    AddsInvitationIff(db, o, email, db.identity.scim[c].defaultRole, None, now);
    assert !S.AddressIsPending(db.invitations, o, email, now) ==> Invitable(db, o, email, now);
    hide Inv, S.AddInvitation, Invitable, InvitationAdded;
  }

  /** A new user starts in the default role, active unless the request says otherwise, and
      nothing else changes. */
  lemma ProvisioningSeatsStranger(db: Tables, c: Id, userName: string, active: Option<bool>, userOk: bool, now: Time)
    requires c in db.identity.scim && !EmailTaken(db.users, Canonical(userName))
    ensures var r := S.ScimCreate(db, c, userName, active, userOk, now);
            if r.reply == S.Done
            then SeatedStranger(db, r.db, db.identity.scim[c].org, Canonical(userName), db.identity.scim[c].defaultRole, ByScim,
                                if active == Some(false) then Some(now) else None)
            else r.db == db
  {
    hide Canonical, S.AddUserWithSeat, SeatedStranger;
    var deactivatedAt := if active == Some(false) then Some(now) else None;
    AddedWithUser(db, Canonical(userName), db.identity.scim[c].org, db.identity.scim[c].defaultRole, ByScim, deactivatedAt);
  }

  lemma AddedWithUser(db: Tables, email: string, o: Id, role: Role, via: Via, deactivatedAt: Option<Time>)
    ensures var r := S.AddUserWithSeat(db, email, Membership(o, db.nextId, role, deactivatedAt, via));
            if r.reply == S.Done then SeatedStranger(db, r.db, o, email, role, via, deactivatedAt) else r.db == db
  {
    hide ValidNew;
  }

  /** A former member's seat is active again, in the role it had, and nothing else changes. */
  lemma ProvisioningReopens(db: Tables, c: Id, userName: string, active: Option<bool>, userOk: bool, now: Time)
    requires c in db.identity.scim && EmailTaken(db.users, Canonical(userName))
    ensures var r := S.ScimCreate(db, c, userName, active, userOk, now);
            r.reply == S.Done ==>
              exists k :: FormerSeatOf(db, db.identity.scim[c].org, Canonical(userName), k) && Reopened(db, r.db, k, ByScim)
  {
    var (r, email, o) := (S.ScimCreate(db, c, userName, active, userOk, now), Canonical(userName), db.identity.scim[c].org);
    hide Canonical, ValidUpdate;
    if r.reply == S.Done {
      var k := FindMembership(db.memberships, o, FindUser(db.users, email).value).value;
      assert FormerSeatOf(db, o, email, k) && Reopened(db, r.db, k, ByScim);
    }
  }

  /** Row `k` is a closed seat in `o` of the user with that address. */
  predicate FormerSeatOf(db: Tables, o: Id, email: string, k: Id) {
    && k in db.memberships && db.memberships[k].org == o && db.memberships[k].deactivatedAt != None
    && db.memberships[k].user in db.users && db.users[db.memberships[k].user].email == email
  }

  /** Provisioning succeeds exactly for a new address whose user is valid, and for a former
      member whose account is not redacted. */
  lemma ProvisioningCommitsIff(db: Tables, c: Id, userName: string, active: Option<bool>, userOk: bool, now: Time)
    requires Inv(db) && c in db.identity.scim
    ensures var (connection, email) := (db.identity.scim[c], Canonical(userName));
            S.ScimCreate(db, c, userName, active, userOk, now).reply == S.Done <==>
              && connection.enabled && email != ""
              && if EmailTaken(db.users, email) then exists k :: FormerSeat(db, connection.org, email, k)
                 else userOk && connection.org in db.orgs
  {
    var (connection, email) := (db.identity.scim[c], Canonical(userName));
    match FindUser(db.users, email)
    case None =>
      var deactivatedAt := if active == Some(false) then Some(now) else None;
      NewUserFits(db, email, Membership(connection.org, db.nextId, connection.defaultRole, deactivatedAt, ByScim));
      hide Inv, Canonical, S.AddUserWithSeat;
    case Some(u) =>
      KnownReopensIff(db, connection.org, email, u);
      hide Inv, Canonical, S.SaveMembership;
  }

  /** A closed seat of a user with the address who is not redacted. */
  predicate FormerSeat(db: Tables, org: Id, email: string, k: Id) {
    FormerSeatOf(db, org, email, k) && db.users[db.memberships[k].user].redactedAt == None
  }

  lemma KnownReopensIff(db: Tables, org: Id, email: string, u: Id)
    requires Inv(db) && FindUser(db.users, email) == Some(u)
    ensures var k := FindMembership(db.memberships, org, u);
            (exists j :: FormerSeat(db, org, email, j)) <==>
              k.Some? && !Active(db.memberships[k.value])
              && S.SaveMembership(db, k.value, db.memberships[k.value].(deactivatedAt := None, via := ByScim)).reply == S.Done
  {
    var k := FindMembership(db.memberships, org, u);
    if k.Some? && !Active(db.memberships[k.value]) {
      ReentryIsValid(db, k.value, db.memberships[k.value].(deactivatedAt := None, via := ByScim));
      assert !Redacted(db.users[u]) ==> FormerSeat(db, org, email, k.value);
    }
    hide ValidUpdate;
    if j :| FormerSeat(db, org, email, j) {
      assert db.memberships[j].user == u && k == Some(j);
    }
  }

  // ---- Deprovisioning

  /** The token's enabled connection serves the organization of row `id`. */
  predicate Serves(db: Tables, c: Id, id: Id) {
    && c in db.identity.scim && db.identity.scim[c].enabled
    && id in db.memberships && db.memberships[id].org == db.identity.scim[c].org
  }

  /** An identity provider can take every seat of its organization away but the owner's:
      it writes that one row, or answers that there is nothing to do, or writes nothing.
      DELETE and setting `active` to false are the same. */
  lemma DeprovisioningCommitsIff(db: Tables, c: Id, id: Id, now: Time)
    requires Inv(db)
    ensures var r := S.ScimDestroy(db, c, id, now);
            && S.ScimUpdate(db, c, id, Some(false), now) == r
            && if !Serves(db, c, id) then r == S.Outcome(db, S.NotAllowed)
               else if !Active(db.memberships[id]) then r == S.Outcome(db, S.Done)
               else if OwnedBy(db.orgs, db.memberships[id]) then r == S.Outcome(db, S.Conflict)
               else Wrote(db, r, id, db.memberships[id].(deactivatedAt := Some(now)))
  {
    if Serves(db, c, id) {
      var m := db.memberships[id];
      if Active(m) {
        DeactivationSavesIff(db, id, now);
      } else {
        UnchangedSaves(db, id);
      }
      hide Inv, S.SaveMembership;
    }
  }

  lemma DeactivationSavesIff(db: Tables, id: Id, now: Time)
    requires Inv(db) && id in db.memberships
    ensures var m := db.memberships[id].(deactivatedAt := Some(now));
            Active(db.memberships[id]) ==>
              if OwnedBy(db.orgs, m) then S.SaveMembership(db, id, m) == S.Outcome(db, S.Invalid)
              else Wrote(db, S.SaveMembership(db, id, m), id, m)
  {
    var m := db.memberships[id].(deactivatedAt := Some(now));
    if OwnedBy(db.orgs, m) {
      OwnerIsUndeactivatable(db, id, m);
    } else {
      NonOwnerIsNeverSole(db, Some(id), m.role, m);
      StaysUnclaimed(db.memberships, id, m);
    }
  }

  lemma UnchangedSaves(db: Tables, id: Id)
    requires Inv(db) && id in db.memberships
    ensures S.SaveMembership(db, id, db.memberships[id]) == S.Outcome(db, S.Done)
  {
    StaysUnclaimed(db.memberships, id, db.memberships[id]);
    assert db.memberships[id := db.memberships[id]] == db.memberships;
  }

  /** Setting `active` to true reopens the one row unless its account is redacted; leaving
      it out writes nothing, whatever userName says. */
  lemma ReprovisioningCommitsIff(db: Tables, c: Id, id: Id, now: Time)
    requires Inv(db) && Serves(db, c, id)
    ensures var (r, m) := (S.ScimUpdate(db, c, id, Some(true), now), db.memberships[id]);
            && S.ScimUpdate(db, c, id, None, now) == S.Outcome(db, S.Done)
            && m.user in db.users
            && if Active(m) then r == S.Outcome(db, S.Done)
               else if Redacted(db.users[m.user]) then r == S.Outcome(db, S.Conflict)
               else Wrote(db, r, id, m.(deactivatedAt := None))
  {
    UnchangedSaves(db, id);
    if !Active(db.memberships[id]) {
      ReentryIsValid(db, id, db.memberships[id].(deactivatedAt := None));
    }
    hide ValidUpdate;
  }

  // ---- Resending

  /** An admin may resend what was last sent two minutes ago or earlier, as far as the copy
      tells. That writes two dates of one standing row and nothing else: to whom the invitation
      goes and in which role stays, nothing comes back that is gone, and the row is pending
      for fourteen days from now. */
  lemma ResendProlongs(db: Tables, actor: Id, i: Id, copy: Invitation, now: Time)
    ensures var r := S.ResendInvitation(db, actor, i, copy, now);
            && r.db == db.(invitations := r.db.invitations) && r.db.invitations.Keys == db.invitations.Keys
            && (forall j :: j in db.invitations && (j != i || r.reply != S.Done) ==> r.db.invitations[j] == db.invitations[j])
            && (i in db.invitations ==> SameOffer(db.invitations[i], r.db.invitations[i]))
            && (i in db.invitations && r.reply == S.Done ==> r.db.invitations[i].expiresAt == now + 14 * DAY && r.db.invitations[i].lastSentAt == now)
            && (r.reply == S.Done <==> AdminOf(db, actor, copy.org) && copy.lastSentAt <= now - 2 * MINUTE)
  {
  }

  predicate SameOffer(i: Invitation, j: Invitation) {
    i.org == j.org && i.email == j.email && i.role == j.role && i.invitedBy == j.invitedBy && i.createdAt == j.createdAt
  }

  /** Two resends by callers who loaded the row afresh are at least the cooldown apart. */
  lemma ResendsAreSpaced(db: Tables, actor: Id, i: Id, copy: Invitation, now: Time, other: Id, later: Time)
    requires i in db.invitations && S.ResendInvitation(db, actor, i, copy, now).reply == S.Done
    requires var db1 := S.ResendInvitation(db, actor, i, copy, now).db;
             S.ResendInvitation(db1, other, i, db1.invitations[i], later).reply == S.Done
    ensures later >= now + 2 * MINUTE
  {
  }

  /** An expired invitation that is resent can be accepted again by whoever could have
      accepted it before it expired. */
  lemma ResendRevives(db: Tables, actor: Id, i: Id, copy: Invitation, now: Time, u: Id, later: Time)
    requires Inv(db) && i in db.invitations && S.ResendInvitation(db, actor, i, copy, now).reply == S.Done && later < now + 14 * DAY
    requires SignedIn(db, u) && db.users[u].email == db.invitations[i].email && db.invitations[i].org in db.orgs
    requires var k := FindMembership(db.memberships, db.invitations[i].org, u); k.Some? ==> !Active(db.memberships[k.value])
    ensures var db1 := S.ResendInvitation(db, actor, i, copy, now).db;
            S.AcceptInvitation(db1, u, i, db1.invitations[i], later).reply == S.Done
  {
    var db1 := S.ResendInvitation(db, actor, i, copy, now).db;
    ResendProlongs(db, actor, i, copy, now);
    FewerInvitationsKeepInv(db, db1.invitations);
    AcceptCommitsIff(db1, u, i, db1.invitations[i], later);
    hide Inv, S.ResendInvitation, S.AcceptInvitation;
  }
}
