/** Open offers stay single: over any run there is at most one invitation per address
    and organization and one join request per user and organization, so settling one
    leaves none. */
module TenancyOffers {
  import opened Common
  import opened Tenancy
  import opened TenancyMachine
  import opened TenancyInvariants
  import opened TenancyRuns
  import opened TenancyGuarantees
  import opened TenancyEvolution
  import S = TenancySteps

  ghost predicate OneInvitation(invs: map<Id, Invitation>) {
    forall i, j :: i in invs && j in invs && invs[i].org == invs[j].org && invs[i].email == invs[j].email ==> i == j
  }

  ghost predicate OneRequest(rs: map<Id, JoinRequest>) {
    forall i, j :: i in rs && j in rs && rs[i].org == rs[j].org && rs[i].user == rs[j].user ==> i == j
  }

  ghost predicate SingleOffers(db: Tables) {
    OneInvitation(db.invitations) && OneRequest(db.requests)
  }

  /** Rows go, or keep whom they are for. */
  ghost predicate FewerOffers(db: Tables, later: Tables) {
    && (forall i :: i in later.invitations ==> i in db.invitations && later.invitations[i].org == db.invitations[i].org
                                                && later.invitations[i].email == db.invitations[i].email
                                                && later.invitations[i].role == db.invitations[i].role)
    && (forall r :: r in later.requests ==> r in db.requests && later.requests[r].org == db.requests[r].org
                                             && later.requests[r].user == db.requests[r].user)
  }

  lemma FewerStaySingle(db: Tables, later: Tables)
    requires SingleOffers(db) && FewerOffers(db, later)
    ensures SingleOffers(later)
  {
  }

  lemma SameOffers(db: Tables, later: Tables)
    requires later.invitations == db.invitations && later.requests == db.requests
    ensures FewerOffers(db, later)
  {
  }

  /** The purge of expired duplicates and the two create-time validations do it. */
  lemma AddInvitationStaysSingle(db: Tables, o: Id, email: string, role: Role, inviter: Option<Id>, now: Time)
    requires SingleOffers(db)
    ensures var r := S.AddInvitation(db, o, email, role, inviter, now); r.Some? ==> SingleOffers(r.value)
  {
  }

  lemma RequestAccessStaysSingle(db: Tables, u: Id, o: Id)
    requires SingleOffers(db)
    ensures SingleOffers(S.RequestAccess(db, u, o).db)
  {
    AdmitFrames(db, o, u);
    hide S.Admit, S.Participant;
  }

  lemma ApproveFewer(db: Tables, actor: Id, r: Id)
    ensures FewerOffers(db, S.ApproveRequest(db, actor, r).db)
  {
    if S.MayDecide(db, actor, r) {
      var row := db.requests[r].(approved := true, completedBy := Some(db.memberships[actor].user));
      AdmitFrames(db.(requests := db.requests[r := row]), row.org, row.user);
      hide S.Admit;
    }
  }

  lemma SeatStepStaysSingle(db: Tables, a: SeatAction)
    requires SingleOffers(db)
    ensures SingleOffers(SeatStep(db, a).db)
  {
    hide SingleOffers, FewerOffers, S.RequestAccess, S.ApproveRequest, ValidUpdate;
    match a
    case RequestAccess(u, o) => RequestAccessStaysSingle(db, u, o);
    case Approve(actor, r) => ApproveFewer(db, actor, r); FewerStaySingle(db, S.ApproveRequest(db, actor, r).db);
    case CancelRequest(u, r) => FewerRequests(db, r); FewerStaySingle(db, db.(requests := db.requests - {r}));
    case Reject(actor, r) => FewerRequests(db, r); FewerStaySingle(db, db.(requests := db.requests - {r}));
    case _ => SameOffers(db, SeatStep(db, a).db); FewerStaySingle(db, SeatStep(db, a).db);
  }

  lemma FewerRequests(db: Tables, r: Id)
    ensures FewerOffers(db, db.(requests := db.requests - {r}))
  {
  }

  lemma RedeemFewer(db: Tables, u: Id, i: Id)
    requires i in db.invitations
    ensures FewerOffers(db, S.Redeem(db, u, i).db)
  {
    var row, db1 := db.invitations[i], db.(invitations := db.invitations - {i});
    match FindMembership(db.memberships, row.org, u)
    case Some(k) => SaveFrames(db1, k, db.memberships[k].(role := row.role, deactivatedAt := None, via := ByInvitation));
    case None => AddFrames(db1, Membership(row.org, u, row.role, None, ByInvitation));
  }

  lemma InviteStepStaysSingle(db: Tables, a: InviteAction)
    requires SingleOffers(db)
    ensures SingleOffers(InviteStep(db, a).db)
  {
    match a
    case Invite(actor, email, role, ok, now) =>
      if ActingAdmin(db, actor) {
        AddInvitationStaysSingle(db, db.memberships[actor].org, Canonical(email), role, Some(db.memberships[actor].user), now);
      }
      hide SingleOffers, S.AddInvitation;
    case Accept(u, i, copy, now) =>
      if i in db.invitations {
        RedeemFewer(db, u, i);
        hide S.Redeem;
        FewerStaySingle(db, InviteStep(db, a).db);
      }
    case _ =>
      OtherInviteStepsFewer(db, a);
      hide InviteStep;
      FewerStaySingle(db, InviteStep(db, a).db);
  }

  lemma OtherInviteStepsFewer(db: Tables, a: InviteAction)
    requires !a.Invite? && !a.Accept?
    ensures FewerOffers(db, InviteStep(db, a).db)
  {
  }

  lemma RedactFewer(db: Tables, u: Id, now: Time)
    requires u in db.users
    ensures FewerOffers(db, S.Redact(db, u, now).db)
  {
  }

  lemma DropUsersFewer(db: Tables, us: set<Id>)
    ensures FewerOffers(db, S.DropUsers(db, us))
  {
  }

  lemma DropOrganizationsFewer(db: Tables, os: set<Id>)
    ensures FewerOffers(db, S.DropOrganizations(db, os))
  {
  }

  lemma CloseAccountFewer(db: Tables, u: Id, session: Id, now: Time)
    ensures FewerOffers(db, S.CloseAccount(db, u, session, now).db)
  {
    hide S.Redact, S.DropUsers, S.Destroyable, Deletable, RetainedFootprint;
    var db1 := S.SignedOut(db, u, session);
    SameOffers(db, db);
    DropUsersFewer(db1, {u});
    if u in db.users {
      RedactFewer(db1, u, now);
    }
  }

  lemma AccountStepFewer(db: Tables, a: AccountAction)
    ensures FewerOffers(db, AccountStep(db, a).db)
  {
    match a
    case CloseAccount(u, session, now) => CloseAccountFewer(db, u, session, now);
    case _ => SameOffers(db, AccountStep(db, a).db);
  }

  lemma PurgeFewer(db: Tables, now: Time, start: Id, stop: Option<Id>)
    ensures FewerOffers(db, S.Purge(db, now, start, stop).db)
  {
    var first := S.PurgeOrganizations(db, now, start, stop).db;
    DropOrganizationsFewer(db, S.PurgePrefix(db, now, start, stop));
    DropUsersFewer(first, S.OrphanPrefix(first));
    hide S.DropOrganizations, S.DropUsers, S.PurgePrefix, S.OrphanPrefix, S.DueBetween, S.Orphans;
  }

  lemma CreateOrTransferSame(db: Tables, a: OrganizationAction)
    requires a.CreateOrganization? || a.TransferOwnership?
    ensures FewerOffers(db, OrganizationStep(db, a).db)
  {
    hide ValidNew, ValidUpdate;
    SameOffers(db, OrganizationStep(db, a).db);
  }

  lemma EraseFewer(db: Tables, actor: Id, now: Time)
    ensures FewerOffers(db, S.EraseOrganization(db, actor, now).db)
  {
  }

  lemma OrganizationStepFewer(db: Tables, a: OrganizationAction)
    ensures FewerOffers(db, OrganizationStep(db, a).db)
  {
    match a
    case EraseOrganization(actor, now) => EraseFewer(db, actor, now);
    case PurgeJob(now, start, stop) => PurgeFewer(db, now, start, stop);
    case CreateOrganization(_, _, _, _) => CreateOrTransferSame(db, a);
    case TransferOwnership(_, _) => CreateOrTransferSame(db, a);
    case _ =>
      hide OrganizationStep;
      SettingsFrame(db, a);
      SameOffers(db, OrganizationStep(db, a).db);
  }

  lemma ScimCreateStaysSingle(db: Tables, c: Id, userName: string, active: Option<bool>, ok: bool, now: Time)
    requires SingleOffers(db)
    ensures SingleOffers(S.ScimCreate(db, c, userName, active, ok, now).db)
  {
    if c in db.identity.scim {
      var email, o := Canonical(userName), db.identity.scim[c].org;
      hide SingleOffers, Canonical, S.SaveMembership, S.AddUserWithSeat, S.AddInvitation;
      match FindUser(db.users, email)
      case None =>
        var deactivatedAt := if active == Some(false) then Some(now) else None;
        var m := Membership(o, db.nextId, db.identity.scim[c].defaultRole, deactivatedAt, ByScim);
        AddUserFrames(db, email, m);
        SameOffers(db, S.AddUserWithSeat(db, email, m).db);
        FewerStaySingle(db, S.AddUserWithSeat(db, email, m).db);
      case Some(u) =>
        AddInvitationStaysSingle(db, o, email, db.identity.scim[c].defaultRole, None, now);
        var k := FindMembership(db.memberships, o, u);
        if k.Some? {
          var m := db.memberships[k.value].(deactivatedAt := None, via := ByScim);
          SaveFrames(db, k.value, m);
          SameOffers(db, S.SaveMembership(db, k.value, m).db);
          FewerStaySingle(db, S.SaveMembership(db, k.value, m).db);
        }
    }
  }

  lemma IdentityStepStaysSingle(db: Tables, a: IdentityAction)
    requires SingleOffers(db)
    ensures SingleOffers(IdentityStep(db, a).db)
  {
    hide SingleOffers;
    match a
    case SsoSignIn(c, email, ok) =>
      if c in db.identity.connections {
        SignInFrames(db, c, email, ok);
        SameOffers(db, S.ResolveSignIn(db, c, email, ok).db);
        FewerStaySingle(db, S.ResolveSignIn(db, c, email, ok).db);
      }
    case ScimCreate(c, userName, active, ok, now) => ScimCreateStaysSingle(db, c, userName, active, ok, now);
    case _ =>
      hide IdentityStep;
      IdentityStepFrames(db, a);
      SameOffers(db, IdentityStep(db, a).db);
      FewerStaySingle(db, IdentityStep(db, a).db);
  }

  lemma StepStaysSingle(db: Tables, a: Action)
    requires SingleOffers(db)
    ensures SingleOffers(Step(db, a).db)
  {
    hide SingleOffers, FewerOffers, AccountStep, OrganizationStep, SeatStep, InviteStep, IdentityStep;
    match a
    case OnAccount(b) => AccountStepFewer(db, b); FewerStaySingle(db, AccountStep(db, b).db);
    case OnOrganization(b) => OrganizationStepFewer(db, b); FewerStaySingle(db, OrganizationStep(db, b).db);
    case OnSeat(b) => SeatStepStaysSingle(db, b);
    case OnInvite(b) => InviteStepStaysSingle(db, b);
    case OnIdentity(b) => IdentityStepStaysSingle(db, b);
  }

  /** After any run no address has two invitations to an organization, and no user two requests. */
  lemma {:induction false} RunStaysSingle(db: Tables, run: seq<Action>)
    requires SingleOffers(db)
    ensures SingleOffers(Run(db, run))
    decreases run
  {
    hide SingleOffers, Step;
    if run != [] {
      StepStaysSingle(db, run[0]);
      RunStaysSingle(Step(db, run[0]).db, run[1..]);
    }
  }

  // ---- What settling an offer leaves

  /** Rejecting a request seats nobody and leaves its user free to ask again. */
  lemma RejectionReopens(run: seq<Action>, actor: Id, r: Id)
    requires S.RejectRequest(Run(EMPTY, run), actor, r).reply == S.Done
    ensures var (db, later) := (Run(EMPTY, run), S.RejectRequest(Run(EMPTY, run), actor, r).db);
            && r in db.requests && !S.Requested(later.requests, db.requests[r].org, db.requests[r].user)
            && later == db.(requests := later.requests)
            && forall q :: q in db.requests && q != r ==> q in later.requests && later.requests[q] == db.requests[q]
  {
    RunStaysSingle(EMPTY, run);
    hide Run, Step;
  }

  /** Accepting, declining or revoking an invitation leaves no other to the same address. */
  lemma SettlingLeavesNoInvitation(run: seq<Action>, a: InviteAction, i: Id)
    requires i in Run(EMPTY, run).invitations && i !in InviteStep(Run(EMPTY, run), a).db.invitations && !a.Invite?
    ensures var (db, later) := (Run(EMPTY, run), InviteStep(Run(EMPTY, run), a).db);
            !S.AddressIsInvited(later.invitations, db.invitations[i].org, db.invitations[i].email)
  {
    var db := Run(EMPTY, run);
    RunStaysSingle(EMPTY, run);
    if a.Accept? {
      if a.invitation in db.invitations {
        RedeemFewer(db, a.user, a.invitation);
      }
      hide S.Redeem, Run;
    } else {
      OtherInviteStepsFewer(db, a);
      hide InviteStep, Run;
    }
  }

  // ---- Who invites

  /** The step issues invitation `i`: an admin of the organization names address and role, or
      its provisioning asks an existing account for consent, in the default role. */
  ghost predicate Issues(db: Tables, a: Action, i: Id, offer: Invitation) {
    i !in db.invitations &&
    match a
    case OnInvite(Invite(actor, email, role, _, _)) => AdminOf(db, actor, offer.org) && offer.email == Canonical(email) && offer.role == role
    case OnIdentity(ScimCreate(c, userName, _, _, _)) =>
      && c in db.identity.scim && db.identity.scim[c].org == offer.org
      && offer.email == Canonical(userName) && offer.role == db.identity.scim[c].defaultRole
    case _ => false
  }

  /** The same invitation to the same address in the same role. */
  predicate SameTerms(invs: map<Id, Invitation>, i: Id, offer: Invitation) {
    i in invs && invs[i].org == offer.org && invs[i].email == offer.email && invs[i].role == offer.role
  }

  lemma AddInvitationIssues(db: Tables, o: Id, email: string, role: Role, inviter: Option<Id>, now: Time, i: Id)
    requires db.nextId !in db.invitations
    requires S.AddInvitation(db, o, email, role, inviter, now).Some? && i in S.AddInvitation(db, o, email, role, inviter, now).value.invitations
    ensures var later := S.AddInvitation(db, o, email, role, inviter, now).value.invitations[i];
            (i in db.invitations && later == db.invitations[i])
            || (i !in db.invitations && later == Invitation(o, email, role, now + 14 * DAY, now, inviter, now))
  {
    hide S.AddressIsMember, S.AddressIsInvited;
  }

  lemma InviteIssues(db: Tables, actor: Id, email: string, role: Role, ok: bool, now: Time, i: Id, offer: Invitation)
    requires Fresh(db) && SameTerms(S.Invite(db, actor, email, role, ok, now).db.invitations, i, offer)
    ensures SameTerms(db.invitations, i, offer) || Issues(db, OnInvite(Invite(actor, email, role, ok, now)), i, offer)
  {
    hide S.AddInvitation, Canonical;
    if ActingAdmin(db, actor) {
      var r := S.AddInvitation(db, db.memberships[actor].org, Canonical(email), role, Some(db.memberships[actor].user), now);
      if r.Some? && i in r.value.invitations {
        AddInvitationIssues(db, db.memberships[actor].org, Canonical(email), role, Some(db.memberships[actor].user), now, i);
      }
    }
  }

  lemma ConsentIssues(db: Tables, c: Id, userName: string, active: Option<bool>, ok: bool, now: Time, i: Id, offer: Invitation)
    requires Fresh(db) && SameTerms(S.ScimCreate(db, c, userName, active, ok, now).db.invitations, i, offer)
    ensures SameTerms(db.invitations, i, offer) || Issues(db, OnIdentity(ScimCreate(c, userName, active, ok, now)), i, offer)
  {
    hide S.AddInvitation, Canonical, S.AddressIsPending, S.AddUserWithSeat, S.SaveMembership;
    if c in db.identity.scim {
      var (connection, email) := (db.identity.scim[c], Canonical(userName));
      match FindUser(db.users, email)
      case None =>
        var deactivatedAt := if active == Some(false) then Some(now) else None;
        AddUserFrames(db, email, Membership(connection.org, db.nextId, connection.defaultRole, deactivatedAt, ByScim));
      case Some(u) =>
        var k := FindMembership(db.memberships, connection.org, u);
        if k.Some? {
          SaveFrames(db, k.value, db.memberships[k.value].(deactivatedAt := None, via := ByScim));
        } else {
          var r := S.AddInvitation(db, connection.org, email, connection.defaultRole, None, now);
          if r.Some? && i in r.value.invitations {
            AddInvitationIssues(db, connection.org, email, connection.defaultRole, None, now, i);
          }
        }
    }
  }

  lemma SeatStepIssuesNone(db: Tables, a: SeatAction)
    ensures SeatStep(db, a).db.invitations == db.invitations
  {
    match a
    case RequestAccess(u, o) => AdmitFrames(db, o, u); hide S.Admit;
    case Approve(actor, r) =>
      if S.MayDecide(db, actor, r) {
        var row := db.requests[r].(approved := true, completedBy := Some(db.memberships[actor].user));
        AdmitFrames(db.(requests := db.requests[r := row]), row.org, row.user);
        hide S.Admit;
      }
    case _ => hide ValidUpdate;
  }

  lemma InviteStepIssues(db: Tables, a: InviteAction, i: Id, offer: Invitation)
    requires Fresh(db) && SameTerms(InviteStep(db, a).db.invitations, i, offer)
    ensures SameTerms(db.invitations, i, offer) || Issues(db, OnInvite(a), i, offer)
  {
    match a
    case Invite(actor, email, role, ok, now) => hide S.Invite, Issues, SameTerms; InviteIssues(db, actor, email, role, ok, now, i, offer);
    case Accept(u, j, copy, now) =>
      if j in db.invitations { RedeemFewer(db, u, j); }
      hide S.Redeem;
    case _ => OtherInviteStepsFewer(db, a); hide InviteStep;
  }

  lemma IdentityStepIssues(db: Tables, a: IdentityAction, i: Id, offer: Invitation)
    requires Fresh(db) && SameTerms(IdentityStep(db, a).db.invitations, i, offer)
    ensures SameTerms(db.invitations, i, offer) || Issues(db, OnIdentity(a), i, offer)
  {
    hide Issues, SameTerms, S.ResolveSignIn, S.ScimCreate;
    match a
    case SsoSignIn(c, email, ok) => if c in db.identity.connections { SignInFrames(db, c, email, ok); }
    case ScimCreate(c, userName, active, ok, now) => ConsentIssues(db, c, userName, active, ok, now, i, offer);
    case _ => IdentityStepFrames(db, a); hide IdentityStep;
  }

  lemma StepIssues(db: Tables, a: Action, i: Id, offer: Invitation)
    requires Fresh(db) && SameTerms(Step(db, a).db.invitations, i, offer)
    ensures SameTerms(db.invitations, i, offer) || Issues(db, a, i, offer)
  {
    hide Fresh, Issues, AccountStep, OrganizationStep, SeatStep, InviteStep, IdentityStep;
    match a
    case OnAccount(b) => AccountStepFewer(db, b);
    case OnOrganization(b) => OrganizationStepFewer(db, b);
    case OnSeat(b) => SeatStepIssuesNone(db, b);
    case OnInvite(b) => InviteStepIssues(db, b, i, offer);
    case OnIdentity(b) => IdentityStepIssues(db, b, i, offer);
  }

  ghost predicate IssuedAt(db: Tables, run: seq<Action>, n: nat, i: Id, offer: Invitation) {
    n < |run| && Issues(Run(db, run[..n]), run[n], i, offer)
  }

  lemma {:induction false} RunIssues(db: Tables, run: seq<Action>, i: Id, offer: Invitation)
    requires Inv(db) && SameTerms(Run(db, run).invitations, i, offer)
    ensures SameTerms(db.invitations, i, offer) || exists n: nat :: IssuedAt(db, run, n, i, offer)
    decreases run
  {
    hide Step, SameTerms, Issues;
    if run != [] {
      var (db1, rest) := (Step(db, run[0]).db, run[1..]);
      assert Fresh(db);
      hide Inv, Fresh;
      StepKeepsInv(db, run[0]);
      RunIssues(db1, rest, i, offer);
      if SameTerms(db1.invitations, i, offer) {
        StepIssues(db, run[0], i, offer);
        assert run[..0] == [];
        assert SameTerms(db.invitations, i, offer) || IssuedAt(db, run, 0, i, offer);
      } else {
        var n: nat :| IssuedAt(db1, rest, n, i, offer);
        assert run[..n + 1][1..] == rest[..n];
        assert IssuedAt(db, run, n + 1, i, offer);
      }
    }
  }

  /** After any run, behind every invitation stands the step of an admin of its organization
      who chose its address and role, or its provisioning's question to an existing account. */
  lemma InvitationWasIssued(run: seq<Action>, i: Id)
    requires i in Run(EMPTY, run).invitations
    ensures exists n: nat :: IssuedAt(EMPTY, run, n, i, Run(EMPTY, run).invitations[i])
  {
    hide Run, Step, Issues;
    RunIssues(EMPTY, run, i, Run(EMPTY, run).invitations[i]);
  }

  // ---- Copies in memory

  lemma {:induction false} GoneIsNotReissued(db: Tables, run: seq<Action>, i: Id)
    requires Inv(db) && i < db.nextId && i !in db.invitations
    ensures i !in Run(db, run).invitations
    decreases run
  {
    hide Inv, Step;
    if run != [] {
      StepKeepsInv(db, run[0]);
      StepAdvances(db, run[0]);
      GoneIsNotReissued(Step(db, run[0]).db, run[1..], i);
    }
  }

  /** A copy of an invitation, loaded at any time, is of the organization, the address and the
      role of the row for as long as that stands, however stale it gets. */
  lemma {:induction false} CopyStaysTrue(db: Tables, run: seq<Action>, i: Id)
    requires Inv(db) && i in db.invitations && i in Run(db, run).invitations
    ensures SameTerms(Run(db, run).invitations, i, db.invitations[i])
    decreases run
  {
    assert Fresh(db) && i < db.nextId;
    hide Inv, Fresh, Step;
    if run != [] {
      var db1 := Step(db, run[0]).db;
      StepKeepsInv(db, run[0]);
      StepAdvances(db, run[0]);
      if i in db1.invitations {
        StepIssues(db, run[0], i, db1.invitations[i]);
        CopyStaysTrue(db1, run[1..], i);
      } else {
        GoneIsNotReissued(db1, run[1..], i);
      }
    }
  }
}
