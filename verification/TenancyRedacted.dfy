/** Where a redacted user's active seat comes from: from the approval of a join request
    the user had filed before, and from nowhere else. */
module TenancyRedacted {
  import opened Common
  import opened Tenancy
  import opened TenancyMachine
  import opened TenancyInvariants
  import opened TenancyRuns
  import opened TenancyEvolution
  import S = TenancySteps

  /** Accounts are redacted by closing them and by nothing else. */
  ghost predicate NoneRedacted(db: Tables, later: Tables) {
    forall u :: u in later.users && Redacted(later.users[u]) ==> u in db.users && Redacted(db.users[u])
  }

  lemma AccountStepRedactsNone(db: Tables, a: AccountAction)
    requires !a.CloseAccount?
    ensures NoneRedacted(db, AccountStep(db, a).db)
  {
  }

  lemma PurgeRedactsNone(db: Tables, now: Time, start: Id, stop: Option<Id>)
    ensures NoneRedacted(db, S.Purge(db, now, start, stop).db)
  {
    var first := S.PurgeOrganizations(db, now, start, stop).db;
    assert first.users == db.users;
    hide S.PurgeOrganizations, S.OrphanPrefix, S.Orphans;
  }

  lemma OrganizationStepRedactsNone(db: Tables, a: OrganizationAction)
    ensures NoneRedacted(db, OrganizationStep(db, a).db)
  {
    match a
    case CreateOrganization(_, _, _, _) => hide ValidNew;
    case TransferOwnership(_, _) => hide ValidUpdate;
    case PurgeJob(now, start, stop) => PurgeRedactsNone(db, now, start, stop);
    case _ => hide OrganizationStep; OrganizationStepFrames(db, a);
  }

  lemma AdmitKeepsUsers(db: Tables, org: Id, user: Id)
    ensures S.Admit(db, org, user).db.users == db.users
  {
    hide ValidUpdate, ValidNew;
  }

  lemma SeatStepRedactsNone(db: Tables, a: SeatAction)
    ensures NoneRedacted(db, SeatStep(db, a).db)
  {
    match a
    case RequestAccess(u, o) => AdmitKeepsUsers(db, o, u); hide S.Admit;
    case Approve(actor, r) =>
      if S.MayDecide(db, actor, r) {
        var row := db.requests[r].(approved := true, completedBy := Some(db.memberships[actor].user));
        AdmitKeepsUsers(db.(requests := db.requests[r := row]), row.org, row.user);
        hide S.Admit;
      }
    case _ => hide ValidUpdate;
  }

  lemma InviteStepRedactsNone(db: Tables, a: InviteAction)
    ensures NoneRedacted(db, InviteStep(db, a).db)
  {
    if a.Accept? {
      hide ValidUpdate, ValidNew;
    } else {
      hide InviteStep;
      InviteStepFrames(db, a);
    }
  }

  lemma ProvisionRedactsNone(db: Tables, email: string, m: Membership)
    ensures NoneRedacted(db, S.AddUserWithSeat(db, email, m).db)
  {
    hide ValidNew;
  }

  lemma SignOnRedactsNone(db: Tables, c: Id, asserted: string, ok: bool)
    ensures NoneRedacted(db, S.SsoCallback(db, c, asserted, ok).db)
  {
    hide ValidUpdate, Canonical, S.AddUserWithSeat;
    if c in db.identity.connections {
      var connection := db.identity.connections[c];
      ProvisionRedactsNone(db, Canonical(asserted), Membership(connection.org, db.nextId, connection.defaultRole, None, BySso));
    }
  }

  lemma ScimCreateRedactsNone(db: Tables, c: Id, userName: string, active: Option<bool>, ok: bool, now: Time)
    ensures NoneRedacted(db, S.ScimCreate(db, c, userName, active, ok, now).db)
  {
    hide ValidUpdate, Canonical, S.AddUserWithSeat;
    if c in db.identity.scim {
      var (connection, deactivatedAt) := (db.identity.scim[c], if active == Some(false) then Some(now) else None);
      ProvisionRedactsNone(db, Canonical(userName), Membership(connection.org, db.nextId, connection.defaultRole, deactivatedAt, ByScim));
    }
  }

  lemma IdentityStepRedactsNone(db: Tables, a: IdentityAction)
    ensures NoneRedacted(db, IdentityStep(db, a).db)
  {
    hide ValidUpdate, S.SsoCallback, S.ScimCreate;
    match a
    case SsoSignIn(c, asserted, ok) => SignOnRedactsNone(db, c, asserted, ok);
    case ScimCreate(c, userName, active, ok, now) => ScimCreateRedactsNone(db, c, userName, active, ok, now);
    case _ =>
  }

  lemma StepRedactsNone(db: Tables, a: Action)
    requires !(a.OnAccount? && a.account.CloseAccount?)
    ensures NoneRedacted(db, Step(db, a).db)
  {
    hide NoneRedacted, AccountStep, OrganizationStep, SeatStep, InviteStep, IdentityStep;
    match a
    case OnAccount(b) => AccountStepRedactsNone(db, b);
    case OnOrganization(b) => OrganizationStepRedactsNone(db, b);
    case OnSeat(b) => SeatStepRedactsNone(db, b);
    case OnInvite(b) => InviteStepRedactsNone(db, b);
    case OnIdentity(b) => IdentityStepRedactsNone(db, b);
  }

  // ---- One step

  /** An active seat of a redacted user. */
  ghost predicate RedactedSeat(db: Tables, k: Id) {
    k in db.memberships && Active(db.memberships[k]) && db.memberships[k].user in db.users && Redacted(db.users[db.memberships[k].user])
  }

  /** The step approves a request of a user who is redacted already, and row `k` is its seat. */
  ghost predicate ApprovesRedacted(db: Tables, a: Action, k: Id) {
    && a.OnSeat? && a.seat.Approve? && a.seat.request in db.requests
    && var (r, later) := (db.requests[a.seat.request], Step(db, a).db);
    && k !in db.memberships && k in later.memberships && later.memberships[k].user == r.user && later.memberships[k].org == r.org
    && r.user in db.users && Redacted(db.users[r.user])
  }

  lemma ClosureSeatsNone(db: Tables, u: Id, session: Id, now: Time, k: Id)
    requires RedactedSeat(S.CloseAccount(db, u, session, now).db, k)
    ensures RedactedSeat(db, k)
  {
    hide Deletable, RetainedFootprint, S.Destroyable;
  }

  lemma ClosureStepSeatsNone(db: Tables, a: Action, k: Id)
    requires a.OnAccount? && a.account.CloseAccount? && RedactedSeat(Step(db, a).db, k)
    ensures RedactedSeat(db, k)
  {
    hide RedactedSeat, S.CloseAccount;
    ClosureSeatsNone(db, a.account.user, a.account.session, a.account.now, k);
  }

  lemma OldRowWasRedacted(db: Tables, a: Action, k: Id)
    requires Inv(db) && RedactedSeat(Step(db, a).db, k) && k in db.memberships
    ensures RedactedSeat(db, k)
  {
    hide Inv, Step;
    if a.OnAccount? && a.account.CloseAccount? {
      ClosureStepSeatsNone(db, a, k);
    } else {
      StepEvolves(db, a);
      StepRedactsNone(db, a);
    }
  }

  lemma FounderIsNotRedacted(db: Tables, u: Id, privacy: Privacy, logo: bool, ok: bool)
    requires u in db.users && Redacted(db.users[u])
    ensures S.CreateOrganization(db, u, privacy, logo, ok).db == db
  {
  }

  lemma InviteeIsNotRedacted(db: Tables, u: Id, i: Id, copy: Invitation, now: Time)
    requires u in db.users && Redacted(db.users[u])
    ensures S.AcceptInvitation(db, u, i, copy, now).db == db
  {
  }

  lemma AskerIsNotRedacted(db: Tables, u: Id, o: Id)
    requires u in db.users && Redacted(db.users[u])
    ensures S.RequestAccess(db, u, o).db == db
  {
  }

  lemma NewRowWasApproved(db: Tables, a: Action, k: Id)
    requires Inv(db) && RedactedSeat(Step(db, a).db, k) && k !in db.memberships
    ensures ApprovesRedacted(db, a, k)
  {
    StepEvolves(db, a);
    var m := Step(db, a).db.memberships[k];
    assert SeatOf(db, a) == Some((m.user, m.org));
    StepRedactsNone(db, a);
    assert db.nextId !in db.users;
    hide Inv, AccountStep, S.CreateOrganization, S.AcceptInvitation, S.RequestAccess, S.ApproveRequest;
    match a
    case OnOrganization(CreateOrganization(u, privacy, logo, ok)) => FounderIsNotRedacted(db, u, privacy, logo, ok);
    case OnInvite(Accept(u, i, copy, now)) => InviteeIsNotRedacted(db, u, i, copy, now);
    case OnSeat(RequestAccess(u, o)) => AskerIsNotRedacted(db, u, o);
    case _ =>
  }

  // ---- Over a run

  ghost predicate ApprovedAt(db: Tables, run: seq<Action>, i: nat, k: Id) {
    i < |run| && ApprovesRedacted(Run(db, run[..i]), run[i], k)
  }

  lemma {:induction false} RunSeatsRedacted(db: Tables, run: seq<Action>, k: Id)
    requires Inv(db) && RedactedSeat(Run(db, run), k)
    ensures RedactedSeat(db, k) || exists i: nat :: ApprovedAt(db, run, i, k)
    decreases run
  {
    if run != [] {
      var (a, rest) := (run[0], run[1..]);
      var db1 := Step(db, a).db;
      StepKeepsInv(db, a);
      RunSeatsRedacted(db1, rest, k);
      if RedactedSeat(db1, k) {
        if k in db.memberships {
          OldRowWasRedacted(db, a, k);
        } else {
          NewRowWasApproved(db, a, k);
          hide Inv, Step, ApprovesRedacted, RedactedSeat;
          assert run[..0] == [];
          assert ApprovedAt(db, run, 0, k);
        }
      } else {
        hide Inv, Step, ApprovesRedacted, RedactedSeat;
        var i: nat :| ApprovedAt(db1, rest, i, k);
        assert run[..i + 1][1..] == rest[..i];
        assert ApprovedAt(db, run, i + 1, k);
      }
    }
  }

  /** After any run, an active seat of a redacted user was added by approving a request of
      that user, for that organization, when the account was redacted already. */
  lemma RedactedSeatWasApproved(run: seq<Action>, k: Id)
    requires RedactedSeat(Run(EMPTY, run), k)
    ensures exists i: nat :: ApprovedAt(EMPTY, run, i, k)
  {
    hide Run, Step;
    RunSeatsRedacted(EMPTY, run, k);
  }
}
