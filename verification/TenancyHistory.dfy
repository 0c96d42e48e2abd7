/** Where memberships come from: behind each one stands a step of the member's own, or the
    organization's provisioning of the account. No single state shows this; runs do. */
module TenancyHistory {
  import opened Common
  import opened Tenancy
  import opened TenancyMachine
  import opened TenancyInvariants
  import opened TenancyRuns
  import opened TenancyEvolution
  import S = TenancySteps

  // ---- No silent adoption

  /** `joins` are the joining actions users took themselves; `homes` says which
      organization's identity provider created an account, if one did. */
  datatype History = History(joins: set<Seat>, homes: map<Id, Id>)

  const BLANK := History({}, map[])

  /** A user creates an organization, accepts its invitation, asks to join it or joins it. */
  ghost function JoinOf(db: Tables, a: Action): set<Seat> {
    if Step(db, a).reply != S.Done then {}
    else
      match a
      case OnOrganization(CreateOrganization(u, _, _, _)) => {(u, db.nextId)}
      case OnInvite(Accept(u, i, _, _)) => if i in db.invitations then {(u, db.invitations[i].org)} else {}
      case OnSeat(RequestAccess(u, o)) => {(u, o)}
      case _ => {}
  }

  /** The account a SAML or SCIM step creates belongs to that connection's organization. */
  ghost function HomeOf(db: Tables, a: Action): map<Id, Id> {
    match a
    case OnIdentity(b) =>
      if IdentitySeat(db, b).Some? && db.nextId in Step(db, a).db.users && db.nextId !in db.users
      then map[db.nextId := IdentitySeat(db, b).value.1]
      else map[]
    case _ => map[]
  }

  ghost function Record(h: History, db: Tables, a: Action): History {
    History(h.joins + JoinOf(db, a), h.homes + HomeOf(db, a))
  }

  /** What the run from `db` adds to the history `h`. */
  ghost function Replay(h: History, db: Tables, run: seq<Action>): History
    decreases run
  {
    if run == [] then h else Replay(Record(h, db, run[0]), Step(db, run[0]).db, run[1..])
  }

  ghost predicate Justified(h: History, user: Id, org: Id) {
    (user, org) in h.joins || (user in h.homes && h.homes[user] == org)
  }

  ghost predicate Accounted(ms: map<Id, Membership>, rs: map<Id, JoinRequest>, h: History) {
    && (forall k :: k in ms ==> Justified(h, ms[k].user, ms[k].org))
    && (forall r :: r in rs ==> (rs[r].user, rs[r].org) in h.joins)
  }

  ghost predicate HomesBelow(h: History, next: Id) {
    forall u :: u in h.homes ==> u < next
  }

  lemma UnfoundedWritesNothing(db: Tables, u: Id, privacy: Privacy, logo: bool, ok: bool)
    ensures var r := S.CreateOrganization(db, u, privacy, logo, ok); r.reply != S.Done ==> r.db == db
  {
  }

  lemma UnredeemedWritesNothing(db: Tables, u: Id, i: Id, copy: Invitation, now: Time)
    ensures var r := S.AcceptInvitation(db, u, i, copy, now);
            if r.reply == S.Done then i in db.invitations else r.db == db
  {
  }

  lemma RefusedRequestWritesNothing(db: Tables, u: Id, o: Id)
    ensures var r := S.RequestAccess(db, u, o); r.reply != S.Done ==> r.db == db
  {
  }

  /** A row `later` holds and `db` does not. */
  ghost predicate NewRow(db: Tables, later: Tables, k: Id, seat: Seat) {
    k !in db.memberships && k in later.memberships && later.memberships[k].user == seat.0 && later.memberships[k].org == seat.1
  }

  lemma FoundedSeatIsJoined(db: Tables, b: OrganizationAction, k: Id, seat: Seat)
    requires Inv(db) && NewRow(db, OrganizationStep(db, b).db, k, seat)
    ensures seat in JoinOf(db, OnOrganization(b))
  {
    OrganizationStepEvolves(db, b);
    if b.CreateOrganization? {
      hide Inv, S.CreateOrganization;
      UnfoundedWritesNothing(db, b.user, b.privacy, b.logo, b.valid);
    }
  }

  lemma AcceptedSeatIsJoined(db: Tables, b: InviteAction, k: Id, seat: Seat)
    requires Inv(db) && NewRow(db, InviteStep(db, b).db, k, seat)
    ensures seat in JoinOf(db, OnInvite(b))
  {
    hide Inv, S.AcceptInvitation, S.Invite, S.DeclineInvitation, S.RevokeInvitation, S.ResendInvitation, S.PurgeInvitations;
    InviteStepEvolves(db, b);
    assert InviteSeat(db, b) == Some(seat);
    UnredeemedWritesNothing(db, b.user, b.invitation, b.copy, b.now);
  }

  lemma RequestedSeatIsJoined(db: Tables, b: SeatAction, k: Id, seat: Seat)
    requires Inv(db) && NewRow(db, SeatStep(db, b).db, k, seat)
    ensures seat in JoinOf(db, OnSeat(b)) || (exists r :: r in db.requests && seat == (db.requests[r].user, db.requests[r].org))
  {
    SeatStepEvolves(db, b);
    if b.RequestAccess? {
      hide Inv, S.RequestAccess;
      RefusedRequestWritesNothing(db, b.user, b.org);
    }
  }

  lemma NewUserIsThere(db: Tables, b: IdentityAction, k: Id)
    requires Inv(db) && k in IdentityStep(db, b).db.memberships
    ensures db.nextId !in db.users && IdentityStep(db, b).db.memberships[k].user in IdentityStep(db, b).db.users
  {
    hide IdentityStep;
    IdentityStepKeepsInv(db, b);
    var later := IdentityStep(db, b).db;
    assert MembersRefer(later.memberships, later.orgs, later.users);
  }

  lemma ProvisionedSeatIsHome(db: Tables, b: IdentityAction, k: Id, seat: Seat)
    requires Inv(db) && NewRow(db, IdentityStep(db, b).db, k, seat)
    ensures HomeOf(db, OnIdentity(b)) == map[seat.0 := seat.1]
  {
    hide Inv, IdentityStep;
    IdentityStepEvolves(db, b);
    NewUserIsThere(db, b, k);
  }

  /** A row the step adds is justified by the step itself, or by the request it approves. */
  lemma NewSeatIsJustified(db: Tables, h: History, a: Action, k: Id, seat: Seat)
    requires Inv(db) && Accounted(db.memberships, db.requests, h)
    requires NewRow(db, Step(db, a).db, k, seat)
    ensures Justified(Record(h, db, a), seat.0, seat.1)
  {
    hide Inv, JoinOf, HomeOf, OrganizationStep, SeatStep, InviteStep, IdentityStep;
    match a
    case OnOrganization(b) => FoundedSeatIsJoined(db, b, k, seat);
    case OnSeat(b) => RequestedSeatIsJoined(db, b, k, seat);
    case OnInvite(b) => AcceptedSeatIsJoined(db, b, k, seat);
    case OnIdentity(b) => ProvisionedSeatIsHome(db, b, k, seat);
    case OnAccount(b) => AccountStepEvolves(db, b);
  }

  /** A request the step files is a joining action of its user. */
  lemma NewRequestIsJoined(db: Tables, a: Action, r: Id)
    requires r in Step(db, a).db.requests
    ensures var row := Step(db, a).db.requests[r];
            || (r in db.requests && db.requests[r].org == row.org && db.requests[r].user == row.user)
            || (row.user, row.org) in JoinOf(db, a)
  {
    StepAdvances(db, a);
    if a.OnSeat? && a.seat.RequestAccess? {
      hide S.RequestAccess;
      RefusedRequestWritesNothing(db, a.seat.user, a.seat.org);
    }
  }

  lemma StepKeepsRowsAccounted(db: Tables, h: History, a: Action)
    requires Inv(db) && Accounted(db.memberships, db.requests, h) && HomesBelow(h, db.nextId)
    ensures forall k :: k in Step(db, a).db.memberships ==>
              Justified(Record(h, db, a), Step(db, a).db.memberships[k].user, Step(db, a).db.memberships[k].org)
  {
    StepEvolves(db, a);
    hide Inv, Step, JoinOf;
    forall k | k in Step(db, a).db.memberships
      ensures Justified(Record(h, db, a), Step(db, a).db.memberships[k].user, Step(db, a).db.memberships[k].org)
    {
      var m := Step(db, a).db.memberships[k];
      if k !in db.memberships {
        NewSeatIsJustified(db, h, a, k, (m.user, m.org));
      }
    }
  }

  lemma StepKeepsHomesBelow(db: Tables, h: History, a: Action)
    requires Inv(db) && HomesBelow(h, db.nextId)
    ensures HomesBelow(Record(h, db, a), Step(db, a).db.nextId)
  {
    hide Step, JoinOf;
    StepKeepsInv(db, a);
    StepAdvances(db, a);
    var later := Step(db, a).db;
    assert Below(later.users, later.nextId);
    hide Inv;
  }

  lemma StepKeepsAccounted(db: Tables, h: History, a: Action)
    requires Inv(db) && Accounted(db.memberships, db.requests, h) && HomesBelow(h, db.nextId)
    ensures var (later, h') := (Step(db, a).db, Record(h, db, a));
            Accounted(later.memberships, later.requests, h')
  {
    hide Step, JoinOf, HomeOf, Inv;
    StepKeepsRowsAccounted(db, h, a);
    var later := Step(db, a).db;
    forall r | r in later.requests ensures (later.requests[r].user, later.requests[r].org) in Record(h, db, a).joins {
      NewRequestIsJoined(db, a, r);
    }
  }

  lemma {:induction false} RunKeepsAccounted(db: Tables, h: History, run: seq<Action>)
    requires Inv(db) && Accounted(db.memberships, db.requests, h) && HomesBelow(h, db.nextId)
    ensures var (later, h') := (Run(db, run), Replay(h, db, run)); Accounted(later.memberships, later.requests, h')
    decreases run
  {
    hide Inv, Accounted, Record, HomesBelow;
    if run != [] {
      StepKeepsInv(db, run[0]);
      StepKeepsAccounted(db, h, run[0]);
      StepKeepsHomesBelow(db, h, run[0]);
      RunKeepsAccounted(Step(db, run[0]).db, Record(h, db, run[0]), run[1..]);
    }
  }

  /** Step `i` of the run from `db` is `u`'s own joining action for `o`, or `o`'s
      identity provider creating the account `u`. */
  ghost predicate Entered(db: Tables, run: seq<Action>, i: nat, u: Id, o: Id)
    requires i < |run|
  {
    var before := Run(db, run[..i]);
    (u, o) in JoinOf(before, run[i]) || HomeOf(before, run[i]) == map[u := o]
  }

  lemma {:induction false} ReplayIsTheRun(h: History, db: Tables, run: seq<Action>, u: Id, o: Id)
    requires Justified(Replay(h, db, run), u, o)
    ensures Justified(h, u, o) || exists i: nat :: i < |run| && Entered(db, run, i, u, o)
    decreases run
  {
    hide Step, JoinOf;
    if run != [] {
      var db1, rest := Step(db, run[0]).db, run[1..];
      ReplayIsTheRun(Record(h, db, run[0]), db1, rest, u, o);
      if !Justified(Record(h, db, run[0]), u, o) {
        var i: nat :| i < |rest| && Entered(db1, rest, i, u, o);
        assert run[..i + 1][1..] == rest[..i];
        assert Entered(db, run, i + 1, u, o);
      } else if !Justified(h, u, o) {
        assert run[..0] == [];
        assert Entered(db, run, 0, u, o);
      }
    }
  }

  /** Nobody becomes a member of an organization behind their back: behind every
      membership stands the member's own step, or an account the organization's
      identity provider created itself. */
  lemma NoSilentAdoption(run: seq<Action>, k: Id)
    requires k in Run(EMPTY, run).memberships
    ensures var m := Run(EMPTY, run).memberships[k];
            exists i: nat :: i < |run| && Entered(EMPTY, run, i, m.user, m.org)
  {
    hide Step, Record, JoinOf, HomeOf, Run, Replay;
    RunKeepsAccounted(EMPTY, BLANK, run);
    var m := Run(EMPTY, run).memberships[k];
    ReplayIsTheRun(BLANK, EMPTY, run, m.user, m.org);
  }
}
