/** Two reachable states, step by step: a redacted user in an active seat, and a banned user
    with a session. */
module TenancyExample {
  import opened Common
  import opened Tenancy
  import opened TenancyMachine
  import opened TenancyRedacted
  import opened TenancySignIn
  import S = TenancySteps

  const ANN := User("a", false, None, false)
  const BEN := User("b", false, None, false)
  const OPEN := Organization(0, None, Public, true, false)
  const GUARDED := Organization(0, None, Restricted, true, false)
  const ANNS_SEAT := Membership(1, 0, Admin, None, ByInvitation)
  const BENS_SEAT := Membership(1, 3, Member, None, ByInvitation)
  const ANNS_OTHER := Membership(5, 0, Admin, None, ByInvitation)
  const BENS_OTHER := Membership(5, 3, Member, None, ByInvitation)

  const AFTER_SIGN_UP := EMPTY.(users := map[0 := ANN], nextId := 1)
  const AFTER_FOUNDING := AFTER_SIGN_UP.(orgs := map[1 := OPEN], memberships := map[2 := ANNS_SEAT], nextId := 3)
  const AFTER_BEN := AFTER_FOUNDING.(users := map[0 := ANN, 3 := BEN], nextId := 4)
  const AFTER_JOINING := AFTER_BEN.(memberships := map[2 := ANNS_SEAT, 4 := BENS_SEAT], nextId := 5)
  const AFTER_SECOND := AFTER_JOINING.(orgs := map[1 := OPEN, 5 := GUARDED],
                                       memberships := map[2 := ANNS_SEAT, 4 := BENS_SEAT, 6 := ANNS_OTHER], nextId := 7)
  const AFTER_ASKING := AFTER_SECOND.(requests := map[7 := JoinRequest(5, 3, false, None)], nextId := 8)
  const AFTER_SIGN_IN := AFTER_ASKING.(logins := Logins(map[8 := 3], map[], map[]), nextId := 9)

  lemma PlainAddresses()
    ensures Canonical("a") == "a" && Canonical("b") == "b"
  {
    assert StripLeft("a") == "a" && StripRight("a") == "a" && StripLeft("b") == "b" && StripRight("b") == "b";
    assert Downcase("a") == "a" && Downcase("b") == "b";
  }

  lemma AnnSignsUp()
    ensures Step(EMPTY, OnAccount(SignUp("a", true))).db == AFTER_SIGN_UP
  {
    PlainAddresses();
    hide Canonical;
  }

  lemma AnnFounds()
    ensures Step(AFTER_SIGN_UP, OnOrganization(CreateOrganization(0, Public, true, true))).db == AFTER_FOUNDING
  {
    var db1 := AFTER_SIGN_UP.(orgs := map[1 := OPEN], nextId := 2);
    assert AFTER_SIGN_UP.orgs[1 := OPEN] == map[1 := OPEN];
    assert ValidNew(db1, ANNS_SEAT);
    assert db1.memberships[2 := ANNS_SEAT] == map[2 := ANNS_SEAT];
  }

  lemma BenSignsUp()
    ensures Step(AFTER_FOUNDING, OnAccount(SignUp("b", true))).db == AFTER_BEN
  {
    PlainAddresses();
    hide Canonical;
    assert !EmailTaken(AFTER_FOUNDING.users, "b");
    assert AFTER_FOUNDING.users[3 := BEN] == map[0 := ANN, 3 := BEN];
  }

  lemma BenJoins()
    ensures Step(AFTER_BEN, OnSeat(RequestAccess(3, 1))).db == AFTER_JOINING
  {
    assert !S.Participant(AFTER_BEN.memberships, 1, 3);
    assert FindMembership(AFTER_BEN.memberships, 1, 3) == None;
    assert ValidNew(AFTER_BEN, BENS_SEAT);
    assert AFTER_BEN.memberships[4 := BENS_SEAT] == map[2 := ANNS_SEAT, 4 := BENS_SEAT];
  }

  lemma AnnFoundsAgain()
    ensures Step(AFTER_JOINING, OnOrganization(CreateOrganization(0, Restricted, true, true))).db == AFTER_SECOND
  {
    var db1 := AFTER_JOINING.(orgs := map[1 := OPEN, 5 := GUARDED], nextId := 6);
    assert AFTER_JOINING.orgs[5 := GUARDED] == map[1 := OPEN, 5 := GUARDED];
    assert ValidNew(db1, ANNS_OTHER);
    assert db1.memberships[6 := ANNS_OTHER] == map[2 := ANNS_SEAT, 4 := BENS_SEAT, 6 := ANNS_OTHER];
  }

  lemma BenAsks()
    ensures Step(AFTER_SECOND, OnSeat(RequestAccess(3, 5))).db == AFTER_ASKING
  {
    assert !S.Participant(AFTER_SECOND.memberships, 5, 3);
    assert !S.Requested(AFTER_SECOND.requests, 5, 3);
    assert AFTER_SECOND.requests[7 := JoinRequest(5, 3, false, None)] == map[7 := JoinRequest(5, 3, false, None)];
  }

  lemma BenSignsIn()
    ensures Step(AFTER_ASKING, OnAccount(PassFirstFactor(3, Code, 0))).db == AFTER_SIGN_IN
  {
    assert AFTER_ASKING.logins.sessions[8 := 3] == map[8 := 3];
  }

  /** What the rest of the story needs of the tables when Ben has closed his account. */
  ghost predicate BenIsGone(db: Tables) {
    && 0 in db.users && 3 in db.users && Redacted(db.users[3])
    && db.orgs == AFTER_SIGN_IN.orgs && db.requests == AFTER_SIGN_IN.requests && db.nextId == 9
    && 6 in db.memberships && db.memberships[6] == ANNS_OTHER && Unclaimed(db.memberships, None, BENS_OTHER)
  }

  lemma BenLeavesTraces()
    ensures RetainedFootprint(S.SignedOut(AFTER_SIGN_IN, 3, 8), 3)
  {
    assert 4 in S.ActiveSeats(AFTER_SIGN_IN.memberships, 3);
    assert 4 in S.SignedOut(AFTER_SIGN_IN, 3, 8).files.audited;
  }

  lemma BenOwnsNothing()
    ensures Deletable(AFTER_SIGN_IN, 3)
  {
    assert AFTER_SIGN_IN.memberships[4] == BENS_SEAT && !BENS_SEAT.role.Admin?;
  }

  /** The same before he closes it, with what closing asks of the tables. */
  ghost predicate BenIsHere(db: Tables) {
    && 0 in db.users && 3 in db.users && !Redacted(db.users[3]) && Deletable(db, 3)
    && (forall u :: u in db.users ==> db.users[u].email != RedactedEmail(3))
    && db.orgs == AFTER_SIGN_IN.orgs && db.requests == AFTER_SIGN_IN.requests && db.nextId == 9
    && 6 in db.memberships && db.memberships[6] == ANNS_OTHER && Unclaimed(db.memberships, None, BENS_OTHER)
  }

  lemma BenSignsOut()
    ensures BenIsHere(S.SignedOut(AFTER_SIGN_IN, 3, 8))
  {
    BenOwnsNothing();
    assert Deletable(S.SignedOut(AFTER_SIGN_IN, 3, 8), 3);
    assert |RedactedEmail(3)| > 1;
    hide Deletable, RedactedEmail;
  }

  lemma BenIsRedacted(db: Tables)
    requires BenIsHere(db)
    ensures BenIsGone(S.Redact(db, 3, 0).db)
  {
    hide Deletable, RedactedEmail;
  }

  lemma BenCloses()
    ensures BenIsGone(Step(AFTER_SIGN_IN, OnAccount(CloseAccount(3, 8, 0))).db)
  {
    BenLeavesTraces();
    BenOwnsNothing();
    BenSignsOut();
    hide Deletable, RetainedFootprint, S.Redact, BenIsHere, BenIsGone;
    BenIsRedacted(S.SignedOut(AFTER_SIGN_IN, 3, 8));
  }

  lemma AnnApproves(db: Tables)
    requires BenIsGone(db)
    ensures RedactedSeat(Step(db, OnSeat(Approve(6, 7))).db, 9)
  {
    assert S.MayDecide(db, 6, 7);
    var row := db.requests[7].(approved := true, completedBy := Some(0));
    var db1 := db.(requests := db.requests[7 := row]);
    assert FindMembership(db1.memberships, 5, 3) == None;
    assert ValidNew(db1, BENS_OTHER);
    hide ValidNew, S.MayDecide;
    assert S.Admit(db1, 5, 3).db == db1.(memberships := db1.memberships[9 := BENS_OTHER], nextId := 10);
  }

  lemma RunFirst(db: Tables, a: Action, rest: seq<Action>)
    ensures Run(db, [a] + rest) == Run(Step(db, a).db, rest)
  {
    assert ([a] + rest)[1..] == rest;
  }

  /** Ann founds two organizations, Ben joins one and asks to join the other, closes his
      account, and is then approved. */
  const STORY: seq<Action> :=
    [OnAccount(SignUp("a", true))] + ([OnOrganization(CreateOrganization(0, Public, true, true))] + (
    [OnAccount(SignUp("b", true))] + ([OnSeat(RequestAccess(3, 1))] + (
    [OnOrganization(CreateOrganization(0, Restricted, true, true))] + ([OnSeat(RequestAccess(3, 5))] + (
    [OnAccount(PassFirstFactor(3, Code, 0))] + ([OnAccount(CloseAccount(3, 8, 0))] + ([OnSeat(Approve(6, 7))] + []))))))))

  /** "A redacted user never holds an active seat" is false of a reachable state. */
  lemma RedactedSeatIsReachable()
    ensures RedactedSeat(Run(EMPTY, STORY), 9)
  {
    AnnSignsUp();
    AnnFounds();
    BenSignsUp();
    BenJoins();
    AnnFoundsAgain();
    BenAsks();
    BenSignsIn();
    BenCloses();
    AnnApproves(Step(AFTER_SIGN_IN, OnAccount(CloseAccount(3, 8, 0))).db);
    hide RedactedSeat, BenIsGone, Step;
    var r9 := [OnSeat(Approve(6, 7))] + [];
    var r8 := [OnAccount(CloseAccount(3, 8, 0))] + r9;
    var r7 := [OnAccount(PassFirstFactor(3, Code, 0))] + r8;
    var r6 := [OnSeat(RequestAccess(3, 5))] + r7;
    var r5 := [OnOrganization(CreateOrganization(0, Restricted, true, true))] + r6;
    var r4 := [OnSeat(RequestAccess(3, 1))] + r5;
    var r3 := [OnAccount(SignUp("b", true))] + r4;
    var r2 := [OnOrganization(CreateOrganization(0, Public, true, true))] + r3;
    RunFirst(EMPTY, OnAccount(SignUp("a", true)), r2);
    RunFirst(AFTER_SIGN_UP, OnOrganization(CreateOrganization(0, Public, true, true)), r3);
    RunFirst(AFTER_FOUNDING, OnAccount(SignUp("b", true)), r4);
    RunFirst(AFTER_BEN, OnSeat(RequestAccess(3, 1)), r5);
    RunFirst(AFTER_JOINING, OnOrganization(CreateOrganization(0, Restricted, true, true)), r6);
    RunFirst(AFTER_SECOND, OnSeat(RequestAccess(3, 5)), r7);
    RunFirst(AFTER_ASKING, OnAccount(PassFirstFactor(3, Code, 0)), r8);
    RunFirst(AFTER_SIGN_IN, OnAccount(CloseAccount(3, 8, 0)), r9);
    RunFirst(Step(AFTER_SIGN_IN, OnAccount(CloseAccount(3, 8, 0))).db, OnSeat(Approve(6, 7)), []);
  }

  // ---- A ban between the two factors

  const GUARDED_ANN := User("a", false, None, true)
  const BANNED_ANN := User("a", true, None, true)
  const ENROLLED := AFTER_SIGN_UP.(users := map[0 := GUARDED_ANN])
  const HALF_WAY := ENROLLED.(logins := Logins(map[], map[], map[1 := Ticket(0, Code, 5 * MINUTE)]), nextId := 2)
  const BANNED := HALF_WAY.(users := map[0 := BANNED_ANN])

  lemma AnnEnrols()
    ensures Step(AFTER_SIGN_UP, OnAccount(SetTwoFactor(0, true))).db == ENROLLED
  {
    assert AFTER_SIGN_UP.users[0 := GUARDED_ANN] == map[0 := GUARDED_ANN];
  }

  lemma AnnTypesHerCode()
    ensures Step(ENROLLED, OnAccount(PassFirstFactor(0, Code, 0))).db == HALF_WAY
  {
    assert ENROLLED.logins.tickets[1 := Ticket(0, Code, 5 * MINUTE)] == map[1 := Ticket(0, Code, 5 * MINUTE)];
  }

  lemma AnnIsBanned()
    ensures Step(HALF_WAY, OnAccount(Ban(0, true))).db == BANNED
  {
    assert HALF_WAY.users[0 := BANNED_ANN] == map[0 := BANNED_ANN];
    assert Keep(HALF_WAY.logins.sessions, (v: Id) => v != 0) == map[];
  }

  lemma AnnConfirms()
    ensures BannedSession(Step(BANNED, OnAccount(ConfirmSecondFactor(1, true, 0))).db, 2)
  {
  }

  const BAN: seq<Action> :=
    [OnAccount(SignUp("a", true))] + ([OnAccount(SetTwoFactor(0, true))] + ([OnAccount(PassFirstFactor(0, Code, 0))] + (
    [OnAccount(Ban(0, true))] + ([OnAccount(ConfirmSecondFactor(1, true, 0))] + []))))

  /** "A banned user has no session" is false of a reachable state. */
  lemma BannedSessionIsReachable()
    ensures BannedSession(Run(EMPTY, BAN), 2)
  {
    AnnSignsUp();
    AnnEnrols();
    AnnTypesHerCode();
    AnnIsBanned();
    AnnConfirms();
    hide BannedSession, Step;
    var r5 := [OnAccount(ConfirmSecondFactor(1, true, 0))] + [];
    var r4 := [OnAccount(Ban(0, true))] + r5;
    var r3 := [OnAccount(PassFirstFactor(0, Code, 0))] + r4;
    var r2 := [OnAccount(SetTwoFactor(0, true))] + r3;
    RunFirst(EMPTY, OnAccount(SignUp("a", true)), r2);
    RunFirst(AFTER_SIGN_UP, OnAccount(SetTwoFactor(0, true)), r3);
    RunFirst(ENROLLED, OnAccount(PassFirstFactor(0, Code, 0)), r4);
    RunFirst(HALF_WAY, OnAccount(Ban(0, true)), r5);
    RunFirst(BANNED, OnAccount(ConfirmSecondFactor(1, true, 0)), []);
  }
}
