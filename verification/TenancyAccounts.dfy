/** Accounts over runs: a redacted account has no session and never bears a personal address,
    and addresses are stored in one spelling. */
module TenancyAccounts {
  import opened Common
  import opened Tenancy
  import opened TenancyMachine
  import opened TenancyInvariants
  import opened TenancyRuns
  import S = TenancySteps

  // ---- One spelling of an address

  predicate NoSpaceAround(s: string) {
    s != "" ==> !IsSpace(s[0]) && !IsSpace(s[|s| - 1])
  }

  lemma {:induction false} StripLeftStarts(s: string)
    ensures StripLeft(s) != "" ==> !IsSpace(StripLeft(s)[0])
  {
    if s != "" && IsSpace(s[0]) {
      StripLeftStarts(s[1..]);
    }
  }

  lemma {:induction false} StripRightKeepsStart(s: string)
    ensures StripRight(s) != "" ==> s != "" && StripRight(s)[0] == s[0] && !IsSpace(StripRight(s)[|StripRight(s)| - 1])
  {
    if s != "" && IsSpace(s[|s| - 1]) {
      StripRightKeepsStart(s[..|s| - 1]);
    }
  }

  lemma LowerKeepsSpace(c: char)
    ensures IsSpace(LowerChar(c)) <==> IsSpace(c)
    ensures LowerChar(LowerChar(c)) == LowerChar(c)
  {
  }

  lemma SpaceFreeStays(s: string)
    requires NoSpaceAround(s)
    ensures Strip(s) == s
  {
  }

  /** The stored form of a stored address is itself. */
  lemma CanonicalTwice(email: string)
    ensures Canonical(Canonical(email)) == Canonical(email)
  {
    var s := Strip(email);
    StripLeftStarts(email);
    StripRightKeepsStart(StripLeft(email));
    assert NoSpaceAround(s);
    var low := Downcase(s);
    forall i | 0 <= i < |low| ensures LowerChar(low[i]) == low[i] && (IsSpace(low[i]) <==> IsSpace(s[i])) { LowerKeepsSpace(s[i]); }
    SpaceFreeStays(low);
    assert Downcase(low) == low;
  }

  predicate LowercaseText(s: string) {
    forall i :: 0 <= i < |s| ==> LowerChar(s[i]) == s[i] && !IsSpace(s[i])
  }

  lemma {:induction false} DecimalIsText(n: nat)
    ensures LowercaseText(Decimal(n)) && Decimal(n) != ""
    ensures forall c :: c in Decimal(n) ==> IsDigit(c)
  {
    if n >= 10 {
      DecimalIsText(n / 10);
    }
  }

  lemma TextIsCanonical(s: string)
    requires LowercaseText(s)
    ensures Canonical(s) == s
  {
    assert NoSpaceAround(s);
    SpaceFreeStays(s);
    assert Downcase(s) == s;
  }

  lemma TextOfTwo(a: string, b: string)
    requires LowercaseText(a) && LowercaseText(b)
    ensures LowercaseText(a + b)
  {
  }

  lemma RedactedIsCanonical(u: Id)
    ensures Canonical(RedactedEmail(u)) == RedactedEmail(u) != ""
  {
    DecimalIsText(u);
    TextOfTwo("redacted-", Decimal(u));
    TextOfTwo("redacted-" + Decimal(u), "@users.moneygun.invalid");
    TextIsCanonical(RedactedEmail(u));
  }

  lemma {:induction false} DecimalIsInjective(m: nat, n: nat)
    requires Decimal(m) == Decimal(n)
    ensures m == n
  {
    var (a, b) := (Decimal(m), Decimal(n));
    DecimalIsText(m / 10);
    DecimalIsText(n / 10);
    assert a[|a| - 1] == b[|b| - 1];
    if m >= 10 && n >= 10 {
      assert a[..|a| - 1] == Decimal(m / 10) && b[..|b| - 1] == Decimal(n / 10);
      DecimalIsInjective(m / 10, n / 10);
    }
  }

  /** Two redacted accounts never bear the same address. */
  lemma RedactedAddressesDiffer(u: Id, v: Id)
    requires RedactedEmail(u) == RedactedEmail(v)
    ensures u == v
  {
    var (x, y) := (RedactedEmail(u), RedactedEmail(v));
    var tail := "@users.moneygun.invalid";
    assert x == ("redacted-" + Decimal(u)) + tail && y == ("redacted-" + Decimal(v)) + tail;
    assert x[9..|x| - |tail|] == Decimal(u) && y[9..|y| - |tail|] == Decimal(v);
    DecimalIsInjective(u, v);
  }

  // ---- What every step keeps

  /** A stored address is in its stored form; a redacted account's is the placeholder, and its
      second factor is off. */
  ghost predicate Addressed(us: map<Id, User>) {
    forall u :: u in us ==>
      && Canonical(us[u].email) == us[u].email != ""
      && (us[u].redactedAt.Some? ==> us[u].email == RedactedEmail(u) && !us[u].twoFactor)
  }

  /** Every session is one of a user who is not redacted. */
  ghost predicate Entitled(us: map<Id, User>, sessions: map<Id, Id>) {
    forall s :: s in sessions ==> sessions[s] in us && us[sessions[s]].redactedAt == None
  }

  ghost predicate AccountsInOrder(db: Tables) {
    Addressed(db.users) && Entitled(db.users, db.logins.sessions)
  }

  /** Users and sessions go, or stay as they are, and no session outlives its user. */
  lemma FewerInOrder(db: Tables, later: Tables)
    requires AccountsInOrder(db)
    requires Subtable(later.users, db.users) && Subtable(later.logins.sessions, db.logins.sessions)
    requires forall s :: s in later.logins.sessions ==> later.logins.sessions[s] in later.users
    ensures AccountsInOrder(later)
  {
  }

  lemma NewUserInOrder(db: Tables, email: string, later: Tables)
    requires AccountsInOrder(db) && Fresh(db) && Canonical(email) != ""
    requires later.users == db.users[db.nextId := User(Canonical(email), false, None, false)] && later.logins == db.logins
    ensures AccountsInOrder(later)
  {
    CanonicalTwice(email);
    hide Canonical;
    assert db.nextId !in db.users;
  }

  lemma ChangeEmailInOrder(db: Tables, u: Id, session: Id, email: string, valid: bool)
    requires AccountsInOrder(db)
    ensures AccountsInOrder(S.ChangeEmail(db, u, session, email, valid).db)
  {
    CanonicalTwice(email);
    hide Canonical, EmailTaken;
  }

  lemma RedactInOrder(db: Tables, u: Id, now: Time)
    requires AccountsInOrder(db) && u in db.users
    ensures AccountsInOrder(S.Redact(db, u, now).db)
  {
    RedactedIsCanonical(u);
    hide Canonical, RedactedEmail, Deletable;
  }

  lemma DropUsersInOrder(db: Tables, us: set<Id>)
    requires AccountsInOrder(db)
    ensures AccountsInOrder(S.DropUsers(db, us))
  {
    FewerInOrder(db, S.DropUsers(db, us));
  }

  lemma SignedOutInOrder(db: Tables, u: Id, session: Id)
    requires AccountsInOrder(db)
    ensures AccountsInOrder(S.SignedOut(db, u, session)) && S.SignedOut(db, u, session).users == db.users
  {
    FewerInOrder(db, S.SignedOut(db, u, session));
    hide AccountsInOrder;
  }

  lemma DestroyUserInOrder(db: Tables, u: Id)
    requires AccountsInOrder(db)
    ensures AccountsInOrder(S.DestroyUser(db, u).db)
  {
    DropUsersInOrder(db, {u});
    hide AccountsInOrder, S.DropUsers, S.Destroyable;
  }

  lemma CloseAccountInOrder(db: Tables, u: Id, session: Id, now: Time)
    requires AccountsInOrder(db)
    ensures AccountsInOrder(S.CloseAccount(db, u, session, now).db)
  {
    hide AccountsInOrder, S.SignedOut, S.Redact, S.DestroyUser, Deletable, RetainedFootprint;
    if u in db.users {
      SignedOutInOrder(db, u, session);
      RedactInOrder(S.SignedOut(db, u, session), u, now);
      DestroyUserInOrder(S.SignedOut(db, u, session), u);
    }
  }

  lemma FlagsInOrder(db: Tables, a: AccountAction)
    requires AccountsInOrder(db) && (a.Ban? || a.SetTwoFactor? || a.EndSession? || a.SendMagicLink?)
    ensures AccountsInOrder(AccountStep(db, a).db)
  {
    hide Canonical, RedactedEmail;
  }

  lemma SessionInOrder(db: Tables, u: Id)
    requires AccountsInOrder(db) && u in db.users && db.users[u].redactedAt == None
    ensures AccountsInOrder(S.AddSession(db, u).db)
  {
    hide Canonical, RedactedEmail;
  }

  lemma SignInsInOrder(db: Tables, a: AccountAction)
    requires AccountsInOrder(db) && (a.PassFirstFactor? || a.ConfirmSecondFactor?)
    ensures AccountsInOrder(AccountStep(db, a).db)
  {
    match a
    case PassFirstFactor(u, _, _) =>
      if MaySignIn(db.users, u) { SessionInOrder(db, u); }
      hide S.Proves, Canonical, RedactedEmail, S.AddSession;
    case ConfirmSecondFactor(t, _, _) =>
      if t in db.logins.tickets && db.logins.tickets[t].user in db.users && db.users[db.logins.tickets[t].user].twoFactor {
        SessionInOrder(db, db.logins.tickets[t].user);
      }
      hide S.Backs, Canonical, RedactedEmail, S.AddSession;
  }

  lemma AccountStepInOrder(db: Tables, a: AccountAction)
    requires Fresh(db) && AccountsInOrder(db)
    ensures AccountsInOrder(AccountStep(db, a).db)
  {
    match a
    case SignUp(email, valid) =>
      if S.SignUp(db, email, valid).reply == S.Done { NewUserInOrder(db, email, S.SignUp(db, email, valid).db); }
    case ChangeEmail(u, session, email, valid) => ChangeEmailInOrder(db, u, session, email, valid);
    case CloseAccount(u, session, now) => CloseAccountInOrder(db, u, session, now);
    case PassFirstFactor(_, _, _) => SignInsInOrder(db, a);
    case ConfirmSecondFactor(_, _, _) => SignInsInOrder(db, a);
    case _ => FlagsInOrder(db, a);
  }

  /** Neither accounts nor logins differ. */
  ghost predicate SameAccounts(db: Tables, later: Tables) {
    later.users == db.users && later.logins == db.logins
  }

  lemma SameInOrder(db: Tables, later: Tables)
    requires AccountsInOrder(db) && SameAccounts(db, later)
    ensures AccountsInOrder(later)
  {
  }

  lemma PurgeInOrder(db: Tables, now: Time, start: Id, stop: Option<Id>)
    requires AccountsInOrder(db)
    ensures AccountsInOrder(S.Purge(db, now, start, stop).db)
  {
    var first := S.PurgeOrganizations(db, now, start, stop).db;
    SameInOrder(db, first);
    DropUsersInOrder(first, S.OrphanPrefix(first));
    hide AccountsInOrder, S.PurgePrefix, S.OrphanPrefix, S.Orphans, S.DueBetween, S.DropUsers;
  }

  lemma OrganizationStepSame(db: Tables, a: OrganizationAction)
    requires !a.PurgeJob?
    ensures SameAccounts(db, OrganizationStep(db, a).db)
  {
    hide ValidNew, ValidUpdate;
  }

  lemma AdmitSame(db: Tables, org: Id, user: Id)
    ensures SameAccounts(db, S.Admit(db, org, user).db)
  {
    hide ValidNew, ValidUpdate;
  }

  lemma SeatStepSame(db: Tables, a: SeatAction)
    ensures SameAccounts(db, SeatStep(db, a).db)
  {
    match a
    case RequestAccess(u, o) => AdmitSame(db, o, u); hide S.Admit;
    case Approve(actor, r) =>
      if S.MayDecide(db, actor, r) {
        var row := db.requests[r].(approved := true, completedBy := Some(db.memberships[actor].user));
        AdmitSame(db.(requests := db.requests[r := row]), row.org, row.user);
        hide S.Admit;
      }
    case _ => hide ValidUpdate;
  }

  lemma InviteStepSame(db: Tables, a: InviteAction)
    ensures SameAccounts(db, InviteStep(db, a).db)
  {
    hide ValidUpdate, ValidNew;
  }

  lemma ProvisionInOrder(db: Tables, email: string, m: Membership)
    requires Fresh(db) && AccountsInOrder(db) && Canonical(email) != ""
    ensures AccountsInOrder(S.AddUserWithSeat(db, Canonical(email), m).db)
  {
    var r := S.AddUserWithSeat(db, Canonical(email), m);
    if r.reply == S.Done {
      NewUserInOrder(db, email, r.db);
    }
  }

  lemma DomainlessIsDenied(db: Tables, c: Id)
    ensures !AssertsEmail(db, c, "")
  {
  }

  lemma SignInUserSame(db: Tables, connection: SsoConnection, u: Id)
    requires u in db.users
    ensures SameAccounts(db, S.SignInUser(db, connection, u).db)
  {
    hide ValidUpdate;
  }

  lemma SignOnInOrder(db: Tables, c: Id, asserted: string, ok: bool)
    requires Fresh(db) && AccountsInOrder(db) && c in db.identity.connections
    ensures AccountsInOrder(S.ResolveSignIn(db, c, asserted, ok).db)
  {
    var (connection, email) := (db.identity.connections[c], Canonical(asserted));
    DomainlessIsDenied(db, c);
    hide AccountsInOrder, AssertsEmail, Canonical, S.AddUserWithSeat, S.SignInUser;
    if AssertsEmail(db, c, email) {
      match FindUser(db.users, email)
      case Some(u) =>
        SignInUserSame(db, connection, u);
        SameInOrder(db, S.SignInUser(db, connection, u).db);
      case None => ProvisionInOrder(db, asserted, Membership(connection.org, db.nextId, connection.defaultRole, None, BySso));
    }
  }

  lemma ScimInviteSame(db: Tables, c: Id, email: string, now: Time)
    requires c in db.identity.scim
    ensures SameAccounts(db, S.ScimInvite(db, c, email, now))
  {
  }

  lemma ScimCreateInOrder(db: Tables, c: Id, userName: string, active: Option<bool>, ok: bool, now: Time)
    requires Fresh(db) && AccountsInOrder(db)
    ensures AccountsInOrder(S.ScimCreate(db, c, userName, active, ok, now).db)
  {
    hide AccountsInOrder, Canonical, S.AddUserWithSeat, S.ScimInvite, ValidUpdate;
    if c in db.identity.scim && db.identity.scim[c].enabled && Canonical(userName) != "" {
      var (email, connection) := (Canonical(userName), db.identity.scim[c]);
      match FindUser(db.users, email)
      case None =>
        var deactivatedAt := if active == Some(false) then Some(now) else None;
        ProvisionInOrder(db, userName, Membership(connection.org, db.nextId, connection.defaultRole, deactivatedAt, ByScim));
      case Some(u) =>
        ScimInviteSame(db, c, email, now);
        SameInOrder(db, S.ScimCreate(db, c, userName, active, ok, now).db);
    }
  }

  lemma IdentityStepInOrder(db: Tables, a: IdentityAction)
    requires Fresh(db) && AccountsInOrder(db)
    ensures AccountsInOrder(IdentityStep(db, a).db)
  {
    match a
    case SsoSignIn(c, asserted, ok) => if c in db.identity.connections { SignOnInOrder(db, c, asserted, ok); } hide S.ResolveSignIn;
    case ScimCreate(c, userName, active, ok, now) => ScimCreateInOrder(db, c, userName, active, ok, now);
    case _ =>
      ProviderStepSame(db, a);
      hide IdentityStep;
      SameInOrder(db, IdentityStep(db, a).db);
  }

  lemma ProviderStepSame(db: Tables, a: IdentityAction)
    requires !a.SsoSignIn? && !a.ScimCreate?
    ensures SameAccounts(db, IdentityStep(db, a).db)
  {
    hide ValidUpdate;
  }

  lemma StepInOrder(db: Tables, a: Action)
    requires Fresh(db) && AccountsInOrder(db)
    ensures AccountsInOrder(Step(db, a).db)
  {
    hide AccountsInOrder, Fresh, AccountStep, OrganizationStep, SeatStep, InviteStep, IdentityStep;
    match a
    case OnAccount(b) => AccountStepInOrder(db, b);
    case OnOrganization(b) =>
      if b.PurgeJob? { PurgeJobInOrder(db, b); }
      else { OrganizationStepSame(db, b); SameInOrder(db, OrganizationStep(db, b).db); }
    case OnSeat(b) => SeatStepSame(db, b); SameInOrder(db, SeatStep(db, b).db);
    case OnInvite(b) => InviteStepSame(db, b); SameInOrder(db, InviteStep(db, b).db);
    case OnIdentity(b) => IdentityStepInOrder(db, b);
  }

  lemma PurgeJobInOrder(db: Tables, a: OrganizationAction)
    requires AccountsInOrder(db) && a.PurgeJob?
    ensures AccountsInOrder(OrganizationStep(db, a).db)
  {
    PurgeInOrder(db, a.now, a.start, a.stop);
    hide S.Purge, AccountsInOrder;
  }

  lemma {:induction false} RunInOrder(db: Tables, run: seq<Action>)
    requires Inv(db) && AccountsInOrder(db)
    ensures Inv(Run(db, run)) && AccountsInOrder(Run(db, run))
    decreases run
  {
    hide AccountsInOrder, Step;
    if run != [] {
      assert Fresh(db);
      hide Inv;
      StepKeepsInv(db, run[0]);
      StepInOrder(db, run[0]);
      RunInOrder(Step(db, run[0]).db, run[1..]);
    }
  }

  // ---- The promises

  /** After any run every session belongs to an existing user who is not redacted. */
  lemma RedactedHasNoSession(run: seq<Action>, s: Id)
    requires s in Run(EMPTY, run).logins.sessions
    ensures var db := Run(EMPTY, run);
            db.logins.sessions[s] in db.users && db.users[db.logins.sessions[s]].redactedAt == None
  {
    RunInOrder(EMPTY, run);
    hide Run, Inv;
  }

  /** After any run a redacted account bears its placeholder and never a personal address. */
  lemma RedactedIsAnonymous(run: seq<Action>, u: Id)
    requires u in Run(EMPTY, run).users && Run(EMPTY, run).users[u].redactedAt.Some?
    ensures Run(EMPTY, run).users[u].email == "redacted-" + Decimal(u) + "@users.moneygun.invalid"
  {
    RunInOrder(EMPTY, run);
    hide Run, Inv;
  }

  /** After any run no two accounts have addresses that differ only in case or in the space around them. */
  lemma OneAccountPerSpelling(run: seq<Action>, u: Id, v: Id)
    requires u in Run(EMPTY, run).users && v in Run(EMPTY, run).users
    requires Canonical(Run(EMPTY, run).users[u].email) == Canonical(Run(EMPTY, run).users[v].email)
    ensures u == v
  {
    RunInOrder(EMPTY, run);
    hide Run, Canonical;
  }

  /** Signing up takes a valid address nobody has in any spelling, and adds one account. */
  lemma SignUpCommitsIff(db: Tables, email: string, valid: bool)
    requires Addressed(db.users)
    ensures var r := S.SignUp(db, email, valid);
            if valid && Strip(email) != "" && (forall u :: u in db.users ==> Canonical(db.users[u].email) != Canonical(email))
            then r.reply == S.Done && r.db == db.(users := r.db.users, nextId := db.nextId + 1)
                 && r.db.users == db.users[db.nextId := User(Canonical(email), false, None, false)]
            else r.reply != S.Done && r.db == db
  {
    hide Strip;
  }

  /** An address changes to a valid one nobody else has, from a session of its user; every
      other session of that user ends, and nothing else changes. */
  lemma EmailChangesIff(db: Tables, u: Id, session: Id, email: string, valid: bool)
    requires AccountsInOrder(db) && u in db.users
    ensures var r := S.ChangeEmail(db, u, session, email, valid);
            if db.users[u].redactedAt == None && session in db.logins.sessions && db.logins.sessions[session] == u && valid && Strip(email) != ""
               && (forall v :: v in db.users ==> Canonical(db.users[v].email) != Canonical(email))
            then && r.reply == S.Done && r.db == db.(users := r.db.users, logins := db.logins.(sessions := r.db.logins.sessions))
                 && r.db.users == db.users[u := db.users[u].(email := Canonical(email))]
                 && (forall s :: s in r.db.logins.sessions <==> s in db.logins.sessions && (db.logins.sessions[s] == u ==> s == session))
                 && Subtable(r.db.logins.sessions, db.logins.sessions)
            else r.reply != S.Done && r.db == db
  {
    hide Strip;
  }

  /** A ban ends every session of the user and no other; lifting it starts none. */
  lemma BanEndsSessions(db: Tables, u: Id, banned: bool)
    requires u in db.users
    ensures var later := S.Ban(db, u, banned).db;
            && later == db.(users := db.users[u := db.users[u].(banned := banned)], logins := db.logins.(sessions := later.logins.sessions))
            && Subtable(later.logins.sessions, db.logins.sessions)
            && forall s :: s in db.logins.sessions && s !in later.logins.sessions <==> s in db.logins.sessions && banned && db.logins.sessions[s] == u
  {
  }
}
