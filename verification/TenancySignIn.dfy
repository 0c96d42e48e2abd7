/** Signing in with one factor or two, and what a ban does to it. A ban ends every session; a
    second factor confirmed after it can start one more. */
module TenancySignIn {
  import opened Common
  import opened Tenancy
  import opened TenancyMachine
  import opened TenancyInvariants
  import opened TenancyRuns
  import opened TenancyAccounts
  import S = TenancySteps

  // ---- What each factor takes

  /** The user may authenticate, and proves a code no enabled connection rules out for the
      address, or an assertion an enabled connection backs with the user's active seat. */
  ghost predicate Passes(db: Tables, u: Id, factor: FirstFactor) {
    && u in db.users && !db.users[u].banned && db.users[u].redactedAt == None
    && match factor
       case Code => forall c :: c in db.identity.connections && db.identity.connections[c].enabled && db.identity.connections[c].enforced ==>
                      !AssertsEmail(db, c, db.users[u].email)
       case Assertion(c, k) => StillBacked(db, u, c, k)
  }

  ghost predicate StillBacked(db: Tables, u: Id, c: Id, k: Id) {
    && c in db.identity.connections && db.identity.connections[c].enabled && k in db.memberships
    && db.memberships[k].user == u && db.memberships[k].org == db.identity.connections[c].org && db.memberships[k].deactivatedAt == None
  }

  /** A first factor starts the session of a user without a second one, and otherwise hands out
      a ticket for five minutes; short of that it does nothing. */
  lemma FirstFactorIff(db: Tables, u: Id, factor: FirstFactor, now: Time)
    ensures var r := S.PassFirstFactor(db, u, factor, now);
            if !Passes(db, u, factor) then r == S.Outcome(db, S.NotAllowed)
            else && r.reply == S.Done && r.db == db.(logins := r.db.logins, nextId := db.nextId + 1)
                 && r.db.logins == if db.users[u].twoFactor
                                   then db.logins.(tickets := db.logins.tickets[db.nextId := Ticket(u, factor, now + 5 * MINUTE)])
                                   else db.logins.(sessions := db.logins.sessions[db.nextId := u])
  {
    hide AssertsEmail;
  }

  /** The ticket is not five minutes old yet, its user still has a second factor, and an
      assertion is still backed. Whether the user is banned by now is not asked. */
  ghost predicate Confirmable(db: Tables, t: Id, now: Time) {
    && t in db.logins.tickets && now < db.logins.tickets[t].expiresAt
    && db.logins.tickets[t].user in db.users && db.users[db.logins.tickets[t].user].twoFactor
    && (db.logins.tickets[t].factor.Assertion? ==>
          StillBacked(db, db.logins.tickets[t].user, db.logins.tickets[t].factor.connection, db.logins.tickets[t].factor.membership))
  }

  lemma SecondFactorIff(db: Tables, t: Id, codeOk: bool, now: Time)
    ensures var r := S.ConfirmSecondFactor(db, t, codeOk, now);
            if codeOk && Confirmable(db, t, now)
            then && r.reply == S.Done && r.db == db.(logins := r.db.logins, nextId := db.nextId + 1)
                 && r.db.logins == db.logins.(sessions := db.logins.sessions[db.nextId := db.logins.tickets[t].user])
            else r.reply != S.Done && r.db == db
  {
  }

  // ---- Banned users' sessions

  /** `s` is a session of a user who is banned. */
  ghost predicate BannedSession(db: Tables, s: Id) {
    s in db.logins.sessions && db.logins.sessions[s] in db.users && db.users[db.logins.sessions[s]].banned
  }

  /** The step confirms the second factor of a user who is banned already, and that starts `s`. */
  ghost predicate ConfirmsBanned(db: Tables, a: Action, s: Id) {
    && a.OnAccount? && a.account.ConfirmSecondFactor? && a.account.codeOk && Confirmable(db, a.account.ticket, a.account.now)
    && s == db.nextId && db.users[db.logins.tickets[a.account.ticket].user].banned
  }

  lemma SignInBans(db: Tables, a: AccountAction, s: Id)
    requires Fresh(db) && (a.PassFirstFactor? || a.ConfirmSecondFactor?) && BannedSession(AccountStep(db, a).db, s)
    ensures BannedSession(db, s) || ConfirmsBanned(db, OnAccount(a), s)
  {
    assert db.nextId !in db.logins.sessions;
    hide Fresh;
    match a
    case PassFirstFactor(u, factor, now) => FirstFactorIff(db, u, factor, now); hide S.PassFirstFactor;
    case ConfirmSecondFactor(t, codeOk, now) => SecondFactorIff(db, t, codeOk, now); hide S.ConfirmSecondFactor, StillBacked;
  }

  lemma FlagsBanNone(db: Tables, a: AccountAction, s: Id)
    requires Entitled(db.users, db.logins.sessions) && BannedSession(AccountStep(db, a).db, s)
    requires Fresh(db) && !a.PassFirstFactor? && !a.ConfirmSecondFactor? && !a.CloseAccount?
    ensures BannedSession(db, s)
  {
    assert db.nextId !in db.users;
    hide Fresh, Canonical, EmailTaken;
  }

  lemma ClosingBansNone(db: Tables, u: Id, session: Id, now: Time, s: Id)
    requires BannedSession(S.CloseAccount(db, u, session, now).db, s)
    ensures BannedSession(db, s)
  {
    hide Deletable, RetainedFootprint, S.Destroyable, RedactedEmail;
  }

  lemma AccountStepBans(db: Tables, a: AccountAction, s: Id)
    requires Fresh(db) && Entitled(db.users, db.logins.sessions) && BannedSession(AccountStep(db, a).db, s)
    ensures BannedSession(db, s) || ConfirmsBanned(db, OnAccount(a), s)
  {
    hide Fresh, Entitled, ConfirmsBanned, BannedSession, S.CloseAccount;
    match a
    case CloseAccount(u, session, now) => ClosingBansNone(db, u, session, now, s);
    case _ =>
      hide AccountStep;
      if a.PassFirstFactor? || a.ConfirmSecondFactor? { SignInBans(db, a, s); } else { FlagsBanNone(db, a, s); }
  }

  lemma StepBans(db: Tables, a: Action, s: Id)
    requires Fresh(db) && AccountsInOrder(db) && BannedSession(Step(db, a).db, s)
    ensures BannedSession(db, s) || ConfirmsBanned(db, a, s)
  {
    hide AccountStep, OrganizationStep, SeatStep, InviteStep, IdentityStep, ConfirmsBanned;
    match a
    case OnAccount(b) => AccountStepBans(db, b, s);
    case OnOrganization(b) => OrganizationStepBansNone(db, b, s);
    case OnSeat(b) => SeatStepSame(db, b);
    case OnInvite(b) => InviteStepSame(db, b);
    case OnIdentity(b) =>
      assert db.nextId !in db.users;
      hide Fresh, AccountsInOrder, AccountsStay, BannedSession;
      IdentityStepKeepsAccounts(db, b);
      AccountsStayBansNone(db, IdentityStep(db, b).db, s);
  }

  lemma OrganizationStepBansNone(db: Tables, a: OrganizationAction, s: Id)
    requires BannedSession(OrganizationStep(db, a).db, s)
    ensures BannedSession(db, s)
  {
    match a
    case PurgeJob(now, start, stop) => hide S.PurgePrefix, S.OrphanPrefix, S.Orphans, S.DueBetween, S.DropOrganizations;
      PurgeBansNone(db, now, start, stop, s);
    case _ => OrganizationStepSame(db, a); hide OrganizationStep;
  }

  lemma PurgeBansNone(db: Tables, now: Time, start: Id, stop: Option<Id>, s: Id)
    requires BannedSession(S.Purge(db, now, start, stop).db, s)
    ensures BannedSession(db, s)
  {
    hide S.PurgePrefix, S.OrphanPrefix, S.Orphans, S.DueBetween;
  }

  /** No login differs, and no account that was there. */
  ghost predicate AccountsStay(db: Tables, later: Tables) {
    later.logins == db.logins && forall v :: v in db.users ==> v in later.users && later.users[v] == db.users[v]
  }

  lemma AccountsStayBansNone(db: Tables, later: Tables, s: Id)
    requires Entitled(db.users, db.logins.sessions) && AccountsStay(db, later) && BannedSession(later, s)
    ensures BannedSession(db, s)
  {
  }

  lemma ProvisionKeepsAccounts(db: Tables, email: string, m: Membership)
    requires db.nextId !in db.users
    ensures AccountsStay(db, S.AddUserWithSeat(db, email, m).db)
  {
    hide ValidNew;
  }

  lemma SignOnKeepsAccounts(db: Tables, c: Id, asserted: string, ok: bool)
    requires db.nextId !in db.users
    ensures AccountsStay(db, S.SsoCallback(db, c, asserted, ok).db)
  {
    hide Canonical, AssertsEmail, S.AddUserWithSeat, S.SignInUser;
    if c in db.identity.connections {
      var (connection, email) := (db.identity.connections[c], Canonical(asserted));
      ProvisionKeepsAccounts(db, email, Membership(connection.org, db.nextId, connection.defaultRole, None, BySso));
      var u := FindUser(db.users, email);
      if u.Some? { SignInUserSame(db, connection, u.value); }
    }
  }

  lemma ScimCreateKeepsAccounts(db: Tables, c: Id, userName: string, active: Option<bool>, ok: bool, now: Time)
    requires db.nextId !in db.users
    ensures AccountsStay(db, S.ScimCreate(db, c, userName, active, ok, now).db)
  {
    hide Canonical, S.AddUserWithSeat, S.ScimInvite, ValidUpdate;
    if c in db.identity.scim {
      var (connection, deactivatedAt) := (db.identity.scim[c], if active == Some(false) then Some(now) else None);
      ProvisionKeepsAccounts(db, Canonical(userName), Membership(connection.org, db.nextId, connection.defaultRole, deactivatedAt, ByScim));
      ScimInviteSame(db, c, Canonical(userName), now);
    }
  }

  lemma IdentityStepKeepsAccounts(db: Tables, a: IdentityAction)
    requires db.nextId !in db.users
    ensures AccountsStay(db, IdentityStep(db, a).db)
  {
    hide S.SsoCallback, S.ScimCreate;
    match a
    case SsoSignIn(c, asserted, ok) => SignOnKeepsAccounts(db, c, asserted, ok);
    case ScimCreate(c, userName, active, ok, now) => ScimCreateKeepsAccounts(db, c, userName, active, ok, now);
    case _ => hide IdentityStep; ProviderStepSame(db, a);
  }

  // ---- Over a run

  ghost predicate ConfirmedAt(db: Tables, run: seq<Action>, i: nat, s: Id) {
    i < |run| && ConfirmsBanned(Run(db, run[..i]), run[i], s)
  }

  lemma {:induction false} RunBans(db: Tables, run: seq<Action>, s: Id)
    requires Inv(db) && AccountsInOrder(db) && BannedSession(Run(db, run), s)
    ensures BannedSession(db, s) || exists i: nat :: ConfirmedAt(db, run, i, s)
    decreases run
  {
    assert Fresh(db);
    hide Inv, Fresh, Step, AccountsInOrder, BannedSession, ConfirmsBanned;
    if run != [] {
      var (db1, rest) := (Step(db, run[0]).db, run[1..]);
      StepKeepsInv(db, run[0]);
      StepInOrder(db, run[0]);
      RunBans(db1, rest, s);
      if BannedSession(db1, s) {
        StepBans(db, run[0], s);
        assert run[..0] == [];
        assert BannedSession(db, s) || ConfirmedAt(db, run, 0, s);
      } else {
        var i: nat :| ConfirmedAt(db1, rest, i, s);
        assert run[..i + 1][1..] == rest[..i];
        assert ConfirmedAt(db, run, i + 1, s);
      }
    }
  }

  /** The step passes a first factor, for a user who may authenticate and has a second one, and
      hands out ticket `t`. */
  ghost predicate HandsOut(db: Tables, a: Action, t: Id, ticket: Ticket) {
    && a.OnAccount? && a.account.PassFirstFactor? && t == db.nextId && a.account.user == ticket.user
    && a.account.factor == ticket.factor && ticket.expiresAt == a.account.now + 5 * MINUTE && Passes(db, ticket.user, ticket.factor)
  }

  ghost predicate Holds(db: Tables, t: Id, ticket: Ticket) {
    t in db.logins.tickets && db.logins.tickets[t] == ticket
  }

  lemma AccountStepHandsOut(db: Tables, a: AccountAction, t: Id, ticket: Ticket)
    requires Holds(AccountStep(db, a).db, t, ticket)
    ensures Holds(db, t, ticket) || HandsOut(db, OnAccount(a), t, ticket)
  {
    match a
    case PassFirstFactor(u, factor, now) => FirstFactorIff(db, u, factor, now); hide S.PassFirstFactor, Passes;
    case CloseAccount(u, session, now) => hide Deletable, RetainedFootprint, S.Destroyable, RedactedEmail;
    case _ => hide Canonical, EmailTaken, S.Backs;
  }

  lemma OrganizationStepHandsOutNone(db: Tables, a: OrganizationAction)
    ensures OrganizationStep(db, a).db.logins.tickets == db.logins.tickets
  {
    if a.PurgeJob? {
      hide S.PurgePrefix, S.OrphanPrefix, S.Orphans, S.DueBetween, S.DropOrganizations;
      assert S.PurgeOrganizations(db, a.now, a.start, a.stop).db.logins == db.logins by { PurgeKeepsLogins(db, a); }
    } else {
      OrganizationStepSame(db, a);
      hide OrganizationStep;
    }
  }

  lemma PurgeKeepsLogins(db: Tables, a: OrganizationAction)
    requires a.PurgeJob?
    ensures S.PurgeOrganizations(db, a.now, a.start, a.stop).db.logins == db.logins
  {
  }

  lemma StepHandsOut(db: Tables, a: Action, t: Id, ticket: Ticket)
    requires db.nextId !in db.users && Holds(Step(db, a).db, t, ticket)
    ensures Holds(db, t, ticket) || HandsOut(db, a, t, ticket)
  {
    hide AccountStep, OrganizationStep, SeatStep, InviteStep, IdentityStep, HandsOut;
    match a
    case OnAccount(b) => AccountStepHandsOut(db, b, t, ticket);
    case OnOrganization(b) => OrganizationStepHandsOutNone(db, b);
    case OnSeat(b) => SeatStepSame(db, b);
    case OnInvite(b) => InviteStepSame(db, b);
    case OnIdentity(b) => IdentityStepKeepsAccounts(db, b);
  }

  ghost predicate HandedOutAt(db: Tables, run: seq<Action>, i: nat, t: Id, ticket: Ticket) {
    i < |run| && HandsOut(Run(db, run[..i]), run[i], t, ticket)
  }

  lemma {:induction false} RunHandsOut(db: Tables, run: seq<Action>, t: Id, ticket: Ticket)
    requires Inv(db) && Holds(Run(db, run), t, ticket)
    ensures Holds(db, t, ticket) || exists i: nat :: HandedOutAt(db, run, i, t, ticket)
    decreases run
  {
    assert db.nextId !in db.users;
    hide Inv, Step, Holds, HandsOut;
    if run != [] {
      var (db1, rest) := (Step(db, run[0]).db, run[1..]);
      StepKeepsInv(db, run[0]);
      RunHandsOut(db1, rest, t, ticket);
      if Holds(db1, t, ticket) {
        StepHandsOut(db, run[0], t, ticket);
        assert run[..0] == [];
        assert Holds(db, t, ticket) || HandedOutAt(db, run, 0, t, ticket);
      } else {
        var i: nat :| HandedOutAt(db1, rest, i, t, ticket);
        assert run[..i + 1][1..] == rest[..i];
        assert HandedOutAt(db, run, i + 1, t, ticket);
      }
    }
  }

  /** After any run, a session of a banned user was started by confirming a second factor
      after the ban, less than five minutes after a first factor passed before it; no other
      step starts one, and the ban itself leaves none. */
  lemma BannedSessionWasConfirmed(run: seq<Action>, s: Id)
    requires BannedSession(Run(EMPTY, run), s)
    ensures exists i: nat, j: nat, t: Id, ticket: Ticket ::
              && ConfirmedAt(EMPTY, run, i, s) && run[i].account.ticket == t && j < i
              && HandedOutAt(EMPTY, run[..i], j, t, ticket) && run[i].account.now < run[j].account.now + 5 * MINUTE
  {
    hide Run, Step, ConfirmsBanned, HandsOut;
    RunBans(EMPTY, run, s);
    var i: nat :| ConfirmedAt(EMPTY, run, i, s);
    ConfirmedTicket(Run(EMPTY, run[..i]), run[i], s);
    var t := run[i].account.ticket;
    var ticket := Run(EMPTY, run[..i]).logins.tickets[t];
    RunHandsOut(EMPTY, run[..i], t, ticket);
    var j: nat :| HandedOutAt(EMPTY, run[..i], j, t, ticket);
    HandedOutWhen(Run(EMPTY, run[..i][..j]), run[..i][j], t, ticket);
  }

  lemma ConfirmedTicket(db: Tables, a: Action, s: Id)
    requires ConfirmsBanned(db, a, s)
    ensures a.OnAccount? && a.account.ConfirmSecondFactor? && a.account.ticket in db.logins.tickets
            && a.account.now < db.logins.tickets[a.account.ticket].expiresAt
  {
  }

  lemma HandedOutWhen(db: Tables, a: Action, t: Id, ticket: Ticket)
    requires HandsOut(db, a, t, ticket)
    ensures a.OnAccount? && a.account.PassFirstFactor? && ticket.expiresAt == a.account.now + 5 * MINUTE
  {
  }

  /** Right after a ban the user has no session, and the next step starts one exactly when it
      confirms a ticket the ban has overtaken. */
  lemma BanIsOvertakenIff(db: Tables, u: Id, a: AccountAction)
    requires Inv(db) && AccountsInOrder(db) && u in db.users
    ensures var banned := S.Ban(db, u, true).db;
            && (forall s :: s in banned.logins.sessions ==> banned.logins.sessions[s] != u)
            && ((exists s :: BannedSession(AccountStep(banned, a).db, s) && AccountStep(banned, a).db.logins.sessions[s] == u) <==>
                  a.ConfirmSecondFactor? && a.codeOk && Confirmable(banned, a.ticket, a.now) && banned.logins.tickets[a.ticket].user == u)
  {
    var banned := S.Ban(db, u, true).db;
    BanKeepsInv(db, u, true);
    FlagsInOrder(db, Ban(u, true));
    assert banned == AccountStep(db, Ban(u, true)).db;
    assert Fresh(banned) && Entitled(banned.users, banned.logins.sessions);
    assert forall s :: s in banned.logins.sessions ==> banned.logins.sessions[s] != u;
    BanOvertaken(banned, u, a);
  }

  lemma BanOvertaken(db: Tables, u: Id, a: AccountAction)
    requires Fresh(db) && Entitled(db.users, db.logins.sessions) && u in db.users && db.users[u].banned
    requires forall s :: s in db.logins.sessions ==> db.logins.sessions[s] != u
    ensures (exists s :: BannedSession(AccountStep(db, a).db, s) && AccountStep(db, a).db.logins.sessions[s] == u) <==>
              a.ConfirmSecondFactor? && a.codeOk && Confirmable(db, a.ticket, a.now) && db.logins.tickets[a.ticket].user == u
  {
    if a.ConfirmSecondFactor? {
      SecondFactorIff(db, a.ticket, a.codeOk, a.now);
      if a.codeOk && Confirmable(db, a.ticket, a.now) && db.logins.tickets[a.ticket].user == u {
        assert BannedSession(AccountStep(db, a).db, db.nextId);
      }
      hide S.ConfirmSecondFactor, Confirmable;
    } else {
      NoSessionOf(db, u, a);
      hide AccountStep, Confirmable;
    }
  }

  lemma NoSessionOf(db: Tables, u: Id, a: AccountAction)
    requires Fresh(db) && Entitled(db.users, db.logins.sessions) && u in db.users && db.users[u].banned && !a.ConfirmSecondFactor?
    requires forall s :: s in db.logins.sessions ==> db.logins.sessions[s] != u
    ensures forall s :: BannedSession(AccountStep(db, a).db, s) ==> AccountStep(db, a).db.logins.sessions[s] != u
  {
    forall s | BannedSession(AccountStep(db, a).db, s) ensures AccountStep(db, a).db.logins.sessions[s] != u {
      AccountStepBans(db, a, s);
      SessionsKeepTheirUser(db, a, s);
    }
    hide AccountStep;
  }

  lemma SessionsKeepTheirUser(db: Tables, a: AccountAction, s: Id)
    requires Fresh(db) && s in db.logins.sessions && s in AccountStep(db, a).db.logins.sessions
    ensures AccountStep(db, a).db.logins.sessions[s] == db.logins.sessions[s]
  {
    hide Deletable, RetainedFootprint, S.Destroyable, RedactedEmail, Canonical, S.Proves, S.Backs;
  }

  // ---- What ends a session

  /** Signing out, a ban, an address change from another session of the user, closing the
      account, or its deletion by the purge. */
  ghost predicate Ends(db: Tables, a: Action, s: Id)
    requires s in db.logins.sessions
  {
    var u := db.logins.sessions[s];
    match a
    case OnAccount(EndSession(t)) => t == s
    case OnAccount(Ban(v, banned)) => v == u && banned
    case OnAccount(ChangeEmail(v, t, _, _)) => v == u && t != s && t in db.logins.sessions && db.logins.sessions[t] == u
    case OnAccount(CloseAccount(v, t, _)) => v == u && t in db.logins.sessions && db.logins.sessions[t] == u
    case OnOrganization(PurgeJob(_, _, _)) => u in db.users && db.users[u].redactedAt.Some?
    case _ => false
  }

  lemma ClosingEnds(db: Tables, u: Id, session: Id, now: Time, s: Id)
    requires s in db.logins.sessions && s !in S.CloseAccount(db, u, session, now).db.logins.sessions
    ensures Ends(db, OnAccount(CloseAccount(u, session, now)), s)
  {
    hide Deletable, RetainedFootprint, S.Destroyable, RedactedEmail;
  }

  lemma AccountStepEnds(db: Tables, a: AccountAction, s: Id)
    requires s in db.logins.sessions && s !in AccountStep(db, a).db.logins.sessions
    ensures Ends(db, OnAccount(a), s)
  {
    match a
    case CloseAccount(u, session, now) => ClosingEnds(db, u, session, now, s); hide S.CloseAccount;
    case _ => hide Canonical, EmailTaken, S.Proves, S.Backs;
  }

  lemma PurgeEndsRedacted(db: Tables, now: Time, start: Id, stop: Option<Id>, s: Id)
    requires s in db.logins.sessions && s !in S.Purge(db, now, start, stop).db.logins.sessions
    ensures db.logins.sessions[s] in db.users && db.users[db.logins.sessions[s]].redactedAt.Some?
  {
    hide S.PurgePrefix, S.DueBetween, S.Destroyable;
  }

  /** Nothing but these ends a session. */
  lemma SessionEndsOnlyBy(db: Tables, a: Action, s: Id)
    requires db.nextId !in db.users && s in db.logins.sessions && s !in Step(db, a).db.logins.sessions
    ensures Ends(db, a, s)
  {
    hide AccountStep, OrganizationStep, SeatStep, InviteStep, IdentityStep;
    match a
    case OnAccount(b) => AccountStepEnds(db, b, s);
    case OnOrganization(b) => OrganizationStepEnds(db, b, s);
    case OnSeat(b) => SeatStepSame(db, b);
    case OnInvite(b) => InviteStepSame(db, b);
    case OnIdentity(b) => IdentityStepKeepsAccounts(db, b);
  }

  lemma OrganizationStepEnds(db: Tables, a: OrganizationAction, s: Id)
    requires s in db.logins.sessions && s !in OrganizationStep(db, a).db.logins.sessions
    ensures Ends(db, OnOrganization(a), s)
  {
    if a.PurgeJob? {
      PurgeEndsRedacted(db, a.now, a.start, a.stop, s);
      hide S.Purge;
    } else {
      OrganizationStepSame(db, a);
      hide OrganizationStep;
    }
  }
}
