/** Closing an account: redaction is all or nothing, and the seats it gives up
    stay given up in every later state. */
module TenancyClosure {
  import opened Common
  import opened Tenancy
  import opened TenancyMachine
  import opened TenancyInvariants
  import opened TenancyRuns
  import opened TenancyEvolution
  import opened TenancyGuarantees
  import S = TenancySteps

  predicate OwnsNothing(db: Tables, u: Id) {
    forall o :: o in db.orgs ==> db.orgs[o].owner != u
  }

  /** Only ownership keeps an account open: no other seat is ever one the organization cannot spare. */
  lemma DeletableIffOwnsNothing(db: Tables, u: Id)
    requires Inv(db)
    ensures Deletable(db, u) <==> OwnsNothing(db, u)
  {
    if OwnsNothing(db, u) {
      forall k | k in db.memberships && db.memberships[k].user == u
        ensures UndeactivatableReasons(db, Some(k), db.memberships[k].role, db.memberships[k]) == {}
      {
        NonOwnerIsNeverSole(db, Some(k), db.memberships[k].role, db.memberships[k]);
      }
    }
  }

  /** Each save of the redaction loop passes the validations. */
  lemma WithdrawalIsValid(db: Tables, k: Id, now: Time)
    requires Inv(db) && k in db.memberships && OwnsNothing(db, db.memberships[k].user)
    ensures ValidUpdate(db, k, db.memberships[k].(deactivatedAt := Some(now)))
  {
    var m := db.memberships[k].(deactivatedAt := Some(now));
    NonOwnerIsNeverSole(db, Some(k), m.role, m);
    StaysUnclaimed(db.memberships, k, m);
  }

  predicate AddressFree(db: Tables, u: Id) {
    forall v :: v in db.users && v != u ==> db.users[v].email != RedactedEmail(u)
  }

  lemma RedactionCommitsIff(db: Tables, u: Id, now: Time)
    requires Inv(db) && u in db.users
    ensures S.Redact(db, u, now).reply == S.Done <==> !Redacted(db.users[u]) && OwnsNothing(db, u) && AddressFree(db, u)
  {
    DeletableIffOwnsNothing(db, u);
  }

  /** No way in is left for `u`: no session, no code, no active seat, no second factor. */
  ghost predicate Closed(db: Tables, u: Id) {
    && u in db.users && Redacted(db.users[u]) && !CanAuthenticate(db.users[u]) && !db.users[u].twoFactor
    && (forall k :: k in db.memberships && db.memberships[k].user == u ==> !Active(db.memberships[k]))
    && (forall s :: s in db.logins.sessions ==> db.logins.sessions[s] != u)
    && (forall l :: l in db.logins.magicLinks ==> db.logins.magicLinks[l] != u)
  }

  /** Nobody else's rows change. */
  ghost predicate OthersKept(db: Tables, later: Tables, u: Id) {
    && later.users.Keys == db.users.Keys && (forall v :: v in db.users && v != u ==> later.users[v] == db.users[v])
    && later.memberships.Keys == db.memberships.Keys
    && (forall k :: k in db.memberships && db.memberships[k].user != u ==> later.memberships[k] == db.memberships[k])
    && (forall s :: s in db.logins.sessions && db.logins.sessions[s] != u ==> s in later.logins.sessions)
    && later.orgs == db.orgs && later.requests == db.requests && later.files == db.files && later.identity == db.identity
  }

  /** An open seat closed now; a closed one keeps its time. */
  function Stamped(m: Membership, now: Time): Membership {
    if m.deactivatedAt == None then Membership(m.org, m.user, m.role, Some(now), m.via) else m
  }

  lemma RedactionIsAllOrNothing(db: Tables, u: Id, now: Time)
    requires u in db.users
    ensures var r := S.Redact(db, u, now);
            if r.reply == S.Done
            then && Closed(r.db, u) && OthersKept(db, r.db, u) && r.db.users[u].banned == db.users[u].banned && r.db.users[u].redactedAt == Some(now)
                 && (forall k :: k in db.memberships && db.memberships[k].user == u ==> r.db.memberships[k] == Stamped(db.memberships[k], now))
                 && r.db.users[u].email == "redacted-" + Decimal(u) + "@users.moneygun.invalid"
                 && (forall i :: i in r.db.invitations <==> i in db.invitations && db.invitations[i].email != db.users[u].email)
            else r.db == db
  {
  }

  /** The address of a redacted account is free for a new one. */
  lemma RedactionFreesAddress(db: Tables, u: Id, now: Time)
    requires Inv(db) && u in db.users && S.Redact(db, u, now).reply == S.Done
    requires db.users[u].email != "redacted-" + Decimal(u) + "@users.moneygun.invalid"
    ensures !EmailTaken(S.Redact(db, u, now).db.users, db.users[u].email)
  {
    RedactionIsAllOrNothing(db, u, now);
    hide S.Redact, Closed;
  }

  /** No row of any table refers to the user or to one of its memberships. */
  ghost predicate Untraced(db: Tables, later: Tables, u: Id)
    requires u in db.users
  {
    && u !in later.users
    && (forall k :: k in later.memberships ==> later.memberships[k].user != u)
    && (forall r :: r in later.requests ==> later.requests[r].user != u && later.requests[r].completedBy != Some(u))
    && (forall i :: i in later.invitations ==>
          later.invitations[i].invitedBy != Some(u) && later.invitations[i].email != db.users[u].email)
    && (forall s :: s in later.logins.sessions ==> later.logins.sessions[s] != u)
    && (forall l :: l in later.logins.magicLinks ==> later.logins.magicLinks[l] != u)
    && (forall p :: p in later.files.projects ==> later.files.projects[p].membership in later.memberships)
    && (forall e :: e in later.files.exports ==> later.files.exports[e].membership in later.memberships)
    && later.files.audited == db.files.audited - S.SeatsOf(db.memberships, {u})
  }

  lemma FilesStayFiled(db: Tables, u: Id)
    requires Inv(db) && S.Destroyable(db, u)
    ensures var later := S.DropUsers(db, {u});
            && (forall p :: p in later.files.projects ==> later.files.projects[p].membership in later.memberships)
            && (forall e :: e in later.files.exports ==> later.files.exports[e].membership in later.memberships)
            && later.files.audited == db.files.audited - S.SeatsOf(db.memberships, {u})
  {
    var later := S.DropUsers(db, {u});
    forall p | p in db.files.projects ensures db.files.projects[p].membership in later.memberships {
      assert S.SameOrganization(db.memberships, db.files.projects[p]);
    }
    forall e | e in later.files.exports ensures later.files.exports[e].membership in later.memberships {
      assert S.SameOrganization(db.memberships, db.files.exports[e]);
    }
  }

  lemma LettersAreGone(db: Tables, u: Id)
    requires u in db.users && S.Destroyable(db, u)
    ensures var later := S.DropUsers(db, {u});
            && (forall r :: r in later.requests ==> later.requests[r].user != u && later.requests[r].completedBy != Some(u))
            && (forall i :: i in later.invitations ==>
                  later.invitations[i].invitedBy != Some(u) && later.invitations[i].email != db.users[u].email)
  {
    hide RetainedFootprint;
  }

  /** Nobody else loses an account, a seat, a session, a project or an organization. */
  ghost predicate OthersUntouched(db: Tables, later: Tables, u: Id) {
    && later.orgs == db.orgs && later.identity == db.identity && later.files.projects == db.files.projects
    && (forall k :: k in db.memberships && db.memberships[k].user != u ==>
          k in later.memberships && later.memberships[k] == db.memberships[k])
    && (forall v :: v in db.users && v != u ==> v in later.users && later.users[v] == db.users[v])
    && (forall s :: s in db.logins.sessions && db.logins.sessions[s] != u ==> s in later.logins.sessions)
  }

  lemma AccountIsGone(db: Tables, u: Id)
    ensures var later := S.DropUsers(db, {u});
            && OthersUntouched(db, later, u) && u !in later.users
            && (forall k :: k in later.memberships ==> later.memberships[k].user != u)
            && (forall s :: s in later.logins.sessions ==> later.logins.sessions[s] != u)
            && (forall l :: l in later.logins.magicLinks ==> later.logins.magicLinks[l] != u)
  {
  }

  /** Hard deletion leaves no trace of the user and takes nothing from anybody else. */
  lemma DestructionLeavesNoTrace(db: Tables, u: Id)
    requires Inv(db) && u in db.users && S.DestroyUser(db, u).reply == S.Done
    ensures var later := S.DestroyUser(db, u).db; Untraced(db, later, u) && OthersUntouched(db, later, u)
  {
    hide Inv, OthersUntouched, S.DropUsers, S.Destroyable;
    FilesStayFiled(db, u);
    LettersAreGone(db, u);
    AccountIsGone(db, u);
  }

  // ---- What stays closed

  /** The id of a row that is gone is never handed out again. */
  lemma {:induction false} RunNeverReuses(db: Tables, run: seq<Action>, k: Id)
    requires Inv(db) && k < db.nextId && k !in db.memberships
    ensures k !in Run(db, run).memberships
    decreases run
  {
    hide Step;
    if run != [] {
      StepEvolves(db, run[0]);
      StepAdvances(db, run[0]);
      StepKeepsInv(db, run[0]);
      hide Inv;
      RunNeverReuses(Step(db, run[0]).db, run[1..], k);
    }
  }

  lemma {:induction false} RunKeepsShut(db: Tables, run: seq<Action>, k: Id)
    requires Inv(db) && Shut(db.memberships, db.users, k)
    ensures var later := Run(db, run);
            k in later.memberships ==>
              Shut(later.memberships, later.users, k)
              && later.memberships[k].user == db.memberships[k].user && later.memberships[k].org == db.memberships[k].org
    decreases run
  {
    assert k < db.nextId;
    hide Step, Shut;
    if run != [] {
      var db1 := Step(db, run[0]).db;
      StepEvolves(db, run[0]);
      StepAdvances(db, run[0]);
      StepKeepsInv(db, run[0]);
      hide Inv;
      if k in db1.memberships {
        RunKeepsShut(db1, run[1..], k);
      } else {
        RunNeverReuses(db1, run[1..], k);
      }
    }
  }

  lemma ClosureShuts(db: Tables, u: Id, session: Id, now: Time, k: Id)
    requires k in db.memberships && db.memberships[k].user == u
    ensures var r := S.CloseAccount(db, u, session, now);
            r.reply == S.Done ==> if k in r.db.memberships then Shut(r.db.memberships, r.db.users, k) else db.nextId == r.db.nextId
  {
  }

  /** A seat held when the account closes is never active again: no reactivation,
      invitation, join request, sign-on or provisioning reopens it. */
  lemma ClosedSeatStaysClosed(db: Tables, u: Id, session: Id, now: Time, run: seq<Action>, k: Id)
    requires Inv(db) && k in db.memberships && db.memberships[k].user == u
    requires S.CloseAccount(db, u, session, now).reply == S.Done
    ensures var later := Run(S.CloseAccount(db, u, session, now).db, run);
            k in later.memberships ==> later.memberships[k].user == u && !Active(later.memberships[k])
  {
    var db1 := S.CloseAccount(db, u, session, now).db;
    CloseAccountKeepsInv(db, u, session, now);
    ClosureShuts(db, u, session, now, k);
    CloseAccountEvolves(db, u, session, now);
    assert k < db.nextId;
    hide Inv, S.CloseAccount;
    if k in db1.memberships {
      RunKeepsShut(db1, run, k);
    } else {
      RunNeverReuses(db1, run, k);
    }
  }

  /** Approving admits everyone but a former member whose account was redacted; a
      redacted user without a row there still gets one. */
  lemma ApproveCommitsIff(db: Tables, actor: Id, r: Id)
    requires Inv(db)
    ensures S.ApproveRequest(db, actor, r).reply == S.Done <==>
            && S.MayDecide(db, actor, r)
            && var (u, k) := (db.requests[r].user, FindMembership(db.memberships, db.requests[r].org, db.requests[r].user));
            if k.Some? then Active(db.memberships[k.value]) || !Redacted(db.users[u]) else u in db.users
  {
    if S.MayDecide(db, actor, r) {
      var row := db.requests[r].(approved := true, completedBy := Some(db.memberships[actor].user));
      var db1 := db.(requests := db.requests[r := row]);
      match FindMembership(db.memberships, row.org, row.user)
      case None =>
      case Some(k) =>
        var m := db.memberships[k].(deactivatedAt := None);
        if Active(db.memberships[k]) {
          StaysUnclaimed(db.memberships, k, m);
        } else {
          assert Belongs(db.memberships, actor, row.org, row.completedBy.value);
          RequestPutKeepsInv(db, r, row, db.nextId);
          ReentryIsValid(db1, k, m);
        }
    }
  }

  // ---- When closing deletes

  /** No audit row names the seat, and no project is filed under it. */
  predicate LeftNothing(db: Tables, k: Id) {
    k !in db.files.audited && forall p :: p in db.files.projects ==> db.files.projects[p].membership != k
  }

  lemma DestroyableUnseatedIff(db: Tables, u: Id)
    ensures S.Destroyable(db, u) && S.ActiveSeats(db.memberships, u) == {} <==>
            && OwnsNothing(db, u)
            && (forall k :: k in db.memberships && db.memberships[k].user == u ==> db.memberships[k].deactivatedAt != None && LeftNothing(db, k))
            && (forall r :: r in db.requests && db.requests[r].user != u ==> db.requests[r].completedBy != Some(u))
  {
    forall k | k in db.memberships && db.memberships[k].user == u
      ensures k !in S.ActiveSeats(db.memberships, u) <==> db.memberships[k].deactivatedAt != None
    {
    }
    assert RetainedFootprint(db, u) <==> exists k :: k in db.memberships && db.memberships[k].user == u && !LeftNothing(db, k);
  }

  /** Signing out leaves audit rows for every active seat, so closing an account deletes
      it exactly when it holds no active seat and nothing else stops the deletion; with
      an active seat it is redacted instead. */
  lemma ClosureDeletesIff(db: Tables, u: Id, session: Id, now: Time)
    requires Inv(db) && u in db.users && session in db.logins.sessions && db.logins.sessions[session] == u
    ensures u !in S.CloseAccount(db, u, session, now).db.users <==>
            && OwnsNothing(db, u)
            && (forall k :: k in db.memberships && db.memberships[k].user == u ==> db.memberships[k].deactivatedAt != None && LeftNothing(db, k))
            && (forall r :: r in db.requests && db.requests[r].user != u ==> db.requests[r].completedBy != Some(u))
  {
    DestroyableUnseatedIff(db, u);
    var db1 := S.SignedOut(db, u, session);
    DeletableIffOwnsNothing(db, u);
    SignedOutFootprint(db, u, session);
    RedactionKeepsUsers(db1, u, now);
    hide Inv, RetainedFootprint, S.Redact, Deletable, LeftNothing, OwnsNothing, S.ActiveSeats;
  }

  lemma SignedOutFootprint(db: Tables, u: Id, session: Id)
    ensures RetainedFootprint(S.SignedOut(db, u, session), u) <==> RetainedFootprint(db, u) || S.ActiveSeats(db.memberships, u) != {}
  {
    var db1 := S.SignedOut(db, u, session);
    if k :| k in S.ActiveSeats(db.memberships, u) {
      assert k in db1.files.audited;
    }
  }

  lemma RedactionKeepsUsers(db: Tables, u: Id, now: Time)
    requires u in db.users
    ensures S.Redact(db, u, now).db.users.Keys == db.users.Keys
  {
  }

  /** Closing an account takes a session of its own user, who owns no organization; anything
      else is refused and changes nothing. */
  lemma ClosingIsRefusedIff(db: Tables, u: Id, session: Id, now: Time)
    requires Inv(db)
    ensures S.CloseAccount(db, u, session, now) == S.Outcome(db, S.NotAllowed) <==>
            !(u in db.users && session in db.logins.sessions && db.logins.sessions[session] == u && OwnsNothing(db, u))
  {
    DeletableIffOwnsNothing(db, u);
    assert session in db.logins.sessions ==> session !in S.SignedOut(db, u, session).logins.sessions;
    hide Inv, RetainedFootprint, Deletable, S.Destroyable, OwnsNothing;
  }
}
