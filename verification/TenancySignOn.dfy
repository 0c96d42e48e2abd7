/** What single sign-on writes, row by row, and what stands behind a verified domain. */
module TenancySignOn {
  import opened Common
  import opened Tenancy
  import opened TenancyMachine
  import opened TenancyGuarantees
  import opened TenancyErasure
  import S = TenancySteps

  /** A new address got a user of its own, neither banned nor redacted, and one active seat
      in the default role; nothing else differs. */
  ghost predicate SeatedStranger(db: Tables, later: Tables, o: Id, email: string, role: Role, via: Via, deactivatedAt: Option<Time>) {
    var (u, k) := (db.nextId, db.nextId + 1);
    && later == db.(users := later.users, memberships := later.memberships, nextId := later.nextId)
    && later.users == db.users[u := User(email, false, None, false)]
    && later.memberships == db.memberships[k := Membership(o, u, role, deactivatedAt, via)]
  }

  /** Row `k` is active: it was, and nothing was written, or it was reopened with its role. */
  ghost predicate Reopened(db: Tables, later: Tables, k: Id, via: Via) {
    && k in db.memberships
    && var m := db.memberships[k];
       later == if m.deactivatedAt.None? then db
                else db.(memberships := db.memberships[k := Membership(m.org, m.user, m.role, None, via)])
  }

  lemma StrangerIsSeated(db: Tables, connection: SsoConnection, email: string, userOk: bool)
    ensures var r := S.SignInStranger(db, connection, email, userOk);
            r.reply.Granted? ==>
              r.reply.membership == db.nextId + 1
              && SeatedStranger(db, r.db, connection.org, email, connection.defaultRole, BySso, None)
  {
    hide ValidNew;
  }

  lemma KnownIsReopened(db: Tables, connection: SsoConnection, u: Id)
    requires u in db.users
    ensures var r := S.SignInUser(db, connection, u);
            r.reply.Granted? ==> Reopened(db, r.db, r.reply.membership, BySso)
  {
    hide ValidUpdate;
  }

  /** A granted sign-on of a new address seats it in the connection's default role; one of a
      known user leaves that user's seat in the role it had, reopened if it was closed. No
      other row of any table changes. */
  lemma SignOnSeats(db: Tables, c: Id, asserted: string, userOk: bool)
    requires c in db.identity.connections && S.ResolveSignIn(db, c, asserted, userOk).reply.Granted?
    ensures var (r, connection) := (S.ResolveSignIn(db, c, asserted, userOk), db.identity.connections[c]);
            if EmailTaken(db.users, Canonical(asserted)) then Reopened(db, r.db, r.reply.membership, BySso)
            else SeatedStranger(db, r.db, connection.org, Canonical(asserted), connection.defaultRole, BySso, None)
                 && r.reply.membership == db.nextId + 1
  {
    hide AssertsEmail, Canonical, S.SignInUser, S.SignInStranger, SeatedStranger, Reopened;
    var (connection, email) := (db.identity.connections[c], Canonical(asserted));
    match FindUser(db.users, email)
    case Some(u) => KnownIsReopened(db, connection, u);
    case None => StrangerIsSeated(db, connection, email, userOk);
  }

  // ---- Verified domains

  /** The actor is an active admin of the organization whose connection the domain is filed under. */
  ghost predicate ManagedBy(db: Tables, actor: Id, d: Id) {
    && d in db.identity.domains && db.identity.domains[d].connection in db.identity.connections
    && AdminOf(db, actor, db.identity.connections[db.identity.domains[d].connection].org)
  }

  ghost predicate TakenByAnother(db: Tables, d: Id)
    requires d in db.identity.domains
  {
    var ds := db.identity.domains;
    exists e :: e in ds && e != d && ds[e].verifiedAt.Some? && ds[e].domain == ds[d].domain
  }

  /** A domain is verified afterwards exactly when it was, or an admin of its organization
      asked, the record was published, and nobody else has the domain verified. The time of
      a first verification is kept, and nothing else is ever written. */
  lemma VerifiedIff(db: Tables, actor: Id, d: Id, published: bool, now: Time)
    requires d in db.identity.domains
    ensures var (r, row) := (S.VerifyDomain(db, actor, d, published, now), db.identity.domains[d]);
            var fits := ManagedBy(db, actor, d) && published && !TakenByAnother(db, d);
            && (r.reply == S.Done <==> ManagedBy(db, actor, d) && (row.verifiedAt.Some? || fits))
            && r.db == if row.verifiedAt.Some? || !fits then db
                       else db.(identity := db.identity.(domains :=
                              db.identity.domains[d := SsoDomain(row.connection, row.domain, Some(now))]))
  {
    assert S.ManagesDomain(db, actor, d) <==> ManagedBy(db, actor, d);
    assert S.ClaimedElsewhere(db.identity.domains, d) <==> TakenByAnother(db, d);
    hide S.ManagesDomain, S.ClaimedElsewhere, ManagedBy, TakenByAnother;
  }

  /** Step `a` verifies the domain row `d`, which stands for `domain` on connection `c`:
      an admin asked, and the record was published. */
  ghost predicate Verifies(db: Tables, a: Action, d: Id, c: Id, domain: string) {
    && a.OnIdentity? && a.identity.VerifyDomain? && a.identity.d == d && a.identity.published
    && ManagedBy(db, a.identity.actor, d) && !TakenByAnother(db, d)
    && db.identity.domains[d].connection == c && db.identity.domains[d].domain == domain
  }

  ghost predicate HasVerified(db: Tables, d: Id, c: Id, domain: string) {
    d in db.identity.domains && db.identity.domains[d].verifiedAt.Some? && db.identity.domains[d].connection == c
    && db.identity.domains[d].domain == domain
  }

  /** Domain rows go or stay as they are. */
  ghost predicate FewerDomains(db: Tables, later: Tables) {
    forall d :: d in later.identity.domains ==> d in db.identity.domains && later.identity.domains[d] == db.identity.domains[d]
  }

  lemma AccountStepVerifiesNone(db: Tables, a: AccountAction)
    ensures FewerDomains(db, AccountStep(db, a).db)
  {
  }

  lemma PurgeVerifiesNone(db: Tables, now: Time, start: Id, stop: Option<Id>)
    ensures FewerDomains(db, S.Purge(db, now, start, stop).db)
  {
    hide S.PurgePrefix, S.OrphanPrefix, S.Orphans, S.DueBetween;
  }

  lemma OrganizationStepVerifiesNone(db: Tables, a: OrganizationAction)
    ensures FewerDomains(db, OrganizationStep(db, a).db)
  {
    hide ValidNew, ValidUpdate;
    match a
    case PurgeJob(now, start, stop) => PurgeVerifiesNone(db, now, start, stop);
    case _ =>
  }

  lemma SeatStepVerifiesNone(db: Tables, a: SeatAction)
    ensures FewerDomains(db, SeatStep(db, a).db)
  {
    match a
    case RequestAccess(u, o) => AdmitFramesAll(db, o, u); hide S.Admit;
    case Approve(actor, r) =>
      if S.MayDecide(db, actor, r) {
        var row := db.requests[r].(approved := true, completedBy := Some(db.memberships[actor].user));
        AdmitFramesAll(db.(requests := db.requests[r := row]), row.org, row.user);
        hide S.Admit;
      }
    case _ => hide ValidUpdate;
  }

  lemma InviteStepVerifiesNone(db: Tables, a: InviteAction)
    ensures FewerDomains(db, InviteStep(db, a).db)
  {
    hide ValidUpdate, ValidNew;
  }

  lemma ScimCreateVerifiesNone(db: Tables, c: Id, userName: string, active: Option<bool>, ok: bool, now: Time)
    ensures FewerDomains(db, S.ScimCreate(db, c, userName, active, ok, now).db)
  {
    hide ValidUpdate, ValidNew, Canonical;
  }

  lemma VerificationVerifies(db: Tables, actor: Id, e: Id, published: bool, now: Time, d: Id, c: Id, domain: string)
    requires HasVerified(S.VerifyDomain(db, actor, e, published, now).db, d, c, domain)
    ensures HasVerified(db, d, c, domain) || Verifies(db, OnIdentity(VerifyDomain(actor, e, published, now)), d, c, domain)
  {
    if e in db.identity.domains {
      VerifiedIff(db, actor, e, published, now);
      hide S.VerifyDomain, ManagedBy, TakenByAnother;
    }
  }

  lemma IdentityStepVerifies(db: Tables, a: IdentityAction, d: Id, c: Id, domain: string)
    requires HasVerified(IdentityStep(db, a).db, d, c, domain)
    ensures HasVerified(db, d, c, domain) || Verifies(db, OnIdentity(a), d, c, domain)
  {
    match a
    case VerifyDomain(actor, e, published, now) =>
      hide HasVerified, Verifies, S.VerifyDomain;
      VerificationVerifies(db, actor, e, published, now, d, c, domain);
    case ScimCreate(t, userName, active, ok, now) =>
      hide S.ScimCreate;
      ScimCreateVerifiesNone(db, t, userName, active, ok, now);
    case SsoSignIn(t, asserted, ok) => SignOnVerifiesNone(db, t, asserted, ok); hide S.SsoCallback;
    case _ => hide ValidUpdate, ValidNew, Canonical;
  }

  lemma SignOnVerifiesNone(db: Tables, c: Id, asserted: string, ok: bool)
    ensures FewerDomains(db, S.SsoCallback(db, c, asserted, ok).db)
  {
    hide ValidUpdate, ValidNew, Canonical, AssertsEmail;
  }

  lemma StepVerifies(db: Tables, a: Action, d: Id, c: Id, domain: string)
    requires HasVerified(Step(db, a).db, d, c, domain)
    ensures HasVerified(db, d, c, domain) || Verifies(db, a, d, c, domain)
  {
    hide AccountStep, OrganizationStep, SeatStep, InviteStep, IdentityStep;
    match a
    case OnAccount(b) => AccountStepVerifiesNone(db, b);
    case OnOrganization(b) => OrganizationStepVerifiesNone(db, b);
    case OnSeat(b) => SeatStepVerifiesNone(db, b);
    case OnInvite(b) => InviteStepVerifiesNone(db, b);
    case OnIdentity(b) => IdentityStepVerifies(db, b, d, c, domain);
  }

  ghost predicate VerifiedAt(db: Tables, run: seq<Action>, i: nat, d: Id, c: Id, domain: string) {
    i < |run| && Verifies(Run(db, run[..i]), run[i], d, c, domain)
  }

  lemma {:induction false} RunVerifies(db: Tables, run: seq<Action>, d: Id, c: Id, domain: string)
    requires HasVerified(Run(db, run), d, c, domain)
    ensures HasVerified(db, d, c, domain) || exists i: nat :: VerifiedAt(db, run, i, d, c, domain)
    decreases run
  {
    hide Step, HasVerified, Verifies;
    if run != [] {
      var (db1, rest) := (Step(db, run[0]).db, run[1..]);
      RunVerifies(db1, rest, d, c, domain);
      if HasVerified(db1, d, c, domain) {
        StepVerifies(db, run[0], d, c, domain);
        assert run[..0] == [];
        assert HasVerified(db, d, c, domain) || VerifiedAt(db, run, 0, d, c, domain);
      } else {
        var i: nat :| VerifiedAt(db1, rest, i, d, c, domain);
        assert run[..i + 1][1..] == rest[..i];
        assert VerifiedAt(db, run, i + 1, d, c, domain);
      }
    }
  }

  /** An address is asserted exactly when the domain behind its last @ is verified for the connection. */
  lemma AssertsIff(db: Tables, c: Id, before: string, domain: string)
    requires '@' !in domain && Canonical(domain) != ""
    ensures AssertsEmail(db, c, before + "@" + domain) <==> exists d :: HasVerified(db, d, c, Canonical(domain))
  {
    DomainIsBehindLastAt(before, domain);
    hide DomainFor, Canonical;
    var s := Canonical(domain);
    if d :| d in db.identity.domains && Verified(db.identity.domains[d]) && db.identity.domains[d].connection == c
            && db.identity.domains[d].domain == s {
      assert HasVerified(db, d, c, s);
    }
  }

  /** After any run, behind every domain a connection may assert stands a step in which an
      admin of its organization had it verified and its record was published. */
  lemma AssertedWasPublished(run: seq<Action>, c: Id, email: string)
    requires AssertsEmail(Run(EMPTY, run), c, email)
    ensures exists i: nat, d: Id :: VerifiedAt(EMPTY, run, i, d, c, DomainFor(email).value)
  {
    var db := Run(EMPTY, run);
    var d: Id :| d in db.identity.domains && Verified(db.identity.domains[d]) && db.identity.domains[d].connection == c
                 && db.identity.domains[d].domain == DomainFor(email).value;
    hide Run;
    RunVerifies(EMPTY, run, d, c, DomainFor(email).value);
  }
}
