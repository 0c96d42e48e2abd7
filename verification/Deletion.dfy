/** Closing accounts and hard deletion as the models cascade it, and the two-step
    job that drives it.
    Rows go one by one; a refusal anywhere rolls the whole deletion back. */
module Deletion {
  import opened Common
  import opened Tenancy
  import opened TenancyInvariants
  import opened TenancyPurge
  import opened TenancyDatabase
  import S = TenancySteps

  // ---- Memberships

  function WithoutMemberships(db: Tables, ks: set<Id>): Tables {
    db.(memberships := db.memberships - ks, files := S.Disown(db.files, ks))
  }

  /** has_many :projects, dependent: :restrict_with_error. */
  predicate Restricted(projects: map<Id, Resource>, k: Id) {
    exists p :: p in projects && projects[p].membership == k
  }

  method DestroyMembership(d: Database, k: Id) returns (ok: bool)
    modifies d
    ensures ok <==> !Restricted(old(d.tables).files.projects, k)
    ensures d.tables == if ok then WithoutMemberships(old(d.tables), {k}) else old(d.tables)
  {
    if Restricted(d.tables.files.projects, k) {
      return false;
    }
    d.tables := d.tables.(files := S.Disown(d.tables.files, {k}));
    d.tables := d.tables.(memberships := d.tables.memberships - {k});
    return true;
  }

  lemma WithoutNone(db: Tables, ks: set<Id>)
    ensures WithoutMemberships(db, ks - ks) == db
  {
    assert S.Disown(db.files, ks - ks).exports == db.files.exports;
  }

  lemma WithoutOneMore(db: Tables, ks: set<Id>, todo: set<Id>, k: Id)
    requires k in todo && todo <= ks
    ensures WithoutMemberships(WithoutMemberships(db, ks - todo), {k}) == WithoutMemberships(db, ks - (todo - {k}))
  {
    var (a, b) := (WithoutMemberships(WithoutMemberships(db, ks - todo), {k}), WithoutMemberships(db, ks - (todo - {k})));
    assert ks - (todo - {k}) == ks - todo + {k};
    assert a.memberships == b.memberships;
    assert a.files.exports == b.files.exports;
  }

  /** dependent: :destroy over memberships; stops at the first one that refuses. */
  method DestroyMemberships(d: Database, ks: set<Id>) returns (ok: bool)
    modifies d
    ensures ok <==> forall k :: k in ks ==> !Restricted(old(d.tables).files.projects, k)
    ensures ok ==> d.tables == WithoutMemberships(old(d.tables), ks)
  {
    ghost var start := d.tables;
    var todo := ks;
    WithoutNone(start, ks);
    hide WithoutMemberships, Restricted;
    while todo != {}
      invariant todo <= ks && d.tables == WithoutMemberships(start, ks - todo)
      invariant forall k :: k in ks - todo ==> !Restricted(start.files.projects, k)
    {
      var k: Id :| k in todo;
      SameProjects(start, ks - todo);
      WithoutOneMore(start, ks, todo, k);
      ok := DestroyMembership(d, k);
      if !ok {
        return;
      }
      todo := todo - {k};
    }
    assert ks - {} == ks;
    ok := true;
  }

  lemma SameProjects(db: Tables, ks: set<Id>)
    ensures WithoutMemberships(db, ks).files.projects == db.files.projects
  {
  }

  // ---- Organizations

  /** organization.destroy!: projects and exports go before the memberships they would restrict. */
  method DestroyOrganization(d: Database, o: Id) returns (ok: bool)
    requires o in d.tables.orgs
    modifies d
    ensures ok <==> S.Purgeable(old(d.tables), o)
    ensures d.tables == if ok then S.DropOrganizations(old(d.tables), {o}) else old(d.tables)
  {
    var before := d.tables;
    if before.orgs[o].subscribed {
      return false;
    }
    d.tables := d.tables.(files := S.Unfile(d.tables.files, {o}));
    RestrictedByOthers(before, o);
    hide Restricted, S.Unfile, S.SeatsIn, S.Purgeable;
    ok := DestroyMemberships(d, S.SeatsIn(before.memberships, {o}));
    if !ok {
      d.tables := before;
      return;
    }
    d.tables := d.tables.(invitations := S.InvitationsOutside(d.tables.invitations, {o}));
    d.tables := d.tables.(identity := S.DropConnections(d.tables.identity, {o}));
    d.tables := d.tables.(requests := S.RequestsOutside(d.tables.requests, {o}));
    d.tables := d.tables.(orgs := d.tables.orgs - {o});
    assert d.tables == S.DropOrganizations(before, {o});
  }

  lemma RestrictedByOthers(db: Tables, o: Id)
    requires o in db.orgs && !db.orgs[o].subscribed
    ensures S.Purgeable(db, o) <==> forall k :: k in S.SeatsIn(db.memberships, {o}) ==> !Restricted(S.Unfile(db.files, {o}).projects, k)
  {
    var rest := S.Unfile(db.files, {o}).projects;
    if !S.Purgeable(db, o) {
      var p :| p in db.files.projects && db.files.projects[p].org != o && db.files.projects[p].membership in db.memberships
               && db.memberships[db.files.projects[p].membership].org == o;
      assert p in rest && rest[p].membership in S.SeatsIn(db.memberships, {o});
    }
  }

  // ---- Users

  predicate Audited(audited: set<Id>, ks: set<Id>) {
    exists k :: k in ks && k in audited
  }

  predicate Owns(orgs: map<Id, Organization>, u: Id) {
    exists o :: o in orgs && orgs[o].owner == u
  }

  predicate Completed(rs: map<Id, JoinRequest>, u: Id) {
    exists r :: r in rs && rs[r].completedBy == Some(u)
  }

  function RequestsOfOthers(rs: map<Id, JoinRequest>, us: set<Id>): map<Id, JoinRequest> {
    Keep(rs, (r: JoinRequest) => r.user !in us)
  }

  /** user.destroy: the guards and restrictions in callback order, then the row itself,
      which a join request the user once completed still refers to. */
  method DestroyUser(d: Database, u: Id) returns (ok: bool)
    modifies d
    ensures S.Outcome(d.tables, if ok then S.Done else S.Raised) == S.DestroyUser(old(d.tables), u)
  {
    var before := d.tables;
    var seats := S.SeatsOf(before.memberships, {u});
    DestroyableIff(before, u);
    DroppedUser(before, u);
    hide Restricted, Audited, Owns, Completed, RequestsOfOthers, S.Destroyable, S.SeatsOf, S.DropUsers;
    if Audited(before.files.audited, seats) {
      return false;
    }
    d.tables := d.tables.(logins := S.DropLogins(d.tables.logins, {u}));
    if Owns(before.orgs, u) {
      d.tables := before;
      return false;
    }
    ok := DestroyMemberships(d, seats);
    if !ok {
      d.tables := before;
      return;
    }
    d.tables := d.tables.(requests := RequestsOfOthers(d.tables.requests, {u}));
    if Completed(d.tables.requests, u) {
      d.tables := before;
      return false;
    }
    d.tables := d.tables.(invitations := S.UninviteAll(d.tables.invitations, S.EmailsOf(before.users, {u}), {u}));
    d.tables := d.tables.(users := d.tables.users - {u});
  }

  lemma DestroyableIff(db: Tables, u: Id)
    ensures var seats := S.SeatsOf(db.memberships, {u});
            S.Destroyable(db, u) <==>
              && !Audited(db.files.audited, seats) && !Owns(db.orgs, u)
              && (forall k :: k in seats ==> !Restricted(db.files.projects, k))
              && !Completed(RequestsOfOthers(db.requests, {u}), u)
  {
    var seats := S.SeatsOf(db.memberships, {u});
    if RetainedFootprint(db, u) {
      var k :| k in db.memberships && db.memberships[k].user == u
               && (k in db.files.audited || exists p :: p in db.files.projects && db.files.projects[p].membership == k);
      assert k in seats && (k in db.files.audited || Restricted(db.files.projects, k));
    }
    var others := RequestsOfOthers(db.requests, {u});
    if Completed(others, u) {
      var r :| r in others && others[r].completedBy == Some(u);
      assert r in db.requests && db.requests[r].user != u;
    } else {
      assert forall r :: r in db.requests && db.requests[r].user != u ==> r in others;
    }
  }

  lemma DroppedUser(db: Tables, u: Id)
    ensures var rest := WithoutMemberships(db.(logins := S.DropLogins(db.logins, {u})), S.SeatsOf(db.memberships, {u}));
            S.DropUsers(db, {u}) == rest.(requests := RequestsOfOthers(db.requests, {u}),
              invitations := S.UninviteAll(db.invitations, S.EmailsOf(db.users, {u}), {u}), users := db.users - {u})
  {
  }

  /** terminate_session: the row goes, and "user.signed_out" is logged for every active membership. */
  method TerminateSession(d: Database, u: Id, session: Id)
    modifies d
    ensures d.tables == S.SignedOut(old(d.tables), u, session)
  {
    d.tables := d.tables.(logins := d.tables.logins.(sessions := d.tables.logins.sessions - {session}));
    var todo := S.ActiveSeats(d.tables.memberships, u);
    ghost var start, seats := d.tables, todo;
    while todo != {}
      invariant todo <= seats && d.tables == start.(files := start.files.(audited := start.files.audited + (seats - todo)))
    {
      var k: Id :| k in todo;
      d.tables := d.tables.(files := d.tables.files.(audited := d.tables.files.audited + {k}));
      todo := todo - {k};
    }
    assert seats - {} == seats;
  }

  /** erase! behind DELETE /user: the session ends, then the account is redacted or destroyed. */
  method CloseAccount(d: Database, u: Id, session: Id, now: Time) returns (reply: S.Reply)
    requires d.Valid()
    modifies d
    ensures d.Valid() && S.Outcome(d.tables, reply) == S.CloseAccount(old(d.tables), u, session, now)
  {
    CloseAccountKeepsInv(d.tables, u, session, now);
    if u !in d.tables.users || session !in d.tables.logins.sessions || d.tables.logins.sessions[session] != u || !Deletable(d.tables, u) {
      return S.NotAllowed;
    }
    SignedOutKeepsInv(d.tables, u, session);
    hide Inv, Deletable, S.Redact, S.DestroyUser;
    TerminateSession(d, u, session);
    if RetainedFootprint(d.tables, u) {
      reply := d.Redact(u, now);
    } else {
      var ok := DestroyUser(d, u);
      reply := if ok then S.Done else S.Raised;
    }
  }

  // ---- The job

  method Least(ids: set<Id>) returns (least: Id)
    requires ids != {}
    ensures least in ids && forall i :: i in ids ==> least <= i
  {
    least :| least in ids;
    var rest := ids - {least};
    while rest != {}
      invariant rest <= ids && least in ids && forall i :: i in ids - rest ==> least <= i
    {
      var i :| i in rest;
      assert forall j :: j in ids - (rest - {i}) ==> j == i || j in ids - rest;
      if i < least {
        least := i;
      }
      rest := rest - {i};
    }
    assert ids - {} == ids;
  }

  /** organization.destroy! on tables in order: only a subscription stops it. */
  method PurgeOne(d: Database, o: Id) returns (ok: bool)
    requires d.Valid() && o in d.tables.orgs
    modifies d
    ensures d.Valid() && (ok <==> !old(d.tables).orgs[o].subscribed)
    ensures d.tables == if ok then S.DropOrganizations(old(d.tables), {o}) else old(d.tables)
  {
    PurgeableIffUnsubscribed(d.tables, o);
    DropOrganizationsKeepsInv(d.tables, {o});
    hide Inv, S.DropOrganizations, S.Purgeable;
    ok := DestroyOrganization(d, o);
  }

  /** The first `find_each`, from the cursor on: due organizations in id order, each in its
      own transaction, with a checkpoint behind each. An interruption comes after `budget`
      of them and returns the cursor to resume from. */
  method PurgeOrganizations(d: Database, now: Time, from: Id, budget: nat) returns (ok: bool, cursor: Option<Id>)
    requires d.Valid()
    modifies d
    ensures d.Valid()
    ensures S.Outcome(d.tables, if ok then S.Done else S.Raised) == S.PurgeOrganizations(old(d.tables), now, from, cursor)
    ensures cursor.Some? ==> ok
  {
    ghost var start := d.tables;
    var todo := S.DueBetween(d.tables, now, from, None);
    var next, left := from, budget;
    NothingPurged(start, now, from);
    hide Purging, Inv, S.DropOrganizations, S.DueBetween, S.PurgeOrganizations;
    ok := true;
    while ok && todo != {} && left > 0
      invariant d.Valid() && if ok then Purging(start, d.tables, todo, now, from, next)
                             else S.PurgeOrganizations(start, now, from, None) == S.Outcome(d.tables, S.Raised)
      decreases ok, left
    {
      var o;
      ok, o := PurgeNext(d, start, todo, now, from, next);
      todo, next, left := todo - {o}, o + 1, left - 1;
    }
    cursor := if ok && todo != {} then Some(next) else None;
    if ok {
      PurgeEnds(start, d.tables, todo, now, from, next);
    }
  }

  /** One turn: the due organization with the least id. */
  method PurgeNext(d: Database, ghost start: Tables, todo: set<Id>, ghost now: Time, ghost from: Id, ghost next: Id)
    returns (ok: bool, o: Id)
    requires d.Valid() && todo != {} && Purging(start, d.tables, todo, now, from, next)
    modifies d
    ensures d.Valid() && o in todo
    ensures if ok then Purging(start, d.tables, todo - {o}, now, from, o + 1)
            else S.PurgeOrganizations(start, now, from, None) == S.Outcome(d.tables, S.Raised)
  {
    hide Purging, Inv, S.DropOrganizations, S.PurgeOrganizations;
    o := Least(todo);
    PurgeStep(start, d.tables, todo, now, from, next, o);
    ok := PurgeOne(d, o);
  }

  /** The execution that began in `start` has purged the due organizations up to the cursor
      `next`, none of them subscribed, and `todo` lies behind it. */
  ghost predicate Purging(start: Tables, sofar: Tables, todo: set<Id>, now: Time, from: Id, next: Id) {
    var due := S.DueBetween(start, now, from, None);
    Inv(start) && todo <= due && sofar == S.DropOrganizations(start, due - todo) && PassedOver(start, due, todo, from, next)
  }

  lemma NothingPurged(start: Tables, now: Time, from: Id)
    requires Inv(start)
    ensures Purging(start, start, S.DueBetween(start, now, from, None), now, from, from)
  {
    var due := S.DueBetween(start, now, from, None);
    DropNoOrganizations(start, due);
    assert PassedOver(start, due, due, from, from);
    hide Inv, PassedOver, S.DropOrganizations, S.DueBetween;
  }

  lemma PurgeStep(start: Tables, sofar: Tables, todo: set<Id>, now: Time, from: Id, next: Id, o: Id)
    requires Purging(start, sofar, todo, now, from, next) && o in todo && forall p :: p in todo ==> o <= p
    ensures o in sofar.orgs
    ensures if sofar.orgs[o].subscribed then S.PurgeOrganizations(start, now, from, None) == S.Outcome(sofar, S.Raised)
            else Purging(start, S.DropOrganizations(sofar, {o}), todo - {o}, now, from, o + 1)
  {
    var due := S.DueBetween(start, now, from, None);
    hide Inv, S.DropOrganizations, S.DueBetween, S.PurgeOrganizations;
    PassOneMore(start, due, todo, from, next, o);
    DropOneMoreOrganization(start, due, todo, o);
    if start.orgs[o].subscribed {
      PrefixStopsAt(start, due, todo, from, next, o, now);
    }
  }

  /** The due organizations the cursor `next` has passed: none of them subscribed, and `todo` behind it. */
  ghost predicate PassedOver(db: Tables, due: set<Id>, todo: set<Id>, from: Id, next: Id) {
    && due <= db.orgs.Keys
    && (forall p :: p in due ==> from <= p && (p in todo <==> next <= p))
    && (forall p :: p in due && p !in todo ==> !db.orgs[p].subscribed)
  }

  lemma PassOneMore(db: Tables, due: set<Id>, todo: set<Id>, from: Id, next: Id, o: Id)
    requires PassedOver(db, due, todo, from, next) && o in todo && todo <= due && forall p :: p in todo ==> o <= p
    ensures due <= db.orgs.Keys && from <= o && (!db.orgs[o].subscribed ==> PassedOver(db, due, todo - {o}, from, o + 1))
  {
  }

  lemma AllPurged(start: Tables, sofar: Tables, now: Time, from: Id, next: Id)
    requires Purging(start, sofar, {}, now, from, next)
    ensures S.PurgeOrganizations(start, now, from, None) == S.Outcome(sofar, S.Done)
  {
    var due := S.DueBetween(start, now, from, None);
    assert due - {} == due;
    FirstStepCommitsIff(start, now, from, None);
    hide Inv, S.DropOrganizations, S.DueBetween, S.PurgePrefix;
  }

  /** Up to its cursor an interrupted execution has done what one to that stop does. */
  lemma InterruptedAt(start: Tables, sofar: Tables, todo: set<Id>, now: Time, from: Id, next: Id)
    requires Purging(start, sofar, todo, now, from, next)
    ensures S.PurgeOrganizations(start, now, from, Some(next)) == S.Outcome(sofar, S.Done)
  {
    var due := S.DueBetween(start, now, from, None);
    assert S.DueBetween(start, now, from, Some(next)) == due - todo;
    FirstStepCommitsIff(start, now, from, Some(next));
    hide Inv, S.DropOrganizations, S.DueBetween, S.PurgePrefix;
  }

  lemma PurgeEnds(start: Tables, sofar: Tables, todo: set<Id>, now: Time, from: Id, next: Id)
    requires Purging(start, sofar, todo, now, from, next)
    ensures S.PurgeOrganizations(start, now, from, if todo != {} then Some(next) else None) == S.Outcome(sofar, S.Done)
  {
    if todo == {} {
      AllPurged(start, sofar, now, from, next);
    } else {
      InterruptedAt(start, sofar, todo, now, from, next);
    }
  }

  lemma DropNoOrganizations(db: Tables, os: set<Id>)
    ensures S.DropOrganizations(db, os - os) == db
  {
    assert os - os == {};
    assert S.SeatsIn(db.memberships, {}) == {};
    UnfileNothing(db.files);
    DropNoConnections(db.identity);
    assert S.InvitationsOutside(db.invitations, {}) == db.invitations;
    assert S.RequestsOutside(db.requests, {}) == db.requests;
    hide S.SeatsIn, S.DropConnections, S.Unfile, S.Disown, S.InvitationsOutside, S.RequestsOutside;
  }

  lemma UnfileNothing(f: Files)
    ensures S.Disown(S.Unfile(f, {}), {}) == f
  {
    assert S.Unfile(f, {}).projects == f.projects && S.Unfile(f, {}).exports == f.exports;
    assert S.Disown(f, {}).exports == f.exports;
  }

  lemma DropNoConnections(i: Identity)
    ensures S.DropConnections(i, {}) == i
  {
    var later := S.DropConnections(i, {});
    assert later.connections == i.connections && later.domains == i.domains && later.scim == i.scim;
  }

  lemma DropOneMoreOrganization(db: Tables, os: set<Id>, todo: set<Id>, o: Id)
    requires o in todo && todo <= os && os <= db.orgs.Keys
    ensures var sofar := S.DropOrganizations(db, os - todo);
            && o in sofar.orgs && sofar.orgs[o] == db.orgs[o]
            && S.DropOrganizations(sofar, {o}) == S.DropOrganizations(db, os - (todo - {o}))
  {
    assert os - (todo - {o}) == os - todo + {o};
    DropTwice(db, os - todo, {o});
  }

  lemma DropTwice(db: Tables, a: set<Id>, b: set<Id>)
    ensures S.DropOrganizations(S.DropOrganizations(db, a), b) == S.DropOrganizations(db, a + b)
  {
    hide S.Unfile, S.Disown, S.InvitationsOutside, S.RequestsOutside, S.SeatsIn, S.DropConnections;
    SeatsTwice(db.memberships, a, b);
    FilesTwice(db.files, db.memberships, a, b);
    IdentityTwice(db.identity, a, b);
    InvitedTwice(db.invitations, a, b);
    RequestedTwice(db.requests, a, b);
    assert db.orgs - a - b == db.orgs - (a + b);
  }

  lemma SeatsTwice(ms: map<Id, Membership>, a: set<Id>, b: set<Id>)
    ensures var rest := ms - S.SeatsIn(ms, a);
            && S.SeatsIn(ms, a + b) == S.SeatsIn(ms, a) + S.SeatsIn(rest, b)
            && rest - S.SeatsIn(rest, b) == ms - S.SeatsIn(ms, a + b)
  {
  }

  lemma InvitedTwice(invs: map<Id, Invitation>, a: set<Id>, b: set<Id>)
    ensures S.InvitationsOutside(S.InvitationsOutside(invs, a), b) == S.InvitationsOutside(invs, a + b)
  {
  }

  lemma RequestedTwice(rs: map<Id, JoinRequest>, a: set<Id>, b: set<Id>)
    ensures S.RequestsOutside(S.RequestsOutside(rs, a), b) == S.RequestsOutside(rs, a + b)
  {
  }

  lemma UnfileTwice(f: Files, a: set<Id>, b: set<Id>)
    ensures S.Unfile(S.Unfile(f, a), b) == S.Unfile(f, a + b)
  {
    assert S.Unfile(S.Unfile(f, a), b).projects == S.Unfile(f, a + b).projects;
    assert S.Unfile(S.Unfile(f, a), b).exports == S.Unfile(f, a + b).exports;
  }

  lemma DisownTwice(f: Files, j: set<Id>, k: set<Id>)
    ensures S.Disown(S.Disown(f, j), k) == S.Disown(f, j + k)
  {
    assert S.Disown(S.Disown(f, j), k).exports == S.Disown(f, j + k).exports;
    assert f.audited - j - k == f.audited - (j + k);
  }

  lemma DisownThenUnfile(f: Files, j: set<Id>, b: set<Id>)
    ensures S.Unfile(S.Disown(f, j), b) == S.Disown(S.Unfile(f, b), j)
  {
    assert S.Unfile(S.Disown(f, j), b).exports == S.Disown(S.Unfile(f, b), j).exports;
  }

  lemma FilesTwice(f: Files, ms: map<Id, Membership>, a: set<Id>, b: set<Id>)
    ensures var (j, k) := (S.SeatsIn(ms, a), S.SeatsIn(ms - S.SeatsIn(ms, a), b));
            S.Disown(S.Unfile(S.Disown(S.Unfile(f, a), j), b), k) == S.Disown(S.Unfile(f, a + b), S.SeatsIn(ms, a + b))
  {
    var (j, k) := (S.SeatsIn(ms, a), S.SeatsIn(ms - S.SeatsIn(ms, a), b));
    SeatsTwice(ms, a, b);
    hide S.SeatsIn, S.Disown, S.Unfile;
    DisownThenUnfile(S.Unfile(f, a), j, b);
    UnfileTwice(f, a, b);
    DisownTwice(S.Unfile(f, a + b), j, k);
  }

  lemma ConnectionsTwice(cs: map<Id, SsoConnection>, a: set<Id>, b: set<Id>)
    ensures S.ConnectionsOutside(S.ConnectionsOutside(cs, a), b) == S.ConnectionsOutside(cs, a + b)
  {
  }

  lemma ScimTwice(cs: map<Id, ScimConnection>, a: set<Id>, b: set<Id>)
    ensures S.ScimOutside(S.ScimOutside(cs, a), b) == S.ScimOutside(cs, a + b)
  {
  }

  lemma DomainsTwice(ds: map<Id, SsoDomain>, cs: map<Id, SsoConnection>, a: set<Id>, b: set<Id>)
    ensures S.DomainsOutside(S.DomainsOutside(ds, cs, a), S.ConnectionsOutside(cs, a), b) == S.DomainsOutside(ds, cs, a + b)
  {
    var once := S.ConnectionsOutside(cs, a);
    var (left, right) := (S.DomainsOutside(S.DomainsOutside(ds, cs, a), once, b), S.DomainsOutside(ds, cs, a + b));
    forall d ensures d in left <==> d in right {
      if d in ds {
        DomainOutsideTwice(ds, cs, a, b, d);
      }
    }
  }

  lemma DomainOutsideTwice(ds: map<Id, SsoDomain>, cs: map<Id, SsoConnection>, a: set<Id>, b: set<Id>, d: Id)
    requires d in ds
    ensures d in S.DomainsOutside(S.DomainsOutside(ds, cs, a), S.ConnectionsOutside(cs, a), b) <==> d in S.DomainsOutside(ds, cs, a + b)
  {
    var c, once := ds[d].connection, S.ConnectionsOutside(cs, a);
    assert c in once <==> c in cs && cs[c].org !in a;
  }

  lemma IdentityTwice(i: Identity, a: set<Id>, b: set<Id>)
    ensures S.DropConnections(S.DropConnections(i, a), b) == S.DropConnections(i, a + b)
  {
    hide S.ConnectionsOutside, S.DomainsOutside, S.ScimOutside;
    ConnectionsTwice(i.connections, a, b);
    ScimTwice(i.scim, a, b);
    DomainsTwice(i.domains, i.connections, a, b);
  }

  lemma PrefixStopsAt(db: Tables, due: set<Id>, todo: set<Id>, from: Id, next: Id, o: Id, now: Time)
    requires Inv(db) && due == S.DueBetween(db, now, from, None) && o in todo && todo <= due
    requires (forall p :: p in todo ==> o <= p) && PassedOver(db, due, todo, from, next) && db.orgs[o].subscribed
    ensures S.PurgeOrganizations(db, now, from, None) == S.Outcome(S.DropOrganizations(db, due - todo), S.Raised)
  {
    PrefixIs(db, due, todo, from, next, o, now);
    assert o in due && o !in due - todo;
    hide Inv, S.DropOrganizations, S.DueBetween, S.PurgePrefix;
  }

  lemma PrefixIs(db: Tables, due: set<Id>, todo: set<Id>, from: Id, next: Id, o: Id, now: Time)
    requires Inv(db) && due == S.DueBetween(db, now, from, None) && o in todo && todo <= due
    requires (forall p :: p in todo ==> o <= p) && PassedOver(db, due, todo, from, next) && db.orgs[o].subscribed
    ensures S.PurgePrefix(db, now, from, None) == due - todo
  {
    forall p | p in due ensures S.Purgeable(db, p) <==> !db.orgs[p].subscribed { PurgeableIffUnsubscribed(db, p); }
  }

  /** The second `find_each`: redacted users without a membership. */
  method PurgeOrphans(d: Database) returns (ok: bool)
    requires d.Valid()
    modifies d
    ensures d.Valid()
    ensures S.Outcome(d.tables, if ok then S.Done else S.Raised) == S.PurgeOrphans(old(d.tables))
  {
    ghost var start := d.tables;
    var orphans := S.Orphans(d.tables);
    var todo := orphans;
    DropNoUsers(start, orphans);
    SecondStepNeverFails(start);
    hide Inv, S.DropUsers, S.Destroyable;
    while todo != {}
      invariant d.Valid() && todo <= orphans && d.tables == S.DropUsers(start, orphans - todo)
    {
      var u := Least(todo);
      DropOneMoreUser(start, orphans, todo, u);
      OrphanIsDestroyable(d.tables, u);
      OrphansAreFree(d.tables, {u});
      DropUsersKeepsInv(d.tables, {u});
      ok := DestroyUser(d, u);
      assert ok;
      todo := todo - {u};
    }
    assert orphans - {} == orphans;
    ok := true;
  }

  lemma DropNoUsers(db: Tables, us: set<Id>)
    ensures S.DropUsers(db, us - us) == db
  {
    var later := S.DropUsers(db, us - us);
    assert S.SeatsOf(db.memberships, us - us) == {};
    assert later.files.exports == db.files.exports && later.requests == db.requests;
    assert later.invitations == db.invitations;
    assert later.logins.sessions == db.logins.sessions && later.logins.magicLinks == db.logins.magicLinks;
  }

  lemma DropOneMoreUser(db: Tables, us: set<Id>, todo: set<Id>, u: Id)
    requires u in todo && todo <= us && us <= S.Orphans(db)
    ensures var sofar := S.DropUsers(db, us - todo);
            u in S.Orphans(sofar) && S.DropUsers(sofar, {u}) == S.DropUsers(db, us - (todo - {u}))
  {
    assert us - (todo - {u}) == us - todo + {u};
    DropUsersTwice(db, us - todo, {u});
  }

  lemma DropUsersTwice(db: Tables, a: set<Id>, b: set<Id>)
    ensures S.DropUsers(S.DropUsers(db, a), b) == S.DropUsers(db, a + b)
  {
    UserSeatsTwice(db.files, db.memberships, a, b);
    LettersTwice(db.users, db.invitations, a, b);
    LoginsTwice(db.logins, a, b);
    hide S.SeatsOf, S.Disown, S.UninviteAll, S.EmailsOf, S.DropLogins;
    assert db.users - a - b == db.users - (a + b);
    assert Keep(Keep(db.requests, (r: JoinRequest) => r.user !in a), (r: JoinRequest) => r.user !in b)
        == Keep(db.requests, (r: JoinRequest) => r.user !in a + b);
  }

  lemma UserSeatsTwice(f: Files, ms: map<Id, Membership>, a: set<Id>, b: set<Id>)
    ensures var rest := ms - S.SeatsOf(ms, a);
            && rest - S.SeatsOf(rest, b) == ms - S.SeatsOf(ms, a + b)
            && S.Disown(S.Disown(f, S.SeatsOf(ms, a)), S.SeatsOf(rest, b)) == S.Disown(f, S.SeatsOf(ms, a + b))
  {
    var (j, k) := (S.SeatsOf(ms, a), S.SeatsOf(ms - S.SeatsOf(ms, a), b));
    assert S.SeatsOf(ms, a + b) == j + k;
    DisownTwice(f, j, k);
  }

  lemma LettersTwice(users: map<Id, User>, invs: map<Id, Invitation>, a: set<Id>, b: set<Id>)
    ensures S.UninviteAll(S.UninviteAll(invs, S.EmailsOf(users, a), a), S.EmailsOf(users - a, b), b)
         == S.UninviteAll(invs, S.EmailsOf(users, a + b), a + b)
  {
    assert S.EmailsOf(users, a + b) == S.EmailsOf(users, a) + S.EmailsOf(users - a, b);
  }

  lemma OwnersTwice(owners: map<Id, Id>, a: set<Id>, b: set<Id>)
    ensures S.Without(S.Without(owners, a), b) == S.Without(owners, a + b)
  {
  }

  lemma LoginsTwice(l: Logins, a: set<Id>, b: set<Id>)
    ensures S.DropLogins(S.DropLogins(l, a), b) == S.DropLogins(l, a + b)
  {
    OwnersTwice(l.sessions, a, b);
    OwnersTwice(l.magicLinks, a, b);
    hide S.Without;
  }

  /** perform: the second step runs only after the first ran through, in this execution or
      in the ones it resumes. */
  method Perform(d: Database, now: Time, from: Id, budget: nat) returns (ok: bool, cursor: Option<Id>)
    requires d.Valid()
    modifies d
    ensures d.Valid()
    ensures S.Outcome(d.tables, if ok then S.Done else S.Raised) == S.Purge(old(d.tables), now, from, cursor)
  {
    hide Inv;
    ok, cursor := PurgeOrganizations(d, now, from, budget);
    if ok && cursor.None? {
      ok := PurgeOrphans(d);
    }
  }
}
