/** The tables of a multi-tenant installation, the queries the models run on
    them, and the validations of a membership row. */
module Tenancy {
  import opened Common

  datatype Role = Member | Admin | Viewer
  datatype Via = ByInvitation | BySso | ByScim
  datatype Privacy = Private | Restricted | Public

  datatype User = User(email: string, banned: bool, redactedAt: Option<Time>, twoFactor: bool)
  datatype Organization = Organization(owner: Id, deletedAt: Option<Time>, privacy: Privacy, logo: bool, subscribed: bool)
  datatype Membership = Membership(org: Id, user: Id, role: Role, deactivatedAt: Option<Time>, via: Via)

  /** A project or a data export: it carries its organization and the membership that made it. */
  datatype Resource = Resource(org: Id, membership: Id)

  datatype Invitation = Invitation(org: Id, email: string, role: Role, expiresAt: Time, lastSentAt: Time,
                                   invitedBy: Option<Id>, createdAt: Time)
  datatype JoinRequest = JoinRequest(org: Id, user: Id, approved: bool, completedBy: Option<Id>)
  datatype SsoConnection = SsoConnection(org: Id, enabled: bool, enforced: bool, jit: bool, defaultRole: Role)
  datatype SsoDomain = SsoDomain(connection: Id, domain: string, verifiedAt: Option<Time>)
  datatype ScimConnection = ScimConnection(org: Id, enabled: bool, defaultRole: Role)

  /** What members file in an organization; `audited` holds the memberships
      some audit row names as its actor. */
  datatype Files = Files(projects: map<Id, Resource>, exports: map<Id, Resource>, audited: set<Id>)

  datatype Identity = Identity(connections: map<Id, SsoConnection>, domains: map<Id, SsoDomain>, scim: map<Id, ScimConnection>)

  /** What a sign-in proves first: a code sent to the address, or an assertion by connection
      `connection` for the membership it resolved to. */
  datatype FirstFactor = Code | Assertion(connection: Id, membership: Id)

  /** The signed cookie of a user whose second factor is still to come. */
  datatype Ticket = Ticket(user: Id, factor: FirstFactor, expiresAt: Time)

  /** Browser sessions and one-time codes, by the user they belong to, and the tickets handed out. */
  datatype Logins = Logins(sessions: map<Id, Id>, magicLinks: map<Id, Id>, tickets: map<Id, Ticket>)

  /** One database state. `nextId` is the next value of the id sequences. */
  datatype Tables = Tables(
    users: map<Id, User>,
    orgs: map<Id, Organization>,
    memberships: map<Id, Membership>,
    invitations: map<Id, Invitation>,
    requests: map<Id, JoinRequest>,
    files: Files,
    identity: Identity,
    logins: Logins,
    nextId: Id)

  const EMPTY := Tables(map[], map[], map[], map[], map[],
                        Files(map[], map[], {}), Identity(map[], map[], map[]), Logins(map[], map[], map[]), 0)

  const INVITATION_LIFETIME: Time := 14 * DAY
  const TICKET_LIFETIME: Time := 5 * MINUTE
  const RESEND_COOLDOWN: Time := 2 * MINUTE
  const INVITATION_RETENTION: Time := 30 * DAY
  const PURGE_AFTER: Time := 30 * DAY

  // ---- Generic row operations

  /** `DELETE FROM m WHERE NOT keep`. */
  function Keep<V>(m: map<Id, V>, keep: V -> bool): (r: map<Id, V>)
    ensures forall k :: k in r <==> k in m && keep(m[k])
    ensures forall k :: k in r ==> r[k] == m[k]
  {
    map k | k in m && keep(m[k]) :: m[k]
  }

  // ---- Users and organizations

  ghost function FindUser(users: map<Id, User>, email: string): (r: Option<Id>)
    ensures r.Some? ==> r.value in users && users[r.value].email == email
    ensures r.None? ==> forall k :: k in users ==> users[k].email != email
  {
    if k :| k in users && users[k].email == email then Some(k) else None
  }

  predicate EmailTaken(users: map<Id, User>, email: string) {
    exists u :: u in users && users[u].email == email
  }

  predicate Redacted(u: User) { u.redactedAt.Some? }

  predicate CanAuthenticate(u: User) { !u.banned && !Redacted(u) }

  /** Nobody else is let in by a first factor. */
  predicate MaySignIn(users: map<Id, User>, u: Id) {
    u in users && CanAuthenticate(users[u])
  }

  predicate HasSession(db: Tables, u: Id) {
    exists s :: s in db.logins.sessions && db.logins.sessions[s] == u
  }

  /** `u` takes a step of its own: from a session, which a redacted account never has, or with
      an API token, which is asked for a user who may authenticate. */
  predicate SignedIn(db: Tables, u: Id) {
    u in db.users && !Redacted(db.users[u]) && (!db.users[u].banned || HasSession(db, u))
  }

  /** The organization validation that depends on other rows: a listed organization needs a logo. */
  predicate ValidOrganization(o: Organization) { o.privacy.Private? || o.logo }

  predicate Kept(db: Tables, o: Id) { o in db.orgs && db.orgs[o].deletedAt.None? }

  // ---- Memberships

  predicate Active(m: Membership) { m.deactivatedAt.None? }

  predicate ActiveAdmin(m: Membership) { Active(m) && m.role.Admin? }

  predicate OwnedBy(orgs: map<Id, Organization>, m: Membership) {
    m.org in orgs && orgs[m.org].owner == m.user
  }

  ghost function FindMembership(ms: map<Id, Membership>, org: Id, user: Id): (r: Option<Id>)
    ensures r.Some? ==> r.value in ms && ms[r.value].org == org && ms[r.value].user == user
    ensures r.None? ==> forall k :: k in ms ==> ms[k].org != org || ms[k].user != user
  {
    if k :| k in ms && ms[k].org == org && ms[k].user == user then Some(k) else None
  }

  predicate OtherActiveAdmin(ms: map<Id, Membership>, org: Id, self: Option<Id>) {
    exists k :: k in ms && self != Some(k) && ms[k].org == org && ActiveAdmin(ms[k])
  }

  /** `was` is the stored role, `m` the row about to be saved, `self` its id unless it is new. */
  predicate SoleActiveAdmin(ms: map<Id, Membership>, self: Option<Id>, was: Role, m: Membership) {
    (m.role.Admin? || was.Admin?) && !OtherActiveAdmin(ms, m.org, self)
  }

  datatype Reason = Owner | SoleAdmin

  function UndeactivatableReasons(db: Tables, self: Option<Id>, was: Role, m: Membership): set<Reason> {
    if OwnedBy(db.orgs, m) then {Owner}
    else if SoleActiveAdmin(db.memberships, self, was, m) then {SoleAdmin}
    else {}
  }

  predicate Unclaimed(ms: map<Id, Membership>, self: Option<Id>, m: Membership) {
    forall k :: k in ms && self != Some(k) ==> ms[k].org != m.org || ms[k].user != m.user
  }

  /** Every validation that runs when row `id` is saved as `m`. */
  predicate ValidUpdate(db: Tables, id: Id, m: Membership)
    requires id in db.memberships
  {
    var was := db.memberships[id];
    && Unclaimed(db.memberships, Some(id), m)
    && !(m.role != was.role && was.role.Admin? && SoleActiveAdmin(db.memberships, Some(id), was.role, m))
    && !(m.role != was.role && was.role.Admin? && OwnedBy(db.orgs, m))
    && (m.deactivatedAt != was.deactivatedAt && m.deactivatedAt.Some? ==>
          UndeactivatableReasons(db, Some(id), was.role, m) == {})
    && (m.deactivatedAt != was.deactivatedAt && m.deactivatedAt.None? ==>
          m.user in db.users && !Redacted(db.users[m.user]))
  }

  /** Every validation that runs when `m` is saved as a new row. */
  predicate ValidNew(db: Tables, m: Membership) {
    && m.org in db.orgs && m.user in db.users
    && Unclaimed(db.memberships, None, m)
    && (m.deactivatedAt.Some? ==> UndeactivatableReasons(db, None, Member, m) == {})
  }

  // ---- Policies

  /** `actor` is a current membership: active, in an organization that is not soft-deleted. */
  predicate Acting(db: Tables, actor: Id) {
    actor in db.memberships && Active(db.memberships[actor]) && Kept(db, db.memberships[actor].org)
  }

  predicate ActingAdmin(db: Tables, actor: Id) {
    Acting(db, actor) && db.memberships[actor].role.Admin?
  }

  /** MembershipPolicy#update? */
  predicate MayUpdate(db: Tables, actor: Id, id: Id) {
    && ActingAdmin(db, actor) && id in db.memberships
    && db.memberships[id].org == db.memberships[actor].org
    && !OwnedBy(db.orgs, db.memberships[id])
  }

  /** MembershipPolicy#reactivate? */
  predicate MayReactivate(db: Tables, actor: Id, id: Id) {
    && ActingAdmin(db, actor) && id in db.memberships
    && var m := db.memberships[id];
    && m.org == db.memberships[actor].org
    && !Active(m) && m.user in db.users && !Redacted(db.users[m.user])
  }

  /** MembershipPolicy#destroy? */
  predicate MayDeactivate(db: Tables, actor: Id, id: Id) {
    && Acting(db, actor) && id in db.memberships
    && var (a, m) := (db.memberships[actor], db.memberships[id]);
    && m.org == a.org
    && !OwnedBy(db.orgs, m)
    && (m.user == a.user || (a.role.Admin? && Active(m)))
  }

  // ---- Single sign-on

  /** The part of `s` after its last '@', or all of it when there is none. */
  function AfterLastAt(s: string): string {
    if '@' in s then AfterLastAt(s[1..]) else s
  }

  function DropTrailingAts(s: string): (r: string)
    ensures r != "" ==> r[|r| - 1] != '@'
  {
    if s != "" && s[|s| - 1] == '@' then DropTrailingAts(s[..|s| - 1]) else s
  }

  /** The last non-empty piece of `email` split at '@', stripped and downcased. */
  function DomainFor(email: string): Option<string> {
    var domain := Downcase(Strip(AfterLastAt(DropTrailingAts(email))));
    if domain == "" then None else Some(domain)
  }

  predicate Verified(d: SsoDomain) { d.verifiedAt.Some? }

  predicate AssertsDomain(db: Tables, c: Id, domain: string) {
    exists d :: d in db.identity.domains && Verified(db.identity.domains[d]) && db.identity.domains[d].connection == c
                && db.identity.domains[d].domain == domain
  }

  predicate AssertsEmail(db: Tables, c: Id, email: string) {
    var domain := DomainFor(email);
    domain.Some? && AssertsDomain(db, c, domain.value)
  }

  /** discoverable_for_email: the first enabled connection that has verified the e-mail's domain. */
  ghost function DiscoverableFor(db: Tables, email: string): Option<Id> {
    if c :| c in db.identity.connections && db.identity.connections[c].enabled && AssertsEmail(db, c, email) then Some(c) else None
  }

  /** enforced_for_email: an enabled connection that has verified the e-mail's domain insists on itself. */
  predicate Enforced(db: Tables, email: string) {
    exists c :: c in db.identity.connections && db.identity.connections[c].enabled && db.identity.connections[c].enforced
                && AssertsEmail(db, c, email)
  }

  // ---- Erasure

  function RedactedEmail(u: Id): string {
    "redacted-" + Decimal(u) + "@users.moneygun.invalid"
  }

  /** User#undeletable_reasons is empty. */
  predicate Deletable(db: Tables, u: Id) {
    && (forall o :: o in db.orgs ==> db.orgs[o].owner != u)
    && (forall k :: k in db.memberships && db.memberships[k].user == u && Active(db.memberships[k]) ==>
          SoleAdmin !in UndeactivatableReasons(db, Some(k), db.memberships[k].role, db.memberships[k]))
  }

  predicate RetainedFootprint(db: Tables, u: Id) {
    exists k :: k in db.memberships && db.memberships[k].user == u &&
                (k in db.files.audited || exists p :: p in db.files.projects && db.files.projects[p].membership == k)
  }
}
