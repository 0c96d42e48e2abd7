/** What each request or job does to the tables, one function per operation.
    A failed transaction leaves the tables as they were. */
module TenancySteps {
  import opened Common
  import opened Tenancy

  datatype Reply =
    | Done
    | Granted(membership: Id)
    | NotAllowed        // a policy or a lookup scoped to the actor refuses
    | TransitionError   // the row is gone, expired or meant for someone else
    | Invalid           // a validation fails; the transaction rolls back
    | Conflict          // the provisioning API answers 409
    | Denied            // the identity provider's assertion is not accepted
    | Raised            // a database constraint or a guard aborts the operation

  datatype Outcome = Outcome(db: Tables, reply: Reply)

  // ---- Saving a membership row

  ghost function SaveMembership(db: Tables, id: Id, m: Membership): Outcome
    requires id in db.memberships
  {
    if ValidUpdate(db, id, m) then Outcome(db.(memberships := db.memberships[id := m]), Done) else Outcome(db, Invalid)
  }

  ghost function AddMembership(db: Tables, m: Membership): Outcome {
    if ValidNew(db, m)
    then Outcome(db.(memberships := db.memberships[db.nextId := m], nextId := db.nextId + 1), Done)
    else Outcome(db, Invalid)
  }

  /** find_or_initialize_by(user:) followed by deactivated_at = nil and a save. */
  ghost function Admit(db: Tables, org: Id, user: Id): Outcome {
    match FindMembership(db.memberships, org, user)
    case Some(k) => SaveMembership(db, k, db.memberships[k].(deactivatedAt := None))
    case None => AddMembership(db, Membership(org, user, Member, None, ByInvitation))
  }

  // ---- Accounts

  ghost function SignUp(db: Tables, email: string, valid: bool): Outcome {
    if Canonical(email) == "" || !valid || EmailTaken(db.users, Canonical(email)) then Outcome(db, Invalid)
    else Outcome(db.(users := db.users[db.nextId := User(Canonical(email), false, None, false)], nextId := db.nextId + 1), Done)
  }

  /** complete_email_change from `session`: every other session of the user ends. */
  ghost function ChangeEmail(db: Tables, u: Id, session: Id, email: string, valid: bool): Outcome {
    if !SignedIn(db, u) || session !in db.logins.sessions || db.logins.sessions[session] != u then Outcome(db, NotAllowed)
    else if Canonical(email) == "" || !valid || EmailTaken(db.users, Canonical(email)) then Outcome(db, Invalid)
    else Outcome(db.(users := db.users[u := db.users[u].(email := Canonical(email))],
                     logins := db.logins.(sessions := SessionsBut(db.logins.sessions, u, session))), Done)
  }

  function SessionsBut(sessions: map<Id, Id>, u: Id, session: Id): map<Id, Id> {
    map s | s in sessions && (s == session || sessions[s] != u) :: sessions[s]
  }

  ghost function Ban(db: Tables, u: Id, banned: bool): Outcome {
    if u !in db.users then Outcome(db, NotAllowed)
    else Outcome(db.(users := db.users[u := db.users[u].(banned := banned)],
                     logins := if banned then db.logins.(sessions := Keep(db.logins.sessions, (v: Id) => v != u)) else db.logins), Done)
  }

  /** The connection is enabled, and the membership an active one of the user in its organization. */
  predicate Backs(db: Tables, u: Id, c: Id, k: Id) {
    && c in db.identity.connections && db.identity.connections[c].enabled
    && k in db.memberships && Active(db.memberships[k]) && db.memberships[k].user == u
    && db.memberships[k].org == db.identity.connections[c].org
  }

  /** A code stands for an address no connection enforces itself on, an assertion for a seat it backs. */
  predicate Proves(db: Tables, u: Id, factor: FirstFactor)
    requires u in db.users
  {
    match factor
    case Code => !Enforced(db, db.users[u].email)
    case Assertion(c, k) => Backs(db, u, c, k)
  }

  ghost function AddSession(db: Tables, u: Id): Outcome {
    Outcome(db.(logins := db.logins.(sessions := db.logins.sessions[db.nextId := u]), nextId := db.nextId + 1), Done)
  }

  /** sign_in_or_verify_two_factor: a session, or the ticket to one for a user with a second factor. */
  ghost function PassFirstFactor(db: Tables, u: Id, factor: FirstFactor, now: Time): Outcome {
    if !MaySignIn(db.users, u) || !Proves(db, u, factor) then Outcome(db, NotAllowed)
    else if !db.users[u].twoFactor then AddSession(db, u)
    else
      var ticket := Ticket(u, factor, now + TICKET_LIFETIME);
      Outcome(db.(logins := db.logins.(tickets := db.logins.tickets[db.nextId := ticket]), nextId := db.nextId + 1), Done)
  }

  /** A verified second factor starts the session; of the first factor only an assertion is
      looked at again. `codeOk` is the answer of verify_otp for an enrolled user. */
  ghost function ConfirmSecondFactor(db: Tables, t: Id, codeOk: bool, now: Time): Outcome {
    if t !in db.logins.tickets || now >= db.logins.tickets[t].expiresAt then Outcome(db, NotAllowed)
    else
      var ticket := db.logins.tickets[t];
      if ticket.user !in db.users || !db.users[ticket.user].twoFactor || !codeOk then Outcome(db, NotAllowed)
      else if ticket.factor.Assertion? && !Backs(db, ticket.user, ticket.factor.connection, ticket.factor.membership) then Outcome(db, Denied)
      else AddSession(db, ticket.user)
  }

  /** Signed out, ended from the list of sessions, or idle for too long. */
  ghost function EndSession(db: Tables, s: Id): Outcome {
    Outcome(db.(logins := db.logins.(sessions := db.logins.sessions - {s})), Done)
  }

  ghost function SendMagicLink(db: Tables, u: Id): Outcome {
    if u !in db.users || !CanAuthenticate(db.users[u]) then Outcome(db, NotAllowed)
    else Outcome(db.(logins := db.logins.(magicLinks := db.logins.magicLinks[db.nextId := u]), nextId := db.nextId + 1), Done)
  }

  /** The user switches the second factor on or off. */
  ghost function SetTwoFactor(db: Tables, u: Id, on: bool): Outcome {
    if !SignedIn(db, u) then Outcome(db, NotAllowed)
    else Outcome(db.(users := db.users[u := db.users[u].(twoFactor := on)]), Done)
  }

  // ---- Settings, billing and the resources of an organization

  ghost function UpdateOrganization(db: Tables, actor: Id, privacy: Privacy, logo: bool): Outcome {
    if !ActingAdmin(db, actor) then Outcome(db, NotAllowed)
    else
      var o := db.memberships[actor].org;
      var row := db.orgs[o].(privacy := privacy, logo := logo);
      if ValidOrganization(row) then Outcome(db.(orgs := db.orgs[o := row]), Done) else Outcome(db, Invalid)
  }

  /** A virus scan purges an infected logo without validating the organization. */
  ghost function PurgeLogo(db: Tables, o: Id): Outcome {
    if o !in db.orgs then Outcome(db, NotAllowed)
    else Outcome(db.(orgs := db.orgs[o := db.orgs[o].(logo := false)]), Done)
  }

  ghost function SetSubscription(db: Tables, o: Id, subscribed: bool): Outcome {
    if o !in db.orgs then Outcome(db, NotAllowed)
    else Outcome(db.(orgs := db.orgs[o := db.orgs[o].(subscribed := subscribed)]), Done)
  }

  /** SameOrganizationValidator on the membership of a project or data export. */
  predicate SameOrganization(ms: map<Id, Membership>, r: Resource) {
    r.membership in ms && ms[r.membership].org == r.org
  }

  ghost function CreateProject(db: Tables, actor: Id, valid: bool): Outcome {
    if !ActingAdmin(db, actor) then Outcome(db, NotAllowed)
    else
      var p := Resource(db.memberships[actor].org, actor);
      if !valid || !SameOrganization(db.memberships, p) then Outcome(db, Invalid)
      else Outcome(db.(files := db.files.(projects := db.files.projects[db.nextId := p]), nextId := db.nextId + 1), Done)
  }

  ghost function DestroyProject(db: Tables, actor: Id, p: Id): Outcome {
    if !ActingAdmin(db, actor) || p !in db.files.projects || db.files.projects[p].org != db.memberships[actor].org then Outcome(db, NotAllowed)
    else Outcome(db.(files := db.files.(projects := db.files.projects - {p})), Done)
  }

  ghost function CreateExport(db: Tables, actor: Id): Outcome {
    if !ActingAdmin(db, actor) then Outcome(db, NotAllowed)
    else
      var e := Resource(db.memberships[actor].org, actor);
      if !SameOrganization(db.memberships, e) then Outcome(db, Invalid)
      else Outcome(db.(files := db.files.(exports := db.files.exports[db.nextId := e]), nextId := db.nextId + 1), Done)
  }

  ghost function PurgeExport(db: Tables, e: Id): Outcome {
    Outcome(db.(files := db.files.(exports := db.files.exports - {e})), Done)
  }

  ghost function Audit(db: Tables, m: Id): Outcome {
    if m in db.memberships then Outcome(db.(files := db.files.(audited := db.files.audited + {m})), Done) else Outcome(db, NotAllowed)
  }

  // ---- Members page

  ghost function ChangeRole(db: Tables, actor: Id, id: Id, role: Role): Outcome {
    if !MayUpdate(db, actor, id) then Outcome(db, NotAllowed)
    else SaveMembership(db, id, db.memberships[id].(role := role))
  }

  ghost function Deactivate(db: Tables, actor: Id, id: Id, now: Time): Outcome {
    if !MayDeactivate(db, actor, id) then Outcome(db, NotAllowed)
    else SaveMembership(db, id, db.memberships[id].(deactivatedAt := Some(now)))
  }

  ghost function Reactivate(db: Tables, actor: Id, id: Id): Outcome {
    if !MayReactivate(db, actor, id) then Outcome(db, NotAllowed)
    else SaveMembership(db, id, db.memberships[id].(deactivatedAt := None))
  }

  // ---- Organizations

  /** The organization and, in the same transaction, its owner's admin membership. */
  ghost function CreateOrganization(db: Tables, owner: Id, privacy: Privacy, logo: bool, nameOk: bool): Outcome {
    var org := Organization(owner, None, privacy, logo, false);
    if !SignedIn(db, owner) || !nameOk || !ValidOrganization(org) then Outcome(db, Invalid)
    else
      var db1 := db.(orgs := db.orgs[db.nextId := org], nextId := db.nextId + 1);
      var added := AddMembership(db1, Membership(db.nextId, owner, Admin, None, ByInvitation));
      if added.reply == Done then added else Outcome(db, Invalid)
  }

  ghost function TransferOwnership(db: Tables, actor: Id, target: Id): Outcome {
    if !Acting(db, actor) || !OwnedBy(db.orgs, db.memberships[actor]) then Outcome(db, NotAllowed)
    else
      var o := db.memberships[actor].org;
      match FindMembership(db.memberships, o, target)
      case None => Outcome(db, NotAllowed)
      case Some(k) =>
        if !Active(db.memberships[k]) || target == db.orgs[o].owner then Outcome(db, NotAllowed)
        else
          var saved := SaveMembership(db, k, db.memberships[k].(role := Admin));
          if saved.reply != Done || !ValidOrganization(db.orgs[o]) then Outcome(db, Invalid)
          else Outcome(saved.db.(orgs := saved.db.orgs[o := saved.db.orgs[o].(owner := target)]), Done)
  }

  /** Soft deletion by the owner: invitations and identity connections go, the rest waits for the purge. */
  ghost function EraseOrganization(db: Tables, actor: Id, now: Time): Outcome {
    if !Acting(db, actor) || !OwnedBy(db.orgs, db.memberships[actor]) then Outcome(db, NotAllowed)
    else
      var o := db.memberships[actor].org;
      if db.orgs[o].subscribed then Outcome(db, NotAllowed)
      else if !ValidOrganization(db.orgs[o]) then Outcome(db, Invalid)
      else
        Outcome(db.(
          identity := DropConnections(db.identity, {o}),
          invitations := InvitationsOutside(db.invitations, {o}),
          orgs := db.orgs[o := db.orgs[o].(deletedAt := Some(now))]), Done)
  }

  function ConnectionsOutside(cs: map<Id, SsoConnection>, orgs: set<Id>): map<Id, SsoConnection> {
    Keep(cs, (c: SsoConnection) => c.org !in orgs)
  }

  /** A domain goes with its connection. */
  function DomainsOutside(ds: map<Id, SsoDomain>, cs: map<Id, SsoConnection>, orgs: set<Id>): map<Id, SsoDomain> {
    Keep(ds, (d: SsoDomain) => !(d.connection in cs && cs[d.connection].org in orgs))
  }

  function ScimOutside(cs: map<Id, ScimConnection>, orgs: set<Id>): map<Id, ScimConnection> {
    Keep(cs, (c: ScimConnection) => c.org !in orgs)
  }

  /** The identity connections of the organizations in `orgs`, gone with their domains. */
  function DropConnections(i: Identity, orgs: set<Id>): Identity {
    Identity(ConnectionsOutside(i.connections, orgs), DomainsOutside(i.domains, i.connections, orgs), ScimOutside(i.scim, orgs))
  }

  // ---- Invitations

  predicate Pending(i: Invitation, now: Time) { i.expiresAt > now }

  predicate Expired(i: Invitation, now: Time) { i.expiresAt < now }

  /** The invitations left when the expired ones of this address in this organization are purged. */
  function WithoutExpired(invs: map<Id, Invitation>, org: Id, email: string, now: Time): map<Id, Invitation> {
    Keep(invs, (i: Invitation) => !(i.org == org && i.email == email && i.expiresAt <= now))
  }

  predicate AddressIsMember(db: Tables, org: Id, email: string) {
    exists k, u :: k in db.memberships && u in db.users && db.memberships[k].org == org && Active(db.memberships[k])
                   && db.memberships[k].user == u && db.users[u].email == email
  }

  predicate AddressIsInvited(invs: map<Id, Invitation>, org: Id, email: string) {
    exists i :: i in invs && invs[i].org == org && invs[i].email == email
  }

  predicate AddressIsPending(invs: map<Id, Invitation>, org: Id, email: string, now: Time) {
    exists i :: i in invs && invs[i].org == org && invs[i].email == email && Pending(invs[i], now)
  }

  /** before_validation purge, then the create-time validations; None when the save fails. */
  ghost function AddInvitation(db: Tables, org: Id, email: string, role: Role, inviter: Option<Id>, now: Time): Option<Tables> {
    var rest := WithoutExpired(db.invitations, org, email, now);
    if AddressIsMember(db, org, email) || AddressIsInvited(rest, org, email) then None
    else
      Some(db.(
        invitations := rest[db.nextId := Invitation(org, email, role, now + INVITATION_LIFETIME, now, inviter, now)],
        nextId := db.nextId + 1))
  }

  ghost function Invite(db: Tables, actor: Id, rawEmail: string, role: Role, formatOk: bool, now: Time): Outcome {
    if !ActingAdmin(db, actor) then Outcome(db, NotAllowed)
    else if Canonical(rawEmail) == "" || !formatOk then Outcome(db, Invalid)
    else
      match AddInvitation(db, db.memberships[actor].org, Canonical(rawEmail), role, Some(db.memberships[actor].user), now)
      case None => Outcome(db, Invalid)
      case Some(db1) => Outcome(db1, Done)
  }

  /** `copy` is the caller's in-memory invitation, loaded at any earlier time; the policy reads it. */
  predicate InviteeOf(db: Tables, user: Id, copy: Invitation, now: Time) {
    SignedIn(db, user) && copy.email == db.users[user].email && !Expired(copy, now)
  }

  /** The checks accept! and decline! repeat on the locked, reloaded row. */
  predicate Transitionable(db: Tables, user: Id, id: Id, now: Time)
    requires user in db.users
  {
    id in db.invitations && !Expired(db.invitations[id], now) && db.invitations[id].email == db.users[user].email
  }

  ghost function AcceptInvitation(db: Tables, user: Id, id: Id, copy: Invitation, now: Time): Outcome {
    if !InviteeOf(db, user, copy, now) then Outcome(db, NotAllowed)
    else if !Transitionable(db, user, id, now) then Outcome(db, TransitionError)
    else Redeem(db, user, id)
  }

  /** The invitation goes and the invitee's seat comes, or neither. */
  ghost function Redeem(db: Tables, user: Id, id: Id): Outcome
    requires id in db.invitations
  {
    var i := db.invitations[id];
    var db1 := db.(invitations := db.invitations - {id});
    match FindMembership(db.memberships, i.org, user)
    case Some(k) =>
      if Active(db.memberships[k]) then Outcome(db, TransitionError)
      else
        var saved := SaveMembership(db1, k, db.memberships[k].(role := i.role, deactivatedAt := None, via := ByInvitation));
        if saved.reply == Done then saved else Outcome(db, Invalid)
    case None =>
      var added := AddMembership(db1, Membership(i.org, user, i.role, None, ByInvitation));
      if added.reply == Done then added else Outcome(db, Invalid)
  }

  ghost function DeclineInvitation(db: Tables, user: Id, id: Id, copy: Invitation, now: Time): Outcome {
    if !InviteeOf(db, user, copy, now) then Outcome(db, NotAllowed)
    else if !Transitionable(db, user, id, now) then Outcome(db, TransitionError)
    else Outcome(db.(invitations := db.invitations - {id}), Done)
  }

  /** The caller found `copy` among the pending invitations of the organization it administers. */
  ghost function RevokeInvitation(db: Tables, actor: Id, id: Id, copy: Invitation, now: Time): Outcome {
    if !ActingAdmin(db, actor) || copy.org != db.memberships[actor].org then Outcome(db, NotAllowed)
    else if id !in db.invitations || Expired(db.invitations[id], now) then Outcome(db, TransitionError)
    else Outcome(db.(invitations := db.invitations - {id}), Done)
  }

  /** Takes no lock: an UPDATE by primary key, which a vanished row ignores. */
  ghost function ResendInvitation(db: Tables, actor: Id, id: Id, copy: Invitation, now: Time): Outcome {
    if !ActingAdmin(db, actor) || copy.org != db.memberships[actor].org then Outcome(db, NotAllowed)
    else if copy.lastSentAt > now - RESEND_COOLDOWN then Outcome(db, Invalid)
    else if id !in db.invitations then Outcome(db, Done)
    else
      var i := db.invitations[id].(expiresAt := now + INVITATION_LIFETIME, lastSentAt := now);
      Outcome(db.(invitations := db.invitations[id := i]), Done)
  }

  ghost function PurgeInvitations(db: Tables, now: Time): Outcome {
    Outcome(db.(invitations := Keep(db.invitations, (i: Invitation) =>
      !(i.expiresAt <= now && i.createdAt <= now - INVITATION_RETENTION))), Done)
  }

  // ---- Join requests

  predicate Requested(rs: map<Id, JoinRequest>, org: Id, user: Id) {
    exists r :: r in rs && rs[r].org == org && rs[r].user == user
  }

  predicate Participant(ms: map<Id, Membership>, org: Id, user: Id) {
    exists k :: k in ms && ms[k].org == org && ms[k].user == user && Active(ms[k])
  }

  /** The community page lists organizations that are not private and have a logo, soft-deleted or not. */
  predicate Discoverable(db: Tables, org: Id) {
    org in db.orgs && !db.orgs[org].privacy.Private? && db.orgs[org].logo
  }

  /** A public organization admits at once, ignoring whether the save succeeded. */
  ghost function RequestAccess(db: Tables, user: Id, org: Id): Outcome {
    if !SignedIn(db, user) || !Discoverable(db, org) then Outcome(db, NotAllowed)
    else if Participant(db.memberships, org, user) then Outcome(db, Invalid)
    else if db.orgs[org].privacy.Public? then Outcome(Admit(db, org, user).db, Done)
    else if Requested(db.requests, org, user) then Outcome(db, Invalid)
    else Outcome(db.(requests := db.requests[db.nextId := JoinRequest(org, user, false, None)], nextId := db.nextId + 1), Done)
  }

  ghost function CancelRequest(db: Tables, user: Id, id: Id): Outcome {
    if SignedIn(db, user) && id in db.requests && db.requests[id].user == user && !db.requests[id].approved
    then Outcome(db.(requests := db.requests - {id}), Done)
    else Outcome(db, NotAllowed)
  }

  predicate MayDecide(db: Tables, actor: Id, id: Id) {
    ActingAdmin(db, actor) && id in db.requests && db.requests[id].org == db.memberships[actor].org
  }

  ghost function ApproveRequest(db: Tables, actor: Id, id: Id): Outcome {
    if !MayDecide(db, actor, id) then Outcome(db, NotAllowed)
    else
      var r := db.requests[id].(approved := true, completedBy := Some(db.memberships[actor].user));
      var admitted := Admit(db.(requests := db.requests[id := r]), r.org, r.user);
      if admitted.reply == Done then admitted else Outcome(db, Invalid)
  }

  ghost function RejectRequest(db: Tables, actor: Id, id: Id): Outcome {
    if !MayDecide(db, actor, id) then Outcome(db, NotAllowed)
    else Outcome(db.(requests := db.requests - {id}), Done)
  }

  // ---- SAML sign-on

  /** A user the application knows: a current or, with JIT, a former member. */
  ghost function SignInUser(db: Tables, connection: SsoConnection, u: Id): Outcome
    requires u in db.users
  {
    if !CanAuthenticate(db.users[u]) then Outcome(db, Denied)
    else
      match FindMembership(db.memberships, connection.org, u)
      case None => Outcome(db, Denied)
      case Some(k) =>
        if Active(db.memberships[k]) then Outcome(db, Granted(k))
        else if !connection.jit then Outcome(db, Denied)
        else
          var saved := SaveMembership(db, k, db.memberships[k].(deactivatedAt := None, via := BySso));
          if saved.reply == Done then Outcome(saved.db, Granted(k)) else Outcome(db, Denied)
  }

  /** A new address: with JIT, a user and its membership in one transaction. */
  ghost function SignInStranger(db: Tables, connection: SsoConnection, email: string, userOk: bool): Outcome {
    if !connection.jit || !userOk then Outcome(db, Denied)
    else
      var added := AddUserWithSeat(db, email, Membership(connection.org, db.nextId, connection.defaultRole, None, BySso));
      if added.reply == Done then Outcome(added.db, Granted(db.nextId + 1)) else Outcome(db, Denied)
  }

  /** User `db.nextId` and its first membership `m`; both rows or none. */
  ghost function AddUserWithSeat(db: Tables, email: string, m: Membership): Outcome {
    var db1 := db.(users := db.users[db.nextId := User(email, false, None, false)], nextId := db.nextId + 1);
    var added := AddMembership(db1, m);
    if added.reply == Done then added else Outcome(db, Invalid)
  }

  /** resolve_sign_in. `userOk` says whether a new user with this address would be valid. */
  ghost function ResolveSignIn(db: Tables, c: Id, asserted: string, userOk: bool): Outcome
    requires c in db.identity.connections
  {
    var email := Canonical(asserted);
    if !AssertsEmail(db, c, email) then Outcome(db, Denied)
    else
      match FindUser(db.users, email)
      case Some(u) => SignInUser(db, db.identity.connections[c], u)
      case None => SignInStranger(db, db.identity.connections[c], email, userOk)
  }

  /** The callback only looks among enabled connections. */
  ghost function SsoCallback(db: Tables, c: Id, asserted: string, userOk: bool): Outcome {
    if c !in db.identity.connections || !db.identity.connections[c].enabled then Outcome(db, NotAllowed)
    else ResolveSignIn(db, c, asserted, userOk)
  }

  /** The one connection of an organization, of either kind. */
  ghost function OfOrganization<V>(cs: map<Id, V>, orgOf: V -> Id, org: Id): (r: Option<Id>)
    ensures r.Some? ==> r.value in cs && orgOf(cs[r.value]) == org
    ensures r.None? ==> forall c :: c in cs ==> orgOf(cs[c]) != org
  {
    if c :| c in cs && orgOf(cs[c]) == org then Some(c) else None
  }

  ghost function SsoOf(db: Tables, org: Id): Option<Id> {
    OfOrganization(db.identity.connections, (c: SsoConnection) => c.org, org)
  }

  ghost function SaveConnection(db: Tables, actor: Id, settings: SsoConnection, fieldsOk: bool): Outcome {
    if !ActingAdmin(db, actor) then Outcome(db, NotAllowed)
    else
      var row := settings.(org := db.memberships[actor].org);
      var current := SsoOf(db, row.org);
      var id := if current.Some? then current.value else db.nextId;
      if !fieldsOk || (row.enabled && !exists d :: d in db.identity.domains && db.identity.domains[d].connection == id
                                                   && Verified(db.identity.domains[d]))
      then Outcome(db, Invalid)
      else Outcome(db.(identity := db.identity.(connections := db.identity.connections[id := row]),
                       nextId := if current.Some? then db.nextId else db.nextId + 1), Done)
  }

  ghost function DestroyConnection(db: Tables, actor: Id): Outcome {
    if !ActingAdmin(db, actor) then Outcome(db, NotAllowed)
    else
      var o := db.memberships[actor].org;
      Outcome(db.(identity := DropConnections(db.identity, {o}).(scim := db.identity.scim)), Done)
  }

  ghost function AddDomain(db: Tables, actor: Id, domain: string, formatOk: bool): Outcome {
    if !ActingAdmin(db, actor) || SsoOf(db, db.memberships[actor].org).None? then Outcome(db, NotAllowed)
    else
      var c := SsoOf(db, db.memberships[actor].org).value;
      if !formatOk || exists d :: d in db.identity.domains && db.identity.domains[d].connection == c
                                  && db.identity.domains[d].domain == domain
      then Outcome(db, Invalid)
      else
        var domains := db.identity.domains[db.nextId := SsoDomain(c, domain, None)];
        Outcome(db.(identity := db.identity.(domains := domains), nextId := db.nextId + 1), Done)
  }

  predicate ManagesDomain(db: Tables, actor: Id, d: Id) {
    && ActingAdmin(db, actor) && d in db.identity.domains && db.identity.domains[d].connection in db.identity.connections
    && db.identity.connections[db.identity.domains[d].connection].org == db.memberships[actor].org
  }

  predicate ClaimedElsewhere(ds: map<Id, SsoDomain>, d: Id)
    requires d in ds
  {
    exists e :: e in ds && e != d && Verified(ds[e]) && ds[e].domain == ds[d].domain
  }

  /** verify!. `published` is the answer of the DNS lookup. */
  ghost function VerifyDomain(db: Tables, actor: Id, d: Id, published: bool, now: Time): Outcome {
    if !ManagesDomain(db, actor, d) then Outcome(db, NotAllowed)
    else if Verified(db.identity.domains[d]) then Outcome(db, Done)
    else if !published || ClaimedElsewhere(db.identity.domains, d) then Outcome(db, Invalid)
    else Outcome(db.(identity := db.identity.(domains := db.identity.domains[d := db.identity.domains[d].(verifiedAt := Some(now))])), Done)
  }

  ghost function DestroyDomain(db: Tables, actor: Id, d: Id): Outcome {
    if !ManagesDomain(db, actor, d) then Outcome(db, NotAllowed)
    else Outcome(db.(identity := db.identity.(domains := db.identity.domains - {d})), Done)
  }

  // ---- SCIM provisioning

  ghost function SaveScim(db: Tables, actor: Id, enabled: bool, role: Role): Outcome {
    if !ActingAdmin(db, actor) then Outcome(db, NotAllowed)
    else
      var o := db.memberships[actor].org;
      var current := OfOrganization(db.identity.scim, (c: ScimConnection) => c.org, o);
      var id := if current.Some? then current.value else db.nextId;
      Outcome(db.(identity := db.identity.(scim := db.identity.scim[id := ScimConnection(o, enabled, role)]),
                  nextId := if current.Some? then db.nextId else db.nextId + 1), Done)
  }

  ghost function DestroyScim(db: Tables, actor: Id): Outcome {
    if !ActingAdmin(db, actor) then Outcome(db, NotAllowed)
    else
      var o := db.memberships[actor].org;
      Outcome(db.(identity := db.identity.(scim := ScimOutside(db.identity.scim, {o}))), Done)
  }

  /** POST /Users with the token of connection `c`. A blank userName is refused
      before the action runs; an account that exists but never belonged to the
      organization gets an invitation and a 409. */
  ghost function ScimCreate(db: Tables, c: Id, userName: string, active: Option<bool>, userOk: bool, now: Time): Outcome {
    if c !in db.identity.scim || !db.identity.scim[c].enabled then Outcome(db, NotAllowed)
    else
      var email := Canonical(userName);
      var o := db.identity.scim[c].org;
      if email == "" then Outcome(db, Invalid)
      else
        match FindUser(db.users, email)
        case None => ScimProvision(db, c, email, active, userOk, now)
        case Some(u) =>
          match FindMembership(db.memberships, o, u)
          case None => Outcome(ScimInvite(db, c, email, now), Conflict)
          case Some(k) =>
            if Active(db.memberships[k]) then Outcome(db, Conflict)
            else
              var saved := SaveMembership(db, k, db.memberships[k].(deactivatedAt := None, via := ByScim));
              if saved.reply == Done then saved else Outcome(db, Conflict)
  }

  ghost function ScimInvite(db: Tables, c: Id, email: string, now: Time): Tables
    requires c in db.identity.scim
  {
    var o := db.identity.scim[c].org;
    if AddressIsPending(db.invitations, o, email, now) then db
    else
      match AddInvitation(db, o, email, db.identity.scim[c].defaultRole, None, now)
      case None => db
      case Some(db1) => db1
  }

  ghost function ScimProvision(db: Tables, c: Id, email: string, active: Option<bool>, userOk: bool, now: Time): Outcome
    requires c in db.identity.scim
  {
    if !userOk then Outcome(db, Invalid)
    else
      var deactivatedAt := if active == Some(false) then Some(now) else None;
      var connection := db.identity.scim[c];
      var added := AddUserWithSeat(db, email, Membership(connection.org, db.nextId, connection.defaultRole, deactivatedAt, ByScim));
      if added.reply == Done then added else Outcome(db, Conflict)
  }

  /** PUT and PATCH: userName never moves an existing row, only `active` writes it. */
  ghost function ScimUpdate(db: Tables, c: Id, id: Id, active: Option<bool>, now: Time): Outcome {
    if c !in db.identity.scim || !db.identity.scim[c].enabled || id !in db.memberships || db.memberships[id].org != db.identity.scim[c].org
    then Outcome(db, NotAllowed)
    else
      var m := db.memberships[id];
      var row := match active
                 case None => m
                 case Some(true) => m.(deactivatedAt := None)
                 case Some(false) => if Active(m) then m.(deactivatedAt := Some(now)) else m;
      var saved := SaveMembership(db, id, row);
      if saved.reply == Done then saved else Outcome(db, Conflict)
  }

  ghost function ScimDestroy(db: Tables, c: Id, id: Id, now: Time): Outcome {
    if c !in db.identity.scim || !db.identity.scim[c].enabled || id !in db.memberships || db.memberships[id].org != db.identity.scim[c].org
    then Outcome(db, NotAllowed)
    else if !Active(db.memberships[id]) then Outcome(db, Done)
    else
      var saved := SaveMembership(db, id, db.memberships[id].(deactivatedAt := Some(now)));
      if saved.reply == Done then saved else Outcome(db, Conflict)
  }

  // ---- Account closure

  /** Every active membership of `u` deactivated at once. */
  function Withdrawn(ms: map<Id, Membership>, u: Id, now: Time): (r: map<Id, Membership>)
    ensures r.Keys == ms.Keys
    ensures forall k :: k in ms ==>
              r[k] == if ms[k].user == u && Active(ms[k]) then ms[k].(deactivatedAt := Some(now)) else ms[k]
  {
    map k | k in ms :: if ms[k].user == u && Active(ms[k]) then ms[k].(deactivatedAt := Some(now)) else ms[k]
  }

  /** The rows of the users in `us` gone. */
  function Without(owners: map<Id, Id>, us: set<Id>): (r: map<Id, Id>)
    ensures forall k :: k in r <==> k in owners && owners[k] !in us
    ensures forall k :: k in r ==> r[k] == owners[k]
  {
    Keep(owners, (u: Id) => u !in us)
  }

  /** Tickets are cookies and stay with their browsers. */
  function DropLogins(l: Logins, us: set<Id>): Logins {
    Logins(Without(l.sessions, us), Without(l.magicLinks, us), l.tickets)
  }

  /** redact!: the row stays for attribution, access and contact data go. */
  ghost function Redact(db: Tables, u: Id, now: Time): Outcome
    requires u in db.users
  {
    if Redacted(db.users[u]) || !Deletable(db, u) then Outcome(db, NotAllowed)
    else if exists v :: v in db.users && v != u && db.users[v].email == RedactedEmail(u) then Outcome(db, Invalid)
    else
      Outcome(db.(
        users := db.users[u := User(RedactedEmail(u), db.users[u].banned, Some(now), false)],
        memberships := Withdrawn(db.memberships, u, now),
        invitations := Keep(db.invitations, (i: Invitation) => i.email != db.users[u].email),
        logins := DropLogins(db.logins, {u})), Done)
  }

  /** The memberships of the users in `us`. */
  function SeatsOf(ms: map<Id, Membership>, us: set<Id>): set<Id> {
    set k | k in ms && ms[k].user in us
  }

  /** Invitations to an address in `emails` go; inviters in `us` are forgotten. */
  function UninviteAll(invs: map<Id, Invitation>, emails: set<string>, us: set<Id>): map<Id, Invitation> {
    map i | i in invs && invs[i].email !in emails :: Uninvited(invs[i], us)
  }

  function EmailsOf(users: map<Id, User>, us: set<Id>): set<string> {
    set u | u in us && u in users :: users[u].email
  }

  /** The memberships `ks` gone from the files: their exports go, the audit trail forgets them. */
  function Disown(f: Files, ks: set<Id>): Files {
    f.(exports := Keep(f.exports, (e: Resource) => e.membership !in ks), audited := f.audited - ks)
  }

  /** Hard deletion of the users in `us` with every row that depends on them. */
  ghost function DropUsers(db: Tables, us: set<Id>): Tables {
    var gone := SeatsOf(db.memberships, us);
    db.(
      users := db.users - us,
      memberships := db.memberships - gone,
      files := Disown(db.files, gone),
      requests := Keep(db.requests, (r: JoinRequest) => r.user !in us),
      invitations := UninviteAll(db.invitations, EmailsOf(db.users, us), us),
      logins := DropLogins(db.logins, us))
  }

  function Uninvited(i: Invitation, us: set<Id>): Invitation {
    if i.invitedBy.Some? && i.invitedBy.value in us then i.(invitedBy := None) else i
  }

  /** What stops `destroy`: an audit trail, an owned organization, a project, or
      a join request of someone else that the user once completed. */
  predicate Destroyable(db: Tables, u: Id) {
    && !RetainedFootprint(db, u)
    && (forall o :: o in db.orgs ==> db.orgs[o].owner != u)
    && (forall r :: r in db.requests && db.requests[r].user != u ==> db.requests[r].completedBy != Some(u))
  }

  ghost function DestroyUser(db: Tables, u: Id): Outcome {
    if Destroyable(db, u) then Outcome(DropUsers(db, {u}), Done) else Outcome(db, Raised)
  }

  function ActiveSeats(ms: map<Id, Membership>, u: Id): set<Id> {
    set k | k in ms && ms[k].user == u && Active(ms[k])
  }

  /** The session is gone, and the audit trail names every active membership of `u` for it. */
  function SignedOut(db: Tables, u: Id, session: Id): Tables {
    db.(logins := db.logins.(sessions := db.logins.sessions - {session}),
        files := db.files.(audited := db.files.audited + ActiveSeats(db.memberships, u)))
  }

  /** DELETE /user from `session`: signing out comes first and leaves its audit rows, then
      erase! redacts or destroys. */
  ghost function CloseAccount(db: Tables, u: Id, session: Id, now: Time): Outcome {
    if u !in db.users || session !in db.logins.sessions || db.logins.sessions[session] != u || !Deletable(db, u) then Outcome(db, NotAllowed)
    else
      var db1 := SignedOut(db, u, session);
      if RetainedFootprint(db1, u) then Redact(db1, u, now) else DestroyUser(db1, u)
  }

  // ---- Purge

  predicate Due(o: Organization, now: Time) {
    o.deletedAt.Some? && o.deletedAt.value <= now - PURGE_AFTER
  }

  /** The memberships in the organizations `os`. */
  function SeatsIn(ms: map<Id, Membership>, os: set<Id>): set<Id> {
    set k | k in ms && ms[k].org in os
  }

  /** The projects and exports of the organizations `os` gone. */
  function Unfile(f: Files, os: set<Id>): Files {
    f.(projects := Keep(f.projects, (p: Resource) => p.org !in os), exports := Keep(f.exports, (e: Resource) => e.org !in os))
  }

  function InvitationsOutside(invs: map<Id, Invitation>, os: set<Id>): map<Id, Invitation> {
    Keep(invs, (i: Invitation) => i.org !in os)
  }

  function RequestsOutside(rs: map<Id, JoinRequest>, os: set<Id>): map<Id, JoinRequest> {
    Keep(rs, (r: JoinRequest) => r.org !in os)
  }

  /** Every organization in `os` gone, with all rows that refer to one of them. */
  ghost function DropOrganizations(db: Tables, os: set<Id>): Tables {
    var gone := SeatsIn(db.memberships, os);
    db.(
      identity := DropConnections(db.identity, os),
      orgs := db.orgs - os,
      files := Disown(Unfile(db.files, os), gone),
      memberships := db.memberships - gone,
      invitations := InvitationsOutside(db.invitations, os),
      requests := RequestsOutside(db.requests, os))
  }

  /** What stops organization.destroy!: a subscription, or a project filed in
      another organization under one of its memberships. */
  predicate Purgeable(db: Tables, o: Id)
    requires o in db.orgs
  {
    && !db.orgs[o].subscribed
    && (forall p :: p in db.files.projects && db.files.projects[p].org != o ==>
          db.files.projects[p].membership in db.memberships ==> db.memberships[db.files.projects[p].membership].org != o)
  }

  function DueOrganizations(db: Tables, now: Time): set<Id> {
    set o | o in db.orgs && Due(db.orgs[o], now)
  }

  /** The due organizations from id `start` on, and in front of `stop` if there is one. */
  function DueBetween(db: Tables, now: Time, start: Id, stop: Option<Id>): set<Id> {
    set o | o in DueOrganizations(db, now) && start <= o && (stop.Some? ==> o < stop.value)
  }

  /** Those in front of the first one that cannot be destroyed. */
  ghost function PurgePrefix(db: Tables, now: Time, start: Id, stop: Option<Id>): set<Id> {
    set o | o in DueBetween(db, now, start, stop) && forall p :: p in DueBetween(db, now, start, stop) && p <= o ==> Purgeable(db, p)
  }

  function Orphans(db: Tables): set<Id> {
    set u | u in db.users && Redacted(db.users[u]) && forall k :: k in db.memberships ==> db.memberships[k].user != u
  }

  /** The orphans in front of the first one that cannot be destroyed. */
  ghost function OrphanPrefix(db: Tables): set<Id> {
    set u | u in Orphans(db) && forall v :: v in Orphans(db) && v <= u ==> Destroyable(db, v)
  }

  /** The first step of the job in id order, from the cursor `start`; it raises at the first
      organization it cannot destroy, and may be interrupted in front of `stop`. */
  ghost function PurgeOrganizations(db: Tables, now: Time, start: Id, stop: Option<Id>): Outcome {
    var purged := PurgePrefix(db, now, start, stop);
    Outcome(DropOrganizations(db, purged), if purged == DueBetween(db, now, start, stop) then Done else Raised)
  }

  /** The second step; likewise, but it has no cursor. */
  ghost function PurgeOrphans(db: Tables): Outcome {
    Outcome(DropUsers(db, OrphanPrefix(db)), if OrphanPrefix(db) == Orphans(db) then Done else Raised)
  }

  /** One execution of the job: resumed at `start`, interrupted at `stop` or not at all. */
  ghost function Purge(db: Tables, now: Time, start: Id, stop: Option<Id>): Outcome {
    var first := PurgeOrganizations(db, now, start, stop);
    if first.reply == Done && stop.None? then PurgeOrphans(first.db) else first
  }
}
