/** What admins set up: an organization's settings and files, and its identity providers, of
    which it never has two of a kind. */
module TenancySettings {
  import opened Common
  import opened Tenancy
  import opened TenancyMachine
  import opened TenancyInvariants
  import opened TenancyRuns
  import opened TenancyGuarantees
  import opened TenancySignOn
  import S = TenancySteps

  // ---- One provider of a kind

  ghost predicate OneSso(cs: map<Id, SsoConnection>) {
    forall b, c :: b in cs && c in cs && cs[b].org == cs[c].org ==> b == c
  }

  ghost predicate OneScim(cs: map<Id, ScimConnection>) {
    forall b, c :: b in cs && c in cs && cs[b].org == cs[c].org ==> b == c
  }

  /** No organization has two connections of a kind, and every domain is filed under one that exists. */
  ghost predicate ProvidersInOrder(i: Identity) {
    && OneSso(i.connections) && OneScim(i.scim)
    && forall d :: d in i.domains ==> i.domains[d].connection in i.connections
  }

  /** Connections go with their domains, or everything stays. */
  ghost predicate FewerProviders(i: Identity, later: Identity) {
    && Subtable(later.connections, i.connections) && Subtable(later.scim, i.scim) && Subtable(later.domains, i.domains)
    && forall d :: d in later.domains ==> later.domains[d].connection in later.connections
  }

  lemma FewerInOrder(i: Identity, later: Identity)
    requires ProvidersInOrder(i) && FewerProviders(i, later)
    ensures ProvidersInOrder(later)
  {
  }

  lemma AccountStepKeepsProviders(db: Tables, a: AccountAction)
    ensures AccountStep(db, a).db.identity == db.identity
  {
    hide Deletable, RetainedFootprint, S.Destroyable, Canonical;
  }

  lemma DroppedInOrder(i: Identity, os: set<Id>)
    requires ProvidersInOrder(i)
    ensures ProvidersInOrder(S.DropConnections(i, os))
  {
    FewerInOrder(i, S.DropConnections(i, os));
  }

  lemma PurgeKeepsProviders(db: Tables, now: Time, start: Id, stop: Option<Id>)
    requires ProvidersInOrder(db.identity)
    ensures ProvidersInOrder(S.Purge(db, now, start, stop).db.identity)
  {
    DroppedInOrder(db.identity, S.PurgePrefix(db, now, start, stop));
    hide ProvidersInOrder, S.PurgePrefix, S.OrphanPrefix, S.Orphans, S.DueBetween, S.DropConnections;
  }

  lemma EraseKeepsProviders(db: Tables, actor: Id, now: Time)
    requires ProvidersInOrder(db.identity)
    ensures ProvidersInOrder(S.EraseOrganization(db, actor, now).db.identity)
  {
    if actor in db.memberships { DroppedInOrder(db.identity, {db.memberships[actor].org}); }
    hide ProvidersInOrder, S.DropConnections;
  }

  lemma OrganizationStepKeepsProviders(db: Tables, a: OrganizationAction)
    requires ProvidersInOrder(db.identity)
    ensures ProvidersInOrder(OrganizationStep(db, a).db.identity)
  {
    hide ProvidersInOrder, ValidNew, ValidUpdate;
    match a
    case PurgeJob(now, start, stop) => PurgeKeepsProviders(db, now, start, stop); hide S.Purge;
    case EraseOrganization(actor, now) => EraseKeepsProviders(db, actor, now); hide S.EraseOrganization;
    case _ =>
  }

  lemma AdmitKeepsProviders(db: Tables, o: Id, u: Id)
    ensures S.Admit(db, o, u).db.identity == db.identity
  {
    hide ValidNew, ValidUpdate;
  }

  lemma SeatStepKeepsProviders(db: Tables, a: SeatAction)
    ensures SeatStep(db, a).db.identity == db.identity
  {
    match a
    case RequestAccess(u, o) => AdmitKeepsProviders(db, o, u); hide S.Admit;
    case Approve(actor, r) =>
      if S.MayDecide(db, actor, r) {
        var row := db.requests[r].(approved := true, completedBy := Some(db.memberships[actor].user));
        AdmitKeepsProviders(db.(requests := db.requests[r := row]), row.org, row.user);
        hide S.Admit;
      }
    case _ => hide ValidUpdate;
  }

  lemma InviteStepKeepsProviders(db: Tables, a: InviteAction)
    ensures InviteStep(db, a).db.identity == db.identity
  {
    hide ValidNew, ValidUpdate;
  }

  lemma SaveConnectionInOrder(db: Tables, actor: Id, settings: SsoConnection, ok: bool)
    requires Fresh(db) && ProvidersInOrder(db.identity)
    ensures ProvidersInOrder(S.SaveConnection(db, actor, settings, ok).db.identity)
  {
  }

  lemma SaveScimInOrder(db: Tables, actor: Id, enabled: bool, role: Role)
    requires ProvidersInOrder(db.identity)
    ensures ProvidersInOrder(S.SaveScim(db, actor, enabled, role).db.identity) && ProvidersInOrder(S.DestroyScim(db, actor).db.identity)
  {
  }

  lemma DomainsInOrder(db: Tables, a: IdentityAction)
    requires ProvidersInOrder(db.identity) && (a.AddDomain? || a.VerifyDomain? || a.DestroyDomain? || a.DestroyConnection?)
    ensures ProvidersInOrder(IdentityStep(db, a).db.identity)
  {
    hide S.ClaimedElsewhere;
  }

  lemma SignOnKeepsProviders(db: Tables, a: IdentityAction)
    requires a.SsoSignIn? || a.ScimCreate? || a.ScimUpdate? || a.ScimDestroy?
    ensures IdentityStep(db, a).db.identity == db.identity
  {
    hide ValidNew, ValidUpdate, Canonical, AssertsEmail, S.AddressIsMember, S.AddressIsInvited, S.AddressIsPending;
  }

  lemma IdentityStepInOrder(db: Tables, a: IdentityAction)
    requires Fresh(db) && ProvidersInOrder(db.identity)
    ensures ProvidersInOrder(IdentityStep(db, a).db.identity)
  {
    hide Fresh, ProvidersInOrder, S.SaveConnection, S.SaveScim, S.DestroyScim;
    match a
    case SaveConnection(actor, settings, ok) => SaveConnectionInOrder(db, actor, settings, ok);
    case SaveScim(actor, enabled, role) => SaveScimInOrder(db, actor, enabled, role);
    case DestroyScim(actor) => SaveScimInOrder(db, actor, false, Member);
    case _ =>
      hide IdentityStep;
      if a.SsoSignIn? || a.ScimCreate? || a.ScimUpdate? || a.ScimDestroy? { SignOnKeepsProviders(db, a); } else { DomainsInOrder(db, a); }
  }

  lemma StepProvidersInOrder(db: Tables, a: Action)
    requires Fresh(db) && ProvidersInOrder(db.identity)
    ensures ProvidersInOrder(Step(db, a).db.identity)
  {
    hide Fresh, ProvidersInOrder, AccountStep, OrganizationStep, SeatStep, InviteStep, IdentityStep;
    match a
    case OnAccount(b) => AccountStepKeepsProviders(db, b);
    case OnOrganization(b) => OrganizationStepKeepsProviders(db, b);
    case OnSeat(b) => SeatStepKeepsProviders(db, b);
    case OnInvite(b) => InviteStepKeepsProviders(db, b);
    case OnIdentity(b) => IdentityStepInOrder(db, b);
  }

  /** Over any run no organization has two sign-on connections or two provisioning ones, and
      no domain outlives its connection. */
  lemma {:induction false} RunProvidersInOrder(db: Tables, run: seq<Action>)
    requires Inv(db) && ProvidersInOrder(db.identity)
    ensures Inv(Run(db, run)) && ProvidersInOrder(Run(db, run).identity)
    decreases run
  {
    assert Fresh(db);
    hide Inv, Fresh, ProvidersInOrder, Step;
    if run != [] {
      StepKeepsInv(db, run[0]);
      StepProvidersInOrder(db, run[0]);
      RunProvidersInOrder(Step(db, run[0]).db, run[1..]);
    }
  }

  // ---- What a setting writes

  /** The seat's organization, for an acting admin. */
  ghost predicate Administers(db: Tables, actor: Id) {
    actor in db.memberships && AdminOf(db, actor, db.memberships[actor].org)
  }

  /** A connection is saved for the admin's organization, whatever the settings name, in place
      of the one it has; it can be enabled only once one of its domains is verified. */
  lemma SavingConnectionIff(db: Tables, actor: Id, settings: SsoConnection, ok: bool)
    requires Fresh(db) && ProvidersInOrder(db.identity)
    ensures var r := S.SaveConnection(db, actor, settings, ok);
            if Administers(db, actor) && ok
               && (settings.enabled ==> exists d: Id, c: Id :: FiledVerified(db, d, c) && db.identity.connections[c].org == db.memberships[actor].org)
            then r.reply == S.Done && exists id :: SavedAs(db, r.db, id, settings.(org := db.memberships[actor].org))
            else r.reply != S.Done && r.db == db
  {
    if ActingAdmin(db, actor) {
      var o := db.memberships[actor].org;
      var current := S.SsoOf(db, o);
      var id := if current.Some? then current.value else db.nextId;
      if d: Id :| d in db.identity.domains && db.identity.domains[d].connection == id && Verified(db.identity.domains[d]) {
        assert FiledVerified(db, d, id);
      }
      hide ProvidersInOrder;
      if S.SaveConnection(db, actor, settings, ok).reply == S.Done {
        assert SavedAs(db, S.SaveConnection(db, actor, settings, ok).db, id, settings.(org := o));
      }
    }
  }

  predicate FiledVerified(db: Tables, d: Id, c: Id) {
    d in db.identity.domains && db.identity.domains[d].connection == c && db.identity.domains[d].verifiedAt != None && c in db.identity.connections
  }

  /** Connection `id`, the one the organization has or a new one, is as given; nothing else differs. */
  ghost predicate SavedAs(db: Tables, later: Tables, id: Id, row: SsoConnection) {
    && later == db.(identity := db.identity.(connections := db.identity.connections[id := row]), nextId := later.nextId)
    && (if id in db.identity.connections then db.identity.connections[id].org == row.org && later.nextId == db.nextId
        else id == db.nextId && later.nextId == db.nextId + 1
             && forall c :: c in db.identity.connections ==> db.identity.connections[c].org != row.org)
  }

  /** Removing the connection takes the organization's sign-on and its domains, and nothing else. */
  lemma RemovingConnectionIff(db: Tables, actor: Id)
    ensures var r := S.DestroyConnection(db, actor);
            if Administers(db, actor)
            then && r.reply == S.Done && r.db == db.(identity := Identity(r.db.identity.connections, r.db.identity.domains, db.identity.scim))
                 && var (o, cs, ds) := (db.memberships[actor].org, db.identity.connections, db.identity.domains);
                 && Subtable(r.db.identity.connections, cs) && Subtable(r.db.identity.domains, ds)
                 && (forall c :: c in r.db.identity.connections <==> c in cs && cs[c].org != o)
                 && (forall d :: d in r.db.identity.domains <==> d in ds && !(ds[d].connection in cs && cs[ds[d].connection].org == o))
            else r == S.Outcome(db, S.NotAllowed)
  {
  }

  /** A domain is added, unverified, to the organization's connection, once. */
  lemma AddingDomainIff(db: Tables, actor: Id, domain: string, ok: bool)
    requires ProvidersInOrder(db.identity)
    ensures var r := S.AddDomain(db, actor, domain, ok);
            if c: Id :| Administers(db, actor) && c in db.identity.connections && db.identity.connections[c].org == db.memberships[actor].org
            then if ok && forall d :: d in db.identity.domains && db.identity.domains[d].connection == c ==> db.identity.domains[d].domain != domain
                 then r == S.Outcome(db.(identity := db.identity.(domains := db.identity.domains[db.nextId := SsoDomain(c, domain, None)]),
                                         nextId := db.nextId + 1), S.Done)
                 else r == S.Outcome(db, S.Invalid)
            else r == S.Outcome(db, S.NotAllowed)
  {
    if ActingAdmin(db, actor) {
      var c := S.SsoOf(db, db.memberships[actor].org);
      assert c.Some? ==> forall b :: b in db.identity.connections && db.identity.connections[b].org == db.memberships[actor].org ==> b == c.value;
    }
  }

  /** A domain is removed by an admin of the organization it is filed for, and by nobody else. */
  lemma RemovingDomainIff(db: Tables, actor: Id, d: Id)
    ensures S.DestroyDomain(db, actor, d)
            == if ManagedBy(db, actor, d) then S.Outcome(db.(identity := db.identity.(domains := db.identity.domains - {d})), S.Done)
               else S.Outcome(db, S.NotAllowed)
  {
  }

  /** Provisioning is set up for the admin's organization, in place of what it has; removing
      it takes that and nothing else. */
  lemma SavingScimIff(db: Tables, actor: Id, enabled: bool, role: Role)
    requires Fresh(db) && OneScim(db.identity.scim)
    ensures var (saved, removed) := (S.SaveScim(db, actor, enabled, role), S.DestroyScim(db, actor));
            if Administers(db, actor)
            then && saved.reply == removed.reply == S.Done
                 && removed.db == db.(identity := db.identity.(scim := removed.db.identity.scim))
                 && Subtable(removed.db.identity.scim, db.identity.scim)
                 && (forall c :: c in removed.db.identity.scim <==> c in db.identity.scim && db.identity.scim[c].org != db.memberships[actor].org)
                 && exists id :: ScimSavedAs(db, saved.db, id, ScimConnection(db.memberships[actor].org, enabled, role))
            else saved == removed == S.Outcome(db, S.NotAllowed)
  {
    if ActingAdmin(db, actor) {
      var o := db.memberships[actor].org;
      var current := S.OfOrganization(db.identity.scim, (c: ScimConnection) => c.org, o);
      var id := if current.Some? then current.value else db.nextId;
      assert ScimSavedAs(db, S.SaveScim(db, actor, enabled, role).db, id, ScimConnection(o, enabled, role));
    }
  }

  ghost predicate ScimSavedAs(db: Tables, later: Tables, id: Id, row: ScimConnection) {
    && later == db.(identity := db.identity.(scim := db.identity.scim[id := row]), nextId := later.nextId)
    && (if id in db.identity.scim then db.identity.scim[id].org == row.org && later.nextId == db.nextId
        else id == db.nextId && later.nextId == db.nextId + 1 && forall c :: c in db.identity.scim ==> db.identity.scim[c].org != row.org)
  }

  /** An admin's update writes privacy and logo, as long as only a private organization goes
      without a logo; the owner, the subscription and every other row stay. */
  lemma UpdatingCommitsIff(db: Tables, actor: Id, privacy: Privacy, logo: bool)
    ensures var r := S.UpdateOrganization(db, actor, privacy, logo);
            if Administers(db, actor) && (privacy == Private || logo)
            then var (o, org) := (db.memberships[actor].org, db.orgs[db.memberships[actor].org]);
                 r == S.Outcome(db.(orgs := db.orgs[o := Organization(org.owner, org.deletedAt, privacy, logo, org.subscribed)]), S.Done)
            else r.reply != S.Done && r.db == db
  {
  }

  /** Projects and exports are filed by admins, for their own organization and under their own
      seat; a project goes at the hands of an admin of its organization. */
  lemma FilingCommitsIff(db: Tables, actor: Id, p: Id, ok: bool)
    ensures var (project, dump) := (S.CreateProject(db, actor, ok), S.CreateExport(db, actor));
            if Administers(db, actor)
            then var row := Resource(db.memberships[actor].org, actor);
                 && project == (if ok then S.Outcome(Filed(db, db.files.(projects := db.files.projects[db.nextId := row])), S.Done)
                                else S.Outcome(db, S.Invalid))
                 && dump == S.Outcome(Filed(db, db.files.(exports := db.files.exports[db.nextId := row])), S.Done)
            else project == dump == S.Outcome(db, S.NotAllowed)
    ensures S.DestroyProject(db, actor, p)
            == if p in db.files.projects && AdminOf(db, actor, db.files.projects[p].org)
               then S.Outcome(db.(files := db.files.(projects := db.files.projects - {p})), S.Done) else S.Outcome(db, S.NotAllowed)
  {
  }

  ghost function Filed(db: Tables, files: Files): Tables {
    db.(files := files, nextId := db.nextId + 1)
  }

  // ---- Who changes an organization

  /** The organization's row goes from `was` to `now` at the hands of an admin, its owner, the
      billing provider, or a virus scan, each in its own fields. */
  ghost predicate Changes(db: Tables, a: Action, o: Id, was: Organization, now: Organization) {
    now == was ||
    match a
    case OnOrganization(UpdateOrganization(actor, privacy, logo)) =>
      AdminOf(db, actor, o) && now == Organization(was.owner, was.deletedAt, privacy, logo, was.subscribed)
    case OnOrganization(PurgeLogo(p)) => p == o && now == Organization(was.owner, was.deletedAt, was.privacy, false, was.subscribed)
    case OnOrganization(SetSubscription(p, paid)) => p == o && now == Organization(was.owner, was.deletedAt, was.privacy, was.logo, paid)
    case OnOrganization(TransferOwnership(actor, target)) =>
      MemberOf(db, actor, o) && db.memberships[actor].user == was.owner
      && now == Organization(target, was.deletedAt, was.privacy, was.logo, was.subscribed)
    case OnOrganization(EraseOrganization(actor, t)) =>
      MemberOf(db, actor, o) && db.memberships[actor].user == was.owner && !was.subscribed
      && now == Organization(was.owner, Some(t), was.privacy, was.logo, was.subscribed)
    case _ => false
  }

  lemma AccountStepKeepsOrganizations(db: Tables, a: AccountAction)
    ensures AccountStep(db, a).db.orgs == db.orgs
  {
    hide Deletable, RetainedFootprint, S.Destroyable, Canonical, EmailTaken, S.Proves, S.Backs;
  }

  lemma SeatStepKeepsOrganizations(db: Tables, a: SeatAction)
    ensures SeatStep(db, a).db.orgs == db.orgs
  {
    match a
    case RequestAccess(u, o) => AdmitKeepsOrganizations(db, o, u); hide S.Admit;
    case Approve(actor, r) =>
      if S.MayDecide(db, actor, r) {
        var row := db.requests[r].(approved := true, completedBy := Some(db.memberships[actor].user));
        AdmitKeepsOrganizations(db.(requests := db.requests[r := row]), row.org, row.user);
        hide S.Admit;
      }
    case _ => hide ValidUpdate;
  }

  lemma AdmitKeepsOrganizations(db: Tables, o: Id, u: Id)
    ensures S.Admit(db, o, u).db.orgs == db.orgs
  {
    hide ValidNew, ValidUpdate;
  }

  lemma InviteStepKeepsOrganizations(db: Tables, a: InviteAction)
    ensures InviteStep(db, a).db.orgs == db.orgs
  {
    hide ValidNew, ValidUpdate;
  }

  lemma SignOnKeepsOrganizations(db: Tables, a: IdentityAction)
    requires a.SsoSignIn? || a.ScimCreate?
    ensures IdentityStep(db, a).db.orgs == db.orgs
  {
    hide ValidNew, ValidUpdate, Canonical, AssertsEmail, S.AddressIsMember, S.AddressIsInvited, S.AddressIsPending;
  }

  lemma IdentityStepKeepsOrganizations(db: Tables, a: IdentityAction)
    ensures IdentityStep(db, a).db.orgs == db.orgs
  {
    if a.SsoSignIn? || a.ScimCreate? {
      SignOnKeepsOrganizations(db, a);
      hide IdentityStep;
    } else {
      hide ValidUpdate, S.ClaimedElsewhere;
    }
  }

  lemma PurgeKeepsOrganizations(db: Tables, now: Time, start: Id, stop: Option<Id>)
    ensures Subtable(S.Purge(db, now, start, stop).db.orgs, db.orgs)
  {
    hide S.PurgePrefix, S.OrphanPrefix, S.Orphans, S.DueBetween;
  }

  lemma OrganizationStepChanges(db: Tables, a: OrganizationAction, o: Id)
    requires db.nextId !in db.orgs && o in db.orgs && o in OrganizationStep(db, a).db.orgs
    ensures Changes(db, OnOrganization(a), o, db.orgs[o], OrganizationStep(db, a).db.orgs[o])
  {
    hide ValidNew, ValidUpdate, S.DropConnections;
    match a
    case PurgeJob(now, start, stop) => PurgeKeepsOrganizations(db, now, start, stop); hide S.Purge;
    case _ =>
  }

  /** An organization changes hands only by its owner's transfer, is erased only by its owner,
      and is listed or hidden only by an admin, whatever the step. */
  lemma StepChangesOrganization(db: Tables, a: Action, o: Id)
    requires Inv(db) && o in db.orgs && o in Step(db, a).db.orgs
    ensures Changes(db, a, o, db.orgs[o], Step(db, a).db.orgs[o])
  {
    assert db.nextId !in db.orgs;
    hide Inv, AccountStep, OrganizationStep, SeatStep, InviteStep, IdentityStep;
    match a
    case OnAccount(b) => AccountStepKeepsOrganizations(db, b);
    case OnOrganization(b) => OrganizationStepChanges(db, b, o);
    case OnSeat(b) => SeatStepKeepsOrganizations(db, b);
    case OnInvite(b) => InviteStepKeepsOrganizations(db, b);
    case OnIdentity(b) => IdentityStepKeepsOrganizations(db, b);
  }
}
