/** Theorems about whole runs of the tenancy machine. */
module TenancyRuns {
  import opened Common
  import opened Tenancy
  import opened TenancyMachine
  import opened TenancyInvariants
  import S = TenancySteps

  lemma AccountStepKeepsInv(db: Tables, a: AccountAction)
    requires Inv(db)
    ensures Inv(AccountStep(db, a).db)
  {
    hide Inv;
    match a
    case SignUp(email, valid) => SignUpKeepsInv(db, email, valid);
    case ChangeEmail(u, session, email, valid) => ChangeEmailKeepsInv(db, u, session, email, valid);
    case Ban(u, banned) => BanKeepsInv(db, u, banned);
    case SetTwoFactor(u, on) => TwoFactorKeepsInv(db, u, on);
    case PassFirstFactor(u, factor, now) => FirstFactorKeepsInv(db, u, factor, now);
    case ConfirmSecondFactor(t, codeOk, now) => SecondFactorKeepsInv(db, t, codeOk, now);
    case EndSession(s) => EndSessionKeepsInv(db, s);
    case SendMagicLink(u) => CredentialsKeepInv(db, u);
    case CloseAccount(u, session, now) => CloseAccountKeepsInv(db, u, session, now);
  }

  lemma OrganizationStepKeepsInv(db: Tables, a: OrganizationAction)
    requires Inv(db)
    ensures Inv(OrganizationStep(db, a).db)
  {
    hide Inv;
    match a
    case CreateOrganization(u, privacy, logo, valid) => CreateOrganizationKeepsInv(db, u, privacy, logo, valid);
    case UpdateOrganization(actor, privacy, logo) =>
      if ActingAdmin(db, actor) {
        var o := db.memberships[actor].org;
        SettingsKeepInv(db, o, db.orgs[o].(privacy := privacy, logo := logo));
      }
    case PurgeLogo(o) => if o in db.orgs { SettingsKeepInv(db, o, db.orgs[o].(logo := false)); }
    case SetSubscription(o, subscribed) => if o in db.orgs { SettingsKeepInv(db, o, db.orgs[o].(subscribed := subscribed)); }
    case TransferOwnership(actor, target) => TransferKeepsInv(db, actor, target);
    case EraseOrganization(actor, now) => EraseOrganizationKeepsInv(db, actor, now);
    case CreateProject(actor, valid) => CreateProjectKeepsInv(db, actor, valid);
    case DestroyProject(actor, p) => DestroyProjectKeepsInv(db, actor, p);
    case CreateExport(actor) => CreateExportKeepsInv(db, actor);
    case PurgeExport(e) => PurgeExportKeepsInv(db, e);
    case Audit(m) => AuditKeepsInv(db, m);
    case PurgeJob(now, start, stop) => PurgeKeepsInv(db, now, start, stop);
  }

  lemma SeatStepKeepsInv(db: Tables, a: SeatAction)
    requires Inv(db)
    ensures Inv(SeatStep(db, a).db)
  {
    hide Inv;
    match a
    case ChangeRole(actor, m, role) => if m in db.memberships { SaveKeepsInv(db, m, db.memberships[m].(role := role)); }
    case Deactivate(actor, m, now) => if m in db.memberships { SaveKeepsInv(db, m, db.memberships[m].(deactivatedAt := Some(now))); }
    case Reactivate(actor, m) => if m in db.memberships { SaveKeepsInv(db, m, db.memberships[m].(deactivatedAt := None)); }
    case RequestAccess(u, o) => RequestAccessKeepsInv(db, u, o);
    case CancelRequest(u, r) => FewerRequestsKeepInv(db, r);
    case Approve(actor, r) => ApproveKeepsInv(db, actor, r);
    case Reject(actor, r) => FewerRequestsKeepInv(db, r);
  }

  lemma InviteStepKeepsInv(db: Tables, a: InviteAction)
    requires Inv(db)
    ensures Inv(InviteStep(db, a).db)
  {
    hide Inv;
    match a
    case Invite(actor, email, role, valid, now) =>
      if ActingAdmin(db, actor) {
        AddInvitationKeepsInv(db, db.memberships[actor].org, Canonical(email), role, Some(db.memberships[actor].user), now);
      }
    case Accept(u, i, copy, now) => AcceptKeepsInv(db, u, i, copy, now);
    case Decline(u, i, copy, now) => FewerInvitationsKeepInv(db, db.invitations - {i});
    case Revoke(actor, i, copy, now) => FewerInvitationsKeepInv(db, db.invitations - {i});
    case Resend(actor, i, copy, now) => FewerInvitationsKeepInv(db, S.ResendInvitation(db, actor, i, copy, now).db.invitations);
    case PurgeInvitations(now) => FewerInvitationsKeepInv(db, S.PurgeInvitations(db, now).db.invitations);
  }

  lemma IdentityStepKeepsInv(db: Tables, a: IdentityAction)
    requires Inv(db)
    ensures Inv(IdentityStep(db, a).db)
  {
    hide Inv;
    match a
    case SaveConnection(actor, settings, valid) => SaveConnectionKeepsInv(db, actor, settings, valid);
    case DestroyConnection(actor) => DestroyConnectionKeepsInv(db, actor);
    case AddDomain(actor, domain, valid) => AddDomainKeepsInv(db, actor, domain, valid);
    case VerifyDomain(actor, d, published, now) => VerifyDomainKeepsInv(db, actor, d, published, now);
    case DestroyDomain(actor, d) => DestroyDomainKeepsInv(db, actor, d);
    case SsoSignIn(c, email, valid) => if c in db.identity.connections { ResolveKeepsInv(db, c, email, valid); }
    case SaveScim(actor, enabled, role) => ScimSettingsKeepInv(db, actor, enabled, role);
    case DestroyScim(actor) => ScimSettingsKeepInv(db, actor, false, Member);
    case ScimCreate(c, userName, active, valid, now) => ScimCreateKeepsInv(db, c, userName, active, valid, now);
    case ScimUpdate(c, m, active, now) => ScimUpdateKeepsInv(db, c, m, active, now);
    case ScimDestroy(c, m, now) => ScimUpdateKeepsInv(db, c, m, None, now);
  }

  /** Every request, callback and job keeps the invariant. */
  lemma StepKeepsInv(db: Tables, a: Action)
    requires Inv(db)
    ensures Inv(Step(db, a).db)
  {
    hide Inv;
    match a
    case OnAccount(b) => AccountStepKeepsInv(db, b);
    case OnOrganization(b) => OrganizationStepKeepsInv(db, b);
    case OnSeat(b) => SeatStepKeepsInv(db, b);
    case OnInvite(b) => InviteStepKeepsInv(db, b);
    case OnIdentity(b) => IdentityStepKeepsInv(db, b);
  }

  lemma {:induction false} RunKeepsInv(db: Tables, run: seq<Action>)
    requires Inv(db)
    ensures Inv(Run(db, run))
    decreases run
  {
    hide Inv;
    if run != [] {
      StepKeepsInv(db, run[0]);
      RunKeepsInv(Step(db, run[0]).db, run[1..]);
    }
  }
}
