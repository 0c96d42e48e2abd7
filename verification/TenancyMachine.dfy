/** The tenancy state machine: every request, callback and job is one atomic
    step over the tables; a run is any sequence of them. */
module TenancyMachine {
  import opened Common
  import opened Tenancy
  import S = TenancySteps

  /** Steps on accounts. */
  datatype AccountAction =
    | SignUp(email: string, valid: bool)
    | ChangeEmail(user: Id, session: Id, email: string, valid: bool)
    | Ban(user: Id, banned: bool)
    | SetTwoFactor(user: Id, on: bool)
    | PassFirstFactor(user: Id, factor: FirstFactor, now: Time)
    | ConfirmSecondFactor(ticket: Id, codeOk: bool, now: Time)
    | EndSession(session: Id)
    | SendMagicLink(user: Id)
    | CloseAccount(user: Id, session: Id, now: Time)

  /** Steps on organizations and what is filed under them. */
  datatype OrganizationAction =
    | CreateOrganization(user: Id, privacy: Privacy, logo: bool, valid: bool)
    | UpdateOrganization(actor: Id, privacy: Privacy, logo: bool)
    | PurgeLogo(org: Id)
    | SetSubscription(org: Id, subscribed: bool)
    | TransferOwnership(actor: Id, target: Id)
    | EraseOrganization(actor: Id, now: Time)
    | CreateProject(actor: Id, valid: bool)
    | DestroyProject(actor: Id, project: Id)
    | CreateExport(actor: Id)
    | PurgeExport(resource: Id)
    | Audit(membership: Id)
    | PurgeJob(now: Time, start: Id, stop: Option<Id>)

  /** Steps on the members page and the join requests. */
  datatype SeatAction =
    | ChangeRole(actor: Id, membership: Id, role: Role)
    | Deactivate(actor: Id, membership: Id, now: Time)
    | Reactivate(actor: Id, membership: Id)
    | RequestAccess(user: Id, org: Id)
    | CancelRequest(user: Id, request: Id)
    | Approve(actor: Id, request: Id)
    | Reject(actor: Id, request: Id)

  /** Steps on invitations. */
  datatype InviteAction =
    | Invite(actor: Id, email: string, role: Role, valid: bool, now: Time)
    | Accept(user: Id, invitation: Id, copy: Invitation, now: Time)
    | Decline(user: Id, invitation: Id, copy: Invitation, now: Time)
    | Revoke(actor: Id, invitation: Id, copy: Invitation, now: Time)
    | Resend(actor: Id, invitation: Id, copy: Invitation, now: Time)
    | PurgeInvitations(now: Time)

  /** Steps on identity providers. */
  datatype IdentityAction =
    | SaveConnection(actor: Id, settings: SsoConnection, valid: bool)
    | DestroyConnection(actor: Id)
    | AddDomain(actor: Id, domain: string, valid: bool)
    | VerifyDomain(actor: Id, d: Id, published: bool, now: Time)
    | DestroyDomain(actor: Id, d: Id)
    | SsoSignIn(connection: Id, email: string, valid: bool)
    | SaveScim(actor: Id, enabled: bool, role: Role)
    | DestroyScim(actor: Id)
    | ScimCreate(connection: Id, userName: string, active: Option<bool>, valid: bool, now: Time)
    | ScimUpdate(connection: Id, membership: Id, active: Option<bool>, now: Time)
    | ScimDestroy(connection: Id, membership: Id, now: Time)

  datatype Action =
    | OnAccount(account: AccountAction)
    | OnOrganization(organization: OrganizationAction)
    | OnSeat(seat: SeatAction)
    | OnInvite(invite: InviteAction)
    | OnIdentity(identity: IdentityAction)

  ghost function AccountStep(db: Tables, a: AccountAction): S.Outcome {
    match a
    case SignUp(email, valid) => S.SignUp(db, email, valid)
    case ChangeEmail(u, session, email, valid) => S.ChangeEmail(db, u, session, email, valid)
    case Ban(u, banned) => S.Ban(db, u, banned)
    case SetTwoFactor(u, on) => S.SetTwoFactor(db, u, on)
    case PassFirstFactor(u, factor, now) => S.PassFirstFactor(db, u, factor, now)
    case ConfirmSecondFactor(t, codeOk, now) => S.ConfirmSecondFactor(db, t, codeOk, now)
    case EndSession(s) => S.EndSession(db, s)
    case SendMagicLink(u) => S.SendMagicLink(db, u)
    case CloseAccount(u, session, now) => S.CloseAccount(db, u, session, now)
  }

  ghost function OrganizationStep(db: Tables, a: OrganizationAction): S.Outcome {
    match a
    case CreateOrganization(u, privacy, logo, valid) => S.CreateOrganization(db, u, privacy, logo, valid)
    case UpdateOrganization(actor, privacy, logo) => S.UpdateOrganization(db, actor, privacy, logo)
    case PurgeLogo(o) => S.PurgeLogo(db, o)
    case SetSubscription(o, subscribed) => S.SetSubscription(db, o, subscribed)
    case TransferOwnership(actor, target) => S.TransferOwnership(db, actor, target)
    case EraseOrganization(actor, now) => S.EraseOrganization(db, actor, now)
    case CreateProject(actor, valid) => S.CreateProject(db, actor, valid)
    case DestroyProject(actor, p) => S.DestroyProject(db, actor, p)
    case CreateExport(actor) => S.CreateExport(db, actor)
    case PurgeExport(e) => S.PurgeExport(db, e)
    case Audit(m) => S.Audit(db, m)
    case PurgeJob(now, start, stop) => S.Purge(db, now, start, stop)
  }

  ghost function SeatStep(db: Tables, a: SeatAction): S.Outcome {
    match a
    case ChangeRole(actor, m, role) => S.ChangeRole(db, actor, m, role)
    case Deactivate(actor, m, now) => S.Deactivate(db, actor, m, now)
    case Reactivate(actor, m) => S.Reactivate(db, actor, m)
    case RequestAccess(u, o) => S.RequestAccess(db, u, o)
    case CancelRequest(u, r) => S.CancelRequest(db, u, r)
    case Approve(actor, r) => S.ApproveRequest(db, actor, r)
    case Reject(actor, r) => S.RejectRequest(db, actor, r)
  }

  ghost function InviteStep(db: Tables, a: InviteAction): S.Outcome {
    match a
    case Invite(actor, email, role, valid, now) => S.Invite(db, actor, email, role, valid, now)
    case Accept(u, i, copy, now) => S.AcceptInvitation(db, u, i, copy, now)
    case Decline(u, i, copy, now) => S.DeclineInvitation(db, u, i, copy, now)
    case Revoke(actor, i, copy, now) => S.RevokeInvitation(db, actor, i, copy, now)
    case Resend(actor, i, copy, now) => S.ResendInvitation(db, actor, i, copy, now)
    case PurgeInvitations(now) => S.PurgeInvitations(db, now)
  }

  ghost function IdentityStep(db: Tables, a: IdentityAction): S.Outcome {
    match a
    case SaveConnection(actor, settings, valid) => S.SaveConnection(db, actor, settings, valid)
    case DestroyConnection(actor) => S.DestroyConnection(db, actor)
    case AddDomain(actor, domain, valid) => S.AddDomain(db, actor, domain, valid)
    case VerifyDomain(actor, d, published, now) => S.VerifyDomain(db, actor, d, published, now)
    case DestroyDomain(actor, d) => S.DestroyDomain(db, actor, d)
    case SsoSignIn(c, email, valid) => S.SsoCallback(db, c, email, valid)
    case SaveScim(actor, enabled, role) => S.SaveScim(db, actor, enabled, role)
    case DestroyScim(actor) => S.DestroyScim(db, actor)
    case ScimCreate(c, userName, active, valid, now) => S.ScimCreate(db, c, userName, active, valid, now)
    case ScimUpdate(c, m, active, now) => S.ScimUpdate(db, c, m, active, now)
    case ScimDestroy(c, m, now) => S.ScimDestroy(db, c, m, now)
  }

  ghost function Step(db: Tables, a: Action): S.Outcome {
    match a
    case OnAccount(b) => AccountStep(db, b)
    case OnOrganization(b) => OrganizationStep(db, b)
    case OnSeat(b) => SeatStep(db, b)
    case OnInvite(b) => InviteStep(db, b)
    case OnIdentity(b) => IdentityStep(db, b)
  }

  /** The tables after a run that starts from `db`. */
  ghost function Run(db: Tables, run: seq<Action>): Tables
    decreases run
  {
    if run == [] then db else Run(Step(db, run[0]).db, run[1..])
  }
}
