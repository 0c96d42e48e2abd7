# Moneygun, verified

Moneygun is a multi-tenant Rails application. This Dafny project models the parts
of it whose correctness depends on many pieces of code cooperating, and proves what
every run of them keeps. `dafny verify dfyconfig.toml` checks it.

**Tenancy** (`Tenancy*.dfy`, `Database.dfy`, `Deletion.dfy`). One database state,
`Tables`, holds users, organizations, memberships, invitations, join requests,
projects, exports, identity connections, sessions and codes. Every request, callback
and job is one atomic step with one clock reading; `TenancyMachine.Run` is any
sequence of steps. `TenancySteps` says what each step does, as functions;
`TenancyInvariants` and `TenancyRuns` prove what all of them keep, and
the other `Tenancy` modules draw the promises from it: isolation between organizations
(`TenancyStanding`, `TenancyIsolation`), where roles, memberships, invitations and
verified domains come from (`TenancyRoles`, `TenancyHistory`, `TenancyOffers`,
`TenancySignOn`), accounts and signing in (`TenancyAccounts`, `TenancySignIn`), closing
and purging (`TenancyClosure`, `TenancyRedacted`, `TenancyErasure`, `TenancyPurge`), and
exactly when each operation succeeds and what it writes (`TenancyGuarantees`,
`TenancyEffects`, `TenancySettings`, `TenancyTransitions`). `TenancyExample` plays two
runs through.
`Database` and `Deletion` write the operations that branch, loop or roll back the way
the models do, statement by statement, and prove each equal to its step function.
In-memory copies of invitations are arbitrary parameters: a step never assumes that
its caller's copy is fresh.

**Locked and one-time protocols.** `OauthRefresh` (any number of callers with stale
copies, the double-checked lock split into its uninterrupted stretches),
`SamlRequests` (arbitrary cookies, and one browser with a cookie jar), `MagicLinks`
(slots, codes, consumption) and `TwoFactor` (backup codes).

**Time.** `Sessions`: idle expiry with a throttled write, over runs with a clock that
does not go back.

**Byte and text algorithms.** `Revisions` (chunked token count with carry), `Readers`
(the two bounded pipe readers, with a pipe that splits the stream as it likes) and
`AutoLink` (cutting text at links, and a whole document around it).

**Virus scanning.** `VirusScan`: statuses, retries, sweeps and the serving guard under
interleavings, crashes and stale saves of the column they share with image analysis.

Times are integers in microseconds. A clock, the answer of a remote party (identity
provider, OAuth provider, DNS, scanner), a random code and the verdict of a
validation that reads only the submitted fields are parameters, so every theorem
holds for all of their values.

Five findings deserve mention.

- A browser can have more than one pending SAML request: choosing a connection again
  (or dropping the cookie) forgets the pending id. `SamlRequests` gives the run and
  the exact condition. Single use, connection and ten minutes hold regardless.
- A sweep that loaded a file's status before another process marked it, and then
  finds it marked, queues nothing; if that process dies before queueing, the file
  waits for the next sweep (`VirusScan.OvertakenSweepMisses`).
- Image analysis saves the metadata column it loaded, scan status included. One that
  loaded the file before its scan ended takes a clean or failed status back to pending
  or none; nothing else does (`VirusScan.FinalSurvivesIff`). No unscanned file is
  served for it.
- Approving an older join request seats even a redacted user who has no membership row
  in the organization (`TenancyClosure.ApproveCommitsIff`). Such a seat is reachable,
  and approval is its only source (`TenancyRedacted`, `TenancyExample`).
- A ban ends every session, but a second factor confirmed within five minutes of a first
  one that passed before the ban starts another (`TenancySignIn`, `TenancyExample`).

## Model

| member | source | states |
|---|---|---|
| TenancyRuns.RunKeepsInv | app/models/membership.rb:22-28 | From any state in order, every sequence of requests, callbacks and jobs ends in a state in order: unique addresses, one membership per user and organization, one connection per verified domain, an active admin membership behind every owner, projects and exports filed under memberships of their own organization, completers of join requests still seated |
| TenancyRuns.StepKeepsInv | app/models/membership.rb:123-156 | The same for one step, whichever of the 45 kinds it is and whatever its parameters |
| TenancyIsolation.NobodyReachesAcross | app/policies/organization/base_policy.rb:41-51 | A step leaves every row of an organization as it was (its settings, seats, invitations, join requests, projects, exports, connections, domains) unless whoever takes it has a standing there: an admin's or the owner's seat, the invited address, one's own request or account, an enabled connection, or a job's due date |
| TenancyIsolation.IsolationOverRuns | app/controllers/organizations/base_controller.rb:39-51 | The same for a whole run of such steps |
| TenancyRoles.StepGrants | app/models/membership.rb:17-28 | Every step leaves a membership its role or grants it one: the founder's, a new owner's, one an admin chose, the invited one, a provider's default for a new account, or a first join's plain one |
| TenancyRoles.RoleWasGranted | README.md:74 | After any run, behind the role of every membership stands such a step for that user and organization; nobody gets a role on their own say |
| TenancyAccounts.RedactedHasNoSession | app/models/concerns/user/redaction.rb:27-41 | After any run every session belongs to an existing user who is not redacted |
| TenancyAccounts.RedactedIsAnonymous | app/models/concerns/user/redaction.rb:34-40 | After any run a redacted account bears its placeholder address and no other |
| TenancyAccounts.OneAccountPerSpelling | app/models/concerns/user/authentication.rb:11-15 | After any run no two accounts have addresses that differ only in case or surrounding space |
| TenancyAccounts.RedactedAddressesDiffer | app/models/concerns/user/redaction.rb:35 | Two accounts never share a placeholder |
| TenancyAccounts.SignUpCommitsIff | app/models/concerns/user/authentication.rb:11-15 | Signing up takes a valid address nobody has in any spelling, and adds one plain account |
| TenancyAccounts.EmailChangesIff | app/controllers/users/email_changes_controller.rb:45-54 | An address changes from a session of its user to a valid one nobody has; every other session of that user ends, and nothing else changes |
| TenancyAccounts.BanEndsSessions | app/models/concerns/user/banning.rb:10-19 | A ban ends every session of the user and no other; lifting it starts none |
| TenancySignIn.FirstFactorIff | app/controllers/concerns/authentication.rb:98-107 | A first factor starts the session of a user without a second one and hands a ticket for five minutes to one with: exactly for a user neither banned nor redacted, with a code no connection rules out for the address, or an assertion a connection backs with an active seat |
| TenancySignIn.SecondFactorIff | app/controllers/sessions/two_factor_controller.rb:13-24 | A second factor starts a session exactly for a ticket younger than five minutes of a user still enrolled, whose assertion, if it was one, is still backed; a ban in between is not asked for |
| TenancySignIn.SessionEndsOnlyBy | app/controllers/users/email_changes_controller.rb:49 | A session ends by signing out, a ban, an address change from another session, closing the account or its deletion by the purge, and by no other step |
| TenancySignIn.BanIsOvertakenIff | app/models/concerns/user/banning.rb:10-15 | Right after a ban the user has no session, and the next step starts one exactly when it confirms a ticket the ban has overtaken |
| TenancySignIn.BannedSessionWasConfirmed | app/controllers/concerns/authentication.rb:69-82 | After any run, a banned user's session was started by confirming a second factor after the ban, less than five minutes after a first factor passed before it |
| TenancyExample.BannedSessionIsReachable | app/models/concerns/user/banning.rb:13 | "A banned user has no session" is false: five steps from the empty installation end with one |
| TenancyGuarantees.OwnerHoldsOneSeat | app/models/membership.rb:123-134 | After any run from an empty installation, an organization's owner has exactly one membership in it, and it is active and admin |
| TenancyGuarantees.NonOwnerIsNeverSole | app/models/membership.rb:64-68 | Nobody but the owner is ever the sole active admin, so nobody else has a reason not to be deactivated |
| TenancyGuarantees.OtherSeatsAreSpare | app/models/membership.rb:154-156 | After any run, `undeactivatable_reasons` is empty for every membership that is not the owner's |
| TenancyGuarantees.OwnerIsUndeactivatable | app/models/membership.rb:123-148 | Whoever asks, and through whatever path, a save of the owner's row goes through exactly when it leaves the owner an active admin; one that would deactivate or demote it writes nothing |
| TenancyGuarantees.AllowedRoleChangeSaves | app/policies/membership_policy.rb:20-22 | In every reachable state a role change is written exactly when the policy allows it, and writes the one row |
| TenancyGuarantees.AllowedDeactivationSaves | app/policies/membership_policy.rb:28-34 | The same for deactivation: no validation ever stops what the policy allowed |
| TenancyGuarantees.AllowedReactivationSaves | app/policies/membership_policy.rb:24-26 | The same for reactivation |
| TenancyGuarantees.MemberMayLeave | app/policies/membership_policy.rb:28-31 | Every active member but the owner can leave, in every reachable state |
| TenancyGuarantees.OnlyAdminsManageOthers | app/policies/membership_policy.rb:20-34 | Role changes, deactivations and reactivations of another seat need an active admin seat in that organization, and nothing of the kind ever touches the owner's seat |
| TenancyInvariants.SaveKeepsInv | app/models/membership.rb:123-152 | The update validations alone protect the owner's seat: a row that passes them keeps the invariant |
| TenancyInvariants.TransferKeepsInv | app/models/concerns/organization/transfer.rb:17-19 | Making the candidate admin before moving the ownership keeps the invariant |
| TenancyInvariants.AcceptKeepsInv | app/models/invitation.rb:54-70 | Accepting an invitation keeps the invariant, whatever copy of it the caller holds |
| TenancyInvariants.PurgeKeepsInv | app/jobs/organization/purge_job.rb:9-18 | Both steps of the purge keep the invariant, also when the first one aborts half way |
| TenancyEffects.FoundingCommitsIff | app/models/concerns/organization/multitenancy.rb:65-67 | Creating an organization succeeds exactly when the founder may be signed in and the organization's own fields are valid; the founder then holds its admin seat |
| TenancyEffects.TransferMovesOwnership | app/models/concerns/organization/transfer.rb:10-27 | Ownership moves exactly when the acting owner names another active member of a valid organization; the candidate becomes admin and owner, no other row changes, anything else changes nothing |
| TenancyEffects.JoiningDependsOnPrivacy | app/models/membership_request.rb:11-45 | A join request does nothing in a private organization, files one request in a restricted one, and in a public one seats whoever may be signed in and has no seat yet |
| TenancyEffects.ApprovalAdmits | app/models/access_request.rb:22-30 | An approval is an acting admin's; it approves the one request in its name and admits the user in the role of the seat it had before, or as a member; a refused one writes nothing |
| TenancyEffects.CancellingCommitsIff | app/controllers/users/organizations/sent_join_requests_controller.rb:21-25 | A pending join request is withdrawn by its own user and by nobody else |
| TenancyHistory.NoSilentAdoption | README.md:74 | After any run, behind every membership stands the member's own joining step for that organization, or a sign-on or provisioning step of that organization that created the account |
| TenancyHistory.NewSeatIsJustified | app/models/invitation.rb:54-73 | Every row a single step adds is justified by that step or by the join request it approves |
| TenancyHistory.ProvisionedSeatIsHome | app/models/sso_connection.rb:129-134 | A row a sign-on or provisioning step adds belongs to an account created in that same step |
| TenancyEffects.SignOnNeverAdopts | app/models/sso_connection.rb:64-68 | Sign-on through an organization's provider turns away an existing account that never belonged to it, and writes nothing |
| TenancyEffects.ProvisioningAsksConsent | app/controllers/scim/users_controller.rb:66-78 | Provisioning such an account answers 409, seats nobody, and leaves exactly a standing invitation in the default role for it |
| TenancyEffects.ProvisioningSeatsStranger | app/controllers/scim/users_controller.rb:55-64 | A provisioned new address gets a plain account and one seat in the default role, active unless the request says otherwise; no other row changes |
| TenancyEffects.ProvisioningReopens | app/controllers/scim/users_controller.rb:84-90 | A provisioned former member comes back active in the role it had; no other row changes |
| TenancyEffects.ProvisioningCommitsIff | app/controllers/scim/users_controller.rb:12-53 | Provisioning succeeds exactly for a new address whose user is valid and for a former member whose account is not redacted: neither the new seat nor the reopened one is ever refused by a validation |
| TenancyEffects.DeprovisioningCommitsIff | app/controllers/scim/users_controller.rb:92-96 | DELETE and setting `active` to false do the same: they take every seat of the token's organization away but the owner's, in one row, and write nothing otherwise (`Database.ScimDestroy`, `Database.ScimUpdate`) |
| TenancyEffects.ReprovisioningCommitsIff | app/models/concerns/membership/scim_provisionable.rb:61-69 | Setting `active` to true reopens one row unless its account is redacted; leaving it out writes nothing, whatever userName says |
| TenancyEvolution.StepEvolves | app/models/membership.rb:140-152 | One step never moves a row to another user or organization, never reopens a deactivated row of a redacted user, and adds rows only with new ids in the one seat the step offers |
| TenancyClosure.DeletableIffOwnsNothing | app/models/user.rb:79-98 | In every reachable state only owned organizations keep an account open |
| TenancyClosure.RedactionCommitsIff | app/models/concerns/user/redaction.rb:24-44 | Redaction succeeds exactly for a user not yet redacted who owns nothing and whose redacted address is free |
| TenancyClosure.RedactionIsAllOrNothing | app/models/concerns/user/redaction.rb:27-41 | A redaction that succeeds leaves the placeholder address, every open seat closed at that moment, no session, code or second factor, and the ban as it was; it drops exactly the invitations to the old address and changes nobody else's rows; one that fails changes nothing |
| TenancyClosure.RedactionFreesAddress | app/models/concerns/user/redaction.rb:35 | The old address is free afterwards: a new account can be opened under it |
| TenancyClosure.ClosingIsRefusedIff | app/controllers/users_controller.rb:23-32 | Closing takes a session of its own user who owns no organization; anything else is refused and changes nothing |
| TenancyClosure.RunKeepsShut | app/models/membership.rb:150-152 | A deactivated membership of a redacted user stays so through every later run |
| TenancyClosure.ClosedSeatStaysClosed | app/models/concerns/user/redaction.rb:16-20 | No membership held when an account is closed is ever active again, through reactivation, invitation, join request, sign-on or provisioning; a deleted row's id never returns |
| TenancyClosure.ApproveCommitsIff | app/models/access_request.rb:22-30 | Approval succeeds exactly unless the user is a redacted former member (or gone); it does seat a redacted user who has no membership row there |
| TenancyRedacted.RedactedSeatWasApproved | app/models/access_request.rb:22-30 | After any run, an active seat of a redacted user was added by approving, after the redaction, a join request of that user for that organization: no other step seats one or reopens one |
| TenancyExample.RedactedSeatIsReachable | app/models/access_request.rb:22-30 | A run of nine steps from the empty installation ends with a redacted user in an active seat |
| TenancyClosure.ClosureDeletesIff | app/controllers/users_controller.rb:23-32 | DELETE /user ends the session first, which logs it for every active seat; so it deletes the account exactly when no seat is active and nothing else stops the deletion |
| TenancyClosure.DestructionLeavesNoTrace | app/models/concerns/user/multitenancy.rb:7-14 | Hard deletion, when it happens, leaves no row that refers to the user or its memberships, and takes no account, seat, session, project or organization from anybody else |
| TenancyErasure.ErasedStaysClosed | app/models/organization.rb:52-62 | Once its owner erased an organization, in every later state no member acts in it, no invitation to it exists and no sign-on or provisioning connection serves it |
| TenancyErasure.RunStaysErased | app/models/organization.rb:56-60 | The same from any state in which it is erased, over every run |
| TenancyErasure.ErasureCommitsIff | app/models/organization.rb:52-62 | An organization is erased by its acting owner exactly without an active subscription, and private or with a logo; it takes its own invitations, connections and domains, and no row of any other organization |
| TenancyPurge.PurgeableIffUnsubscribed | app/models/membership.rb:14 | A membership's project restriction never stops the purge of its organization: only an active subscription does |
| TenancyPurge.OrphanIsDestroyable | app/models/concerns/user/multitenancy.rb:7-12 | A redacted user without memberships owns no organization, left no audit or project footprint and completed no remaining join request |
| TenancyPurge.SecondStepNeverFails | app/jobs/organization/purge_job.rb:16-18 | The second step deletes every orphaned redacted user |
| TenancyPurge.PurgeCommitsIff | app/jobs/organization/purge_job.rb:6-19 | An execution of the job, from any cursor and interrupted anywhere or not, raises exactly when a due organization it reaches is subscribed, and otherwise does exactly its deletions; the orphans only when it was not interrupted |
| TenancyPurge.PurgeLeavesNoTrace | app/models/organization.rb:7-10 | After a purge that ran through, no due organization and no row referring to one is left, exactly the redacted accounts without a membership are gone, and every other membership is untouched |
| TenancyPurge.ResumedPurgeIsComplete | app/jobs/organization/purge_job.rb:9-14 | Interrupted at a cursor and resumed from it at a later time, the job still removes every organization that was due when it began, and every orphan |
| TenancyPurge.PurgeSpares | app/jobs/organization/purge_job.rb:7-14 | An organization not deleted, or deleted less than thirty days ago, comes through the job untouched with its memberships, whether the job runs through or not |
| TenancyTransitions.SettledAtMostOnce | app/models/invitation.rb:105-111 | Over any run, with arbitrarily stale copies, at most one accept, decline or revoke of an invitation commits |
| TenancyTransitions.SettlingIsAllOrNothing | app/models/invitation.rb:75-93 | One that commits uses the invitation up; one that fails writes nothing |
| TenancyEffects.InvitingCommitsIff | app/models/invitation.rb:113-124 | An admin's invitation is issued exactly for a well-formed address that no active member bears and no standing invitation is to: for fourteen days, in the chosen role, in place of the expired ones |
| TenancyOffers.InvitationWasIssued | app/policies/invitation_policy.rb:4-6 | After any run, behind every invitation stands an admin of its organization who chose address and role, or its provisioning's question to an existing account in the default role |
| TenancyOffers.CopyStaysTrue | app/models/invitation.rb:105-111 | However stale an in-memory copy gets, the organization, address and role it shows are the row's for as long as the row stands |
| TenancyEffects.WithdrawingCommitsIff | app/models/invitation.rb:75-93 | Declining is for whom the standing invitation is addressed to, revoking for the admins of its organization; each takes the one invitation away |
| TenancyEffects.OldInvitationsGo | app/jobs/invitation/purge_job.rb:4-6 | The purge takes exactly the expired invitations older than thirty days |
| TenancyOffers.RunStaysSingle | app/models/invitation.rb:18-23 | Over any run there is at most one invitation per organization and address and one join request per organization and user, although only pending invitations are checked |
| TenancyOffers.SettlingLeavesNoInvitation | app/models/invitation.rb:105-111 | Once an invitation is settled, no other to that address is left in the organization |
| TenancyOffers.RejectionReopens | app/models/access_request.rb:32-35 | After a rejection in any reachable state no request of that user for that organization is left, so the user may ask again; nothing else changes (`Database.Reject`) |
| TenancyEffects.ResendProlongs | app/models/invitation.rb:49-52 | An admin may resend what, by its copy, was last sent two minutes ago; a resend changes two dates of one standing row, which is then pending for exactly fourteen days; it neither redirects an invitation nor brings back one that is gone (`Database.Resend`) |
| TenancyEffects.ResendsAreSpaced | app/models/invitation.rb:39-41 | Two resends by callers who loaded the row afresh are at least two minutes apart |
| TenancyEffects.ResendRevives | app/models/invitation.rb:49-61 | An expired invitation that was resent can be accepted by its invitee for fourteen days |
| TenancyGuarantees.AcceptCommitsIff | app/models/invitation.rb:54-61 | Accepting commits exactly when the locked row stands, is unexpired, bears the address of an actor who may be signed in, and the actor has no active seat there |
| TenancyGuarantees.AcceptSeatsInvitee | app/models/invitation.rb:62-67 | A committed accept uses the invitation up and leaves exactly one membership of the actor in the organization, active, in the invited role; no other row changes, and any other outcome writes nothing |
| TenancyGuarantees.ReentryIsValid | app/models/membership.rb:136-152 | A former member can come back in any role, unless redacted |
| TenancyGuarantees.ResolveIsSound | app/models/sso_connection.rb:57-73 | Granted implies the asserted domain is verified for this connection, the user bears the asserted address and may authenticate, and the membership is active in this organization; denied implies nothing changed |
| TenancyGuarantees.GrantedIff | app/models/sso_connection.rb:57-73 | Sign-on is granted exactly when the connection has verified the domain and the address is a member's who may authenticate (a former member's only with JIT), or new, with JIT and a valid user; no membership validation ever stands in the way |
| TenancySignOn.SignOnSeats | app/models/sso_connection.rb:129-134 | A granted sign-on of a new address seats a plain new account in the connection's default role; one of a known user leaves its seat in the role it had, reopened if it was closed; no other row changes |
| TenancySignOn.AssertsIff | app/models/sso_connection.rb:52-55 | A connection may assert an address exactly when the domain behind its last @ is verified for it |
| TenancySignOn.VerifiedIff | app/models/sso_domain.rb:22-27 | A domain is verified afterwards exactly when it was, or an admin of its organization asked, the record was published and nobody else has it verified; nothing else is written |
| TenancySignOn.AssertedWasPublished | app/models/sso_domain.rb:22-27 | After any run, behind every domain a connection may assert stands such a step with a published record |
| TenancySettings.RunProvidersInOrder | app/models/sso_connection.rb:13 | Over any run no organization has two sign-on or two provisioning connections, and no domain outlives its connection |
| TenancySettings.SavingConnectionIff | app/controllers/organizations/sso_connections_controller.rb:35-45 | A connection is saved for the admin's own organization in place of the one it has, and enabled only once one of its domains is verified |
| TenancySettings.RemovingConnectionIff | app/controllers/organizations/sso_connections_controller.rb:25-31 | Removing the connection takes the organization's sign-on and its domains, and nothing else |
| TenancySettings.AddingDomainIff | app/controllers/organizations/sso_domains_controller.rb:6-13 | A domain is added, unverified, to the organization's own connection, once |
| TenancySettings.RemovingDomainIff | app/controllers/organizations/sso_domains_controller.rb:24-30 | A domain is removed by an admin of the organization it is filed for, and by nobody else |
| TenancySettings.SavingScimIff | app/controllers/organizations/scim_connections_controller.rb:17-42 | The same for provisioning |
| TenancySettings.UpdatingCommitsIff | app/controllers/organizations_controller.rb:46-54 | An admin's update writes privacy and logo, as long as only a private organization goes without a logo |
| TenancySettings.StepChangesOrganization | app/policies/organization_policy.rb:4-18 | Whatever the step, an organization changes hands only by its owner's transfer, is erased only by its owner, and is listed or hidden only by an admin; billing and virus scans write their one field |
| TenancySettings.FilingCommitsIff | app/controllers/organizations/projects_controller.rb:25-39 | Projects and exports are filed by admins under their own seat and organization; a project goes at the hands of an admin of its organization |
| TenancyGuarantees.DiscoveryIsUnambiguous | app/models/sso_connection.rb:28-31 | E-mail discovery finds a connection if and only if it is enabled and has verified the domain, independent of row order |
| TenancyGuarantees.DomainIsBehindLastAt | app/models/sso_connection.rb:24-26 | `domain_for` is what stands behind the last @, stripped and downcased, whatever stands in front |
| TenancyInvariants.VerifyDomainKeepsInv | app/models/sso_domain.rb:39-41 | Verifying a domain keeps a verified domain with one connection |
| TenancyDatabase.Database.Save | app/models/membership.rb:39-46 | The guarded update as a transaction on the tables: equal to the step function, in order afterwards |
| TenancyDatabase.Database.Deactivate | app/models/membership.rb:39-41 | Equal to the step function of deactivation behind its policy |
| TenancyDatabase.Database.Reactivate | app/models/membership.rb:44-46 | Equal to the step function of reactivation behind its policy |
| TenancyDatabase.Database.CreateOrganization | app/models/concerns/organization/multitenancy.rb:65-67 | Organization and owner's seat in one transaction, rolled back together |
| TenancyDatabase.Database.TransferOwnership | app/models/concerns/organization/transfer.rb:10-27 | Candidate lookup, promotion and change of owner with rollback, equal to the step function |
| TenancyDatabase.Database.EraseOrganization | app/models/organization.rb:52-62 | Soft deletion with rollback, equal to the step function |
| TenancyDatabase.Database.Accept | app/models/invitation.rb:54-70 | The locked transition statement by statement, with rollback when the seat cannot be saved |
| TenancyDatabase.Database.Decline | app/models/invitation.rb:75-84 | Equal to the step function |
| TenancyDatabase.Database.Revoke | app/models/invitation.rb:86-93 | Equal to the step function |
| TenancyDatabase.Database.CreateInvitation | app/models/invitation.rb:113-124 | Expired duplicates are purged, and come back when a member or a pending invitation stops the save |
| TenancyDatabase.Database.RequestAccess | app/models/membership_request.rb:11-45 | A join request, or at once a seat in a public organization |
| TenancyDatabase.Database.Approve | app/models/access_request.rb:22-30 | Status, completer and seat in one transaction, rolled back together |
| TenancyDatabase.Database.VerifyDomain | app/models/sso_domain.rb:22-27 | Verified once published, unless claimed elsewhere |
| TenancyDatabase.Database.ResolveSignIn | app/models/sso_connection.rb:57-73 | Domain check and lookup, then the known or the new address, equal to the step function the soundness lemma is about |
| TenancyDatabase.Database.SignInUser | app/models/sso_connection.rb:62-68 | The checks for a known user in the source's order, reactivation included |
| TenancyDatabase.Database.SignInStranger | app/models/sso_connection.rb:66-70 | Provisioning of a new address, denied when its rows cannot be saved |
| TenancyDatabase.Database.Provision | app/models/sso_connection.rb:129-134 | User and membership in one transaction, rolled back together |
| TenancyDatabase.Database.ScimCreate | app/controllers/scim/users_controller.rb:12-53 | Consent check, then provision, reactivate or conflict, equal to the step function |
| TenancyDatabase.Database.Redact | app/models/concerns/user/redaction.rb:24-44 | The redaction transaction, equal to a step function without an abort inside its loop |
| TenancyDatabase.Database.WithdrawAll | app/models/concerns/user/redaction.rb:29 | The loop over active memberships deactivates every one of them and never aborts on one |
| Deletion.DestroyMemberships | app/models/membership.rb:14-15 | The cascade over memberships gets through exactly when no project left refers to one of them, and takes their exports and audit names along |
| Deletion.DestroyOrganization | app/models/organization.rb:7-10 | The whole cascade in association order, with the guard and the rollback: all rows of the organization or none |
| Deletion.DestroyUser | app/models/user.rb:29 | The guards and restrictions in callback order, down to the foreign key of completed join requests: all rows of the user or none |
| Deletion.TerminateSession | app/controllers/concerns/authentication.rb:61-67 | Destroys the session and logs it for every active membership of the user, one at a time |
| Deletion.CloseAccount | app/models/concerns/user/redaction.rb:16-20 | The session ends, then redact when there is a footprint by now, otherwise destroy; equal to the step function |
| Deletion.PurgeOne | app/jobs/organization/purge_job.rb:11 | On tables in order, destroying a due organization with its whole cascade fails exactly on a subscription |
| Deletion.PurgeOrganizations | app/jobs/organization/purge_job.rb:9-14 | The first loop in id order from its cursor: stops at the first organization that refuses and keeps what was purged before; interrupted after any number of turns it hands out the cursor to resume from |
| Deletion.PurgeOrphans | app/jobs/organization/purge_job.rb:16-18 | The second loop destroys every orphan and never stops |
| Deletion.Perform | app/jobs/organization/purge_job.rb:6-19 | One execution with its cursor and its interruption equals the step function of the job; the second loop runs only once the first ran through |
| OauthRefresh.PresentsTheStoredToken | app/models/concerns/oauth_token_refreshable.rb:13-21 | For any number of callers, stale copies and interleavings: whoever has a refresh under way presents the stored refresh token of a row not invalidated, and nobody else has one under way |
| OauthRefresh.InvalidatedIsFinal | app/models/concerns/oauth_token_refreshable.rb:43-48 | After a recorded invalidation no refresh is presented and the row never changes again |
| OauthRefresh.RevocationStopsRefreshing | app/models/concerns/oauth_token_refreshable.rb:43-47 | An answer that revokes the grant is recorded, and no presentation follows it |
| OauthRefresh.RefreshRateIsBounded | app/models/concerns/oauth_token_refreshable.rb:23-27 | If every issued token lives at least L > 10 minutes, N successes in a window W satisfy (N - 1) * (L - 10 min) <= W |
| OauthRefresh.SuccessesAreSpaced | app/models/concerns/oauth_token_refreshable.rb:35-42 | After a success at t the next one is at least L - 10 minutes away |
| OauthRefresh.StepKeepsInv | app/models/concerns/oauth_token_refreshable.rb:15-18 | One caller at most is inside the lock, with a copy equal to the stored row |
| OauthRefresh.PresentsIff | app/models/concerns/oauth_token_refreshable.rb:13-34 | Under the lock a caller presents exactly when the stored row is refreshable, not invalidated, and within ten minutes of its expiry |
| OauthRefresh.StoredWasIssuedLast | app/models/concerns/oauth_token_refreshable.rb:35-42 | After any run the row holds the last access token issued with its expiry and the last refresh token issued, and was invalidated only by an answer that revokes the grant |
| OauthRefresh.PresentsTheLastIssued | app/models/concerns/oauth_token_refreshable.rb:35-42 | The refresh token under presentation is the last one the provider issued |
| OauthRefresh.Record.LockAndReload | app/models/concerns/oauth_token_refreshable.rb:15-18 | The second check on the reloaded row decides whether the stored refresh token is presented |
| OauthRefresh.Record.RenewToken | app/models/concerns/oauth_token_refreshable.rb:35-49 | Saving the locked copy after the answer equals updating the stored row |
| SamlRequests.PassesAtMostOnce | app/models/saml_auth_request.rb:17-21 | Whatever cookies are presented or restored, no request id passes the callback check twice (section 4.1.4.5 of SAML 2.0 Profiles) |
| SamlRequests.PassWasStarted | config/initializers/omniauth_saml.rb:21-28 | A pass answers a request started on that very connection at most ten minutes before |
| SamlRequests.StartedPasses | config/initializers/omniauth_saml.rb:21-28 | Conversely, a request nobody consumed, whose connection still exists, passes for ten minutes, whatever else happens meanwhile |
| SamlRequests.OnePendingIff | config/initializers/omniauth_saml.rb:13-16 | Starting over leaves the new id as the browser's only pending one if and only if every other pending id is the one its cookie names, or expires on that connection at this instant |
| SamlRequests.TidyUnlessAbandoned | app/controllers/sessions/sso_controller.rb:29-37 | Every move of the browser, or of anyone else, keeps the cookie naming all that is pending, except choosing a connection again or dropping the cookie, which do so exactly when nothing is in the pending scope |
| SamlRequests.AtMostOnePending | config/initializers/omniauth_saml.rb:7-19 | A browser that abandons no pending request never has two ids in the pending scope, whatever others do |
| SamlRequests.ExpiringIdIsAbandoned | app/models/saml_auth_request.rb:8-10 | The condition is tight at the instant of expiry: choosing another connection right then and starting leaves two ids in the scope |
| SamlRequests.StartingOverLeavesTwo | app/controllers/sessions/sso_controller.rb:32 | The unconditional claim is false: choosing a connection twice and starting each time leaves two pending ids |
| SamlRequests.SamlAuthRequests.RequestPhase | config/initializers/omniauth_saml.rb:7-19 | Consume, start and cookie in order; a missing connection stops the start after the consume took effect |
| SamlRequests.SamlAuthRequests.CallbackPhase | config/initializers/omniauth_saml.rb:21-28 | Matches an id exactly when it is pending for the cookie's connection, and uses it up |
| SamlRequests.SamlAuthRequests.Consume | app/models/saml_auth_request.rb:17-21 | Deletes the pending row of that id and connection, and says whether there was one |
| SamlRequests.SamlAuthRequests.Start | app/models/saml_auth_request.rb:12-15 | Drops the connection's stale rows, then adds the new one if the connection exists |
| MagicLinks.RunKeepsInv | app/models/concerns/user/authentication.rb:18-28 | After any run each user holds at most one row per slot, and all codes differ |
| MagicLinks.OneCodePerSlot | app/models/magic_link.rb:43-47 | Spelled out: at most one row for signing in or up, one for an address change, one for sudo, with different codes across all users |
| MagicLinks.ConsumedAtMostOnce | app/models/magic_link.rb:25-37 | Every row is consumed at most once |
| MagicLinks.SupersededIsNeverConsumed | app/models/concerns/user/authentication.rb:21-24 | A row replaced by a newer send of its slot is never consumed |
| MagicLinks.MatchIsUnique | app/models/magic_link.rb:26-31 | A consume takes a row if and only if it is active and matches owner, purpose, new address and code; there is never a second candidate |
| MagicLinks.FreshCodeWorks | app/models/magic_link.rb:59-61 | The newest code of a slot is the one consumed, up to and including its fifteenth minute |
| MagicLinks.ConsumedWasSent | app/models/magic_link.rb:25-37 | Whatever a consume hands out was sent to that user at most fifteen minutes before, for a purpose it asked for, to the new address it asked for, with that very code |
| MagicLinks.SendCommitsIff | app/models/concerns/user/authentication.rb:18-28 | A send creates its row exactly when a candidate is free once its slot is, and an address change names a valid address; otherwise the old rows stay |
| MagicLinks.RowGoesIff | app/models/magic_link.rb:39-41 | A row goes when it is handed out, superseded, cleaned up after its time, or its user goes, and for no other reason |
| MagicLinks.SanitizeFindsCode | app/models/magic_link/code.rb:11-15 | A generated code survives sanitizing however it is split and surrounded by other characters |
| MagicLinks.MagicLinkStore.SendMagicLink | app/models/concerns/user/authentication.rb:18-28 | Frees the slot and creates the row, or rolls both back when an address change has no valid new address |
| MagicLinks.MagicLinkStore.ConsumeCode | app/models/magic_link.rb:25-37 | Hands out and destroys a row with the asked owner, a requested purpose, the asked new address, the sanitized code, and time left; None exactly when there is no such row |
| MagicLinks.MagicLinkStore.GenerateCode | app/models/magic_link.rb:52-57 | The loop settles on the first candidate no row has |
| TwoFactor.CodesAreConserved | app/models/concerns/user/two_factor.rb:59-69 | For any interleaving of verifications within an enrolment, the codes left plus the codes accepted are the codes at its start, as multisets; TOTP successes use none |
| TwoFactor.AtMostTenBackupLogins | app/models/concerns/user/two_factor.rb:33-38 | At most ten backup-code successes follow an enrolment |
| TwoFactor.UsedUpIsRefused | app/models/concerns/user/two_factor.rb:61-63 | A code accepted as often as it was issued is refused from then on |
| TwoFactor.DisablingVoidsCodes | app/models/concerns/user/two_factor.rb:40-43 | After disabling no backup code is accepted, even from a stale copy of the user |
| TwoFactor.NewEnrolmentVoidsOldCodes | app/models/concerns/user/two_factor.rb:33-38 | After a second enrolment only its own codes are accepted, each at most as often as it was issued, even from a copy loaded in the first |
| TwoFactor.VerifiedIff | app/models/concerns/user/two_factor.rb:23-31 | Accepted are exactly six digits the TOTP check confirms and eight hexadecimal digits among the stored codes, both only for an enrolled user; the latter takes that code away once, nothing else changes the enrolment |
| TwoFactor.IssuedCodeWorks | app/models/concerns/user/two_factor.rb:59-69 | From a copy loaded now, every issued code works until it is used up, and after disabling none does |
| TwoFactor.Account.VerifyOtp | app/models/concerns/user/two_factor.rb:23-31 | Dispatch on the normalized code, with both accepted forms spelled out; only the backup branch reloads under the lock, and only a backup success changes anything |
| TwoFactor.Account.ConsumeBackupCode | app/models/concerns/user/two_factor.rb:59-69 | Deletes the first occurrence, and succeeds exactly when there is one |
| Sessions.IdleBounds | app/models/session.rb:34-42 | Over any run with a clock that does not go back: a session is dropped only when its last use is more than 14 days minus 15 minutes old, and always when it is more than 14 days old |
| Sessions.RunTracks | app/models/session.rb:34-38 | The throttled timestamp is never ahead of the last use and less than 15 minutes behind it |
| Sessions.ThrottleIsVisible | app/models/session.rb:34-38 | Both ends of the window occur: same last use, one session dropped and another resumed |
| Sessions.GoneStaysGone | app/models/session.rb:24-28 | A dropped token stays refused |
| Sessions.SessionStore.ResumeFromCookie | app/models/session.rb:18-32 | Resumes, drops or ignores, equal to the step function |
| Sessions.SessionStore.Clean | app/models/session.rb:14-16 | Deletes exactly the sessions that resuming would refuse, and changes no other |
| Revisions.RevisionCount | app/services/file_metadata_stripper.rb:85-98 | The chunked scan with carry equals the number of occurrences in the whole file, for every content and every chunk size of at least one byte |
| Revisions.OccurrencesCountPositions | app/services/file_metadata_stripper.rb:86 | That number is the size of the set of positions the token starts at |
| Revisions.ScanFindsEverything | app/services/file_metadata_stripper.rb:93 | The token has no border, so a non-overlapping scan finds every occurrence |
| Revisions.WindowSeesTheRest | app/services/file_metadata_stripper.rb:92-94 | What a chunk adds is exactly what a window over the last eight bytes sees |
| Readers.DrainOutput | app/services/file_metadata_stripper.rb:152-161 | Reads the stream to its end and holds the first 65537 bytes of it, however it is split |
| Readers.CommandOutput | app/services/file_metadata_stripper.rb:132-138 | Accepts exactly the streams of at most 65536 bytes, verbatim |
| Readers.ReadOutput | app/services/antivirus_scanner/command_runner.rb:41-49 | Accepts the same streams, never holds more than 65537 bytes, never asks for less than one, and leaves what it did not need in the pipe |
| Readers.CapGrows | app/services/file_metadata_stripper.rb:156-157 | Keeping what fits of each chunk keeps what fits of the stream |
| AutoLink.AutolinkText | lib/scrubbers/auto_link_scrubber.rb:40-58 | No nodes exactly without matches; otherwise the nodes the following lemmas are about |
| AutoLink.CutConserves | lib/scrubbers/auto_link_scrubber.rb:50-55 | The nodes read as the original text, and their anchors are the links in order |
| AutoLink.CutIsNormal | lib/scrubbers/auto_link_scrubber.rb:51 | No empty text node, and never two side by side |
| AutoLink.PunctuationReturns | lib/scrubbers/auto_link_scrubber.rb:79-81 | Punctuation cut off a URL is the beginning of the text node right behind its anchor |
| AutoLink.CleanUrlIsUnique | lib/scrubbers/auto_link_scrubber.rb:20-21 | `clean_url` cuts off the whole trailing run of punctuation and nothing else |
| AutoLink.LinksArePlaced | lib/scrubbers/auto_link_scrubber.rb:60-77 | For every ordered non-overlapping list of matches the links lie in the text, in order and without overlap |
| AutoLink.FindLinks | lib/scrubbers/auto_link_scrubber.rb:60-77 | The loop yields one link per match |
| AutoLink.ScrubConserves | lib/scrubbers/auto_link_scrubber.rb:27-36 | Scrubbing a whole document never changes what it says; excluded elements are left alone |
| VirusScan.ServedWasScanned | app/controllers/concerns/active_storage/virus_scan_guard.rb:13-16 | Over any interleaving of uploads, attaches, crashes, sweeps, jobs, failures and stale saves by analyses: a covered file is served only after some scan of it found it clean |
| VirusScan.FinalSurvivesIff | lib/active_storage_safety.rb:16-22 | A clean or failed status survives every later run exactly when no analysis is under way that loaded the file before the status was final |
| VirusScan.FinalIsUndoneIff | lib/active_storage_safety.rb:19-21 | Of all steps only one undoes a final status: an analysis saving a copy loaded before it; the scan's own writes, behind lock and reload, never do |
| VirusScan.AnalysisTakesCleanToPending | config/initializers/active_storage.rb:25-27 | The failing run: an analysis loads the pending file, the scan finds it clean, the analysis saves; the file is refused again and nothing is queued |
| VirusScan.AnalysisTakesCleanToNone | app/analyzers/active_storage/analyzer/safe_image_analyzer.rb:5-15 | Loaded before the marking, the same analysis takes the status back to none |
| VirusScan.FailedMeansThreeErrors | app/jobs/virus_scan_job.rb:17-19 | After any run, a failed status means that at least three scans of the file ended in an error, whichever jobs they belonged to |
| VirusScan.ScanOutcome | app/jobs/virus_scan_job.rb:17-34 | What each result leaves: an infected file is gone with every attachment, a clean one recorded clean, the third error recorded failed, the fifth unavailable scanner ends the job; before that one more attempt is queued; no other file changes |
| VirusScan.InfectedIsNeverServed | app/jobs/virus_scan_job.rb:30 | A file some scan found infected is gone and never served again, over every later run |
| VirusScan.ServedIff | app/controllers/concerns/active_storage/virus_scan_guard.rb:13-16 | Served is exactly a file recorded clean, or one without a status that no covered attachment holds |
| VirusScan.Scanning.Sweep | app/jobs/virus_scan_sweep_job.rb:8-29 | After an undisturbed sweep every covered file older than an hour that is neither clean nor failed has a scan queued; statuses only go from none to pending |
| VirusScan.SweepItemQueuesIff | app/jobs/virus_scan_sweep_job.rb:12-16 | With a status loaded earlier, a sweep item leaves a job behind if and only if it was loaded as recorded, is unrecorded now, or a job was queued already |
| VirusScan.OvertakenSweepMisses | app/models/concerns/scans_for_viruses.rb:20-26 | A process that marks a file after the sweep loaded it and dies before queueing makes the sweep miss it |
| VirusScan.StepKeeps | app/jobs/virus_scan_job.rb:28-33 | Only a clean scan records clean and only a recorded status is copied; every step but an analysis's save keeps a final status final |
| VirusScan.Scanning.EnqueueScan | app/models/concerns/scans_for_viruses.rb:19-27 | Marks and queues exactly when no status is recorded |
| VirusScan.Scanning.PerformJob | app/jobs/virus_scan_job.rb:17-34 | Takes the job off the queue and concludes with the rule of its result; a job whose file is gone ends there |
| VirusScan.Scanning.PurgeAttachments | app/jobs/virus_scan_job.rb:30 | Every attachment of an infected file goes, and the file with them |

## Left out

- Concurrency inside one tenancy request: its validations read first and write later, and the transfer candidate is read outside the transaction (app/models/concerns/organization/transfer.rb:11-17). The tenancy theorems are about atomic requests; interleavings are modelled where the code takes a lock.
- Ids of all tables come from one counter in the tenancy model; only that no id is handed out twice is used.
- The audit trail is reduced to the memberships that some audit row names. An `Audit` step may add any membership at any time, which covers every place that logs.
- TenancyRedacted.RedactedSeatWasApproved: founding, joining, asking, accepting and declining are steps of a user who is signed in. Steps of an acting member are guarded by the membership alone, so the model lets an administrator act whose account the application would not let in; every theorem holds for the larger set of runs.
- TenancyIsolation.NobodyReachesAcross: audit rows are not part of an organization's rows there, and the copy a revoke or resend holds is of the row's own organization, as TenancyOffers.CopyStaysTrue shows for every copy loaded in an earlier state.
- TenancySignIn.FirstFactorIff: the code and the assertion themselves are the business of MagicLinks and of TenancySignOn; an assertion may be presented as long as its connection backs it, not only right after it was resolved. Both tickets and API tokens are signed cookies or headers without a row.
- TenancyDatabase.Database: rows are entries of maps in one field, so two in-memory objects for the same row, and saving an object loaded earlier, appear only as the explicit copy parameters of the invitation methods.
- TenancyDatabase.Database.ScimCreate: a blank userName is refused before the action, as the SCIM library does for an attribute required by section 4.1.1 of RFC 7643; without that check `require_consent_for_existing_account!` would be skipped (app/controllers/scim/users_controller.rb:67). Attributes other than userName and active are not modelled.
- TenancyDatabase.Database.Redact: names, locale, consent and notifications of the user are not modelled; the loop stamps every membership with the same time.
- TenancyDatabase.Database.RequestAccess: the organization is looked up among those the community page lists, which ignores soft deletion, as the code does (app/models/concerns/organization/community.rb:11).
- Deletion.DestroyOrganization: domains and SAML requests of a connection, audit rows and attachments go with their owners and are not listed separately.
- Deletion.Perform: one call is one execution of the job; time passes and other steps run between executions only in the tenancy machine, and TenancyPurge.ResumedPurgeIsComplete is about two executions back to back. The cut-off is read again by each execution, as in the code.
- OauthRefresh.RefreshRateIsBounded: assumes the stored row has no writer but this concern. No model of the repository includes the concern yet, so there is none.
- SamlRequests.PassesAtMostOnce: assumes that a request id is never drawn twice. Signature and content of the response are library code.
- MagicLinks.MagicLinkStore.GenerateCode: works on a finite list of candidates; while none is free the generator keeps looping and commits nothing.
- MagicLinks.FreshCodeWorks: delivery of the code, rate limits and the pending-address cookie are not modelled.
- TwoFactor.Account.VerifyOtp: the TOTP arithmetic, and the secret of the caller's copy, are its boolean parameter.
- Revisions.RevisionCount: a chunk size of zero would never reach the end of the file, in the application as well.
- Readers.DrainOutput: a reader closed by the time-out ends the loop early in the application; its partial output is then not used.
- AutoLink.LinksArePlaced: the regular expressions are not modelled; the matches are any ordered, non-overlapping list of pieces of the text.
- VirusScan.Scanning.PerformJob: a job whose file is gone is discarded; the application may retry it a few times without effect.
- VirusScan.FinalSurvivesIff: Active Storage is not part of this model. Its analysis is taken to load the file's metadata column at one moment and to save all of it later, without lock or reload; what else it writes there (`width`, `height`, `safe`) is not modelled.
- VirusScan.ServedWasScanned: files start without a recorded status; a status forged in a direct upload's metadata is outside the model.
- `strip`, `downcase` and `casecmp` are modelled on ASCII.
- Exact agreement of the Ruby and SQL expiry filters of invitations at the expiry instant: the model follows each of them where it is used, and they differ there.
- The Avo console, `update_column` and raw SQL, which bypass the steps.
- Mail, notifications, views, Stripe, DNS, ClamAV, ExifTool, qpdf, process spawning and time-outs, XML signatures, token signing, rate limits, locales, onboarding, marketing consent, data-export status: input, output or easy members.
