# ProxVM: access control, setup, throttles and the other protocols of the API

ProxVM is a self-hosted portal for Proxmox virtual machines. This project models the parts of its
API whose correctness depends on more than one call: who may do what, and how that changes when
users administer each other; how the Guacamole permission table follows group access; what
concurrent set-up and drift requests can do to each other; what Redis counters bound; and a few
places where a cached or duplicated form must agree with a plain one.

The state of the system is a record of tables (`Iam.Db`). Each endpoint is split into the reason
it refuses, in the order the handler checks, and the rows it writes. The handlers themselves are
methods of classes (`Routes.Backend` and one class per other file) that run guards, writes and
loops step by step and are held against those definitions. `Answers` and `Rows` hold the definitions
themselves against the rows: which requests are accepted, which error is answered for what, and which
row every table has at every key afterwards. Everything else is about runs:
sequences of calls by anybody, clock ticks, sweeps, failures and interleavings, of any length.

| file | about |
|---|---|
| `Common.dfy` | options and expiries, the fate of a call, order-preserving filters, counting in intervals |
| `Iam.dfy` | tables, permission resolution, every role, grant, group and account endpoint |
| `Answers.dfy`, `Rows.dfy` | a second account of the endpoints: every answer, and every row they leave, by table |
| `Durations.dfy`, `Accounts.dfy` | how much a grant gives and for how long; deactivation |
| `Tables.dfy` | what every event keeps about the tables |
| `Effects.dfy` | what every request does to the reasons a user holds a permission |
| `Delegation.dfy` | conferral, withdrawal and coalitions |
| `Root.dfy` | the initial administrator |
| `Guac.dfy`, `Agreement.dfy` | the Guacamole index and its agreement with effective access |
| `Cleanup.dfy` | what becomes of index entries whose access has lapsed |
| `Protocols.dfy` | which protocols an index entry opens, over runs |
| `Incidents.dfy` | runs of a fresh installation at which a promise fails |
| `Routes.dfy` | the handlers of the role, grant, group and account endpoints |
| `Setup.dfy`, `Drift.dfy` | single-flight protocols |
| `Counters.dfy`, `Throttle.dfy`, `Scan.dfy` | Redis counters, login throttle, scan detection |
| `Memo.dfy`, `Visibility.dfy` | the permission memo; drift board, audit log and job list |
| `Retry.dfy`, `Alerts.dfy`, `Firewall.dfy` | job retry, health alerts, firewall chain |

A permission is held for a *source*: a role row, a direct grant, or a group membership together
with a role link. A source is live while every row it rests on is unexpired. Statements about
permissions are statements about live sources, because a union over three tables and a moving
clock is hard to reason about in any other form.

## Where the code does not do what is promised

Each of these is proved, with the condition under which the promise does hold where there is one.

- `packages/core/src/services/iam.ts:316-370`: the sweep revokes a pair of user and VM because one
  of its rows expired, also when another row still gives access. The index stays complete exactly
  when no stale pair has another live path (`Agreement.SweepKeepsCover`); `Incidents.SweepRevokesReachable`
  is a run where one has.
- `apps/api/src/routes/iam.ts:624-631`, `apps/api/src/routes/iam.ts:430-448` and
  `packages/core/src/services/iam.ts:354-368`: access that lapses by the clock is cleaned up only as
  long as some expired row still shows the pair. Revoking a VM and deleting a group re-sync unexpired
  members only and delete such rows; the sweep deletes them also when its revocation failed. In all
  three cases a user whose membership has just lapsed keeps the Guacamole connection through every
  later run of ticks, sweeps with any failures, and requests that leave memberships, VM grants and
  accounts alone (`Cleanup.RevokeStrandsLapsedMember`, `Cleanup.DeletionStrandsLapsedMember`,
  `Cleanup.FailedSweepStrandsLapsedMember`; `Incidents.RevokedTooEarly` is a run from a fresh
  installation). Every exposed entry can be found at every point of a run if and only if every step
  spares (`Cleanup.RunFindable`): those three leave another row that shows what they do not re-sync, a
  failed re-sync leaves nothing or a pair that is reachable or stale, and a user deleted while
  Guacamole is away has no entries. A sweep then makes the index equal to effective access exactly
  when every exposed pair is stale and no stale pair is reachable (`Cleanup.SweepIsExact`).
- `apps/api/src/routes/users.ts:208-219`: the Guacamole account is removed before the deletion is
  decided. An account that keeps its access loses its connections exactly when the early checks pass
  and it is the initial or the last active administrator (`Agreement.LateRefusalDropsIndex`;
  `Incidents.RefusalEmptiesIndex` is such a run).
- `packages/core/src/services/iam.ts:248-267`: global `protocol.*` permissions scope every grant that
  lists no protocols. Any request that moves such a permission - direct grants, role assignments, role
  edits and deletions, memberships, links, group deletion - can change what a pair it does not re-sync
  should open. `Protocols.UntouchedProtocols` says exactly when it does, from the state before;
  `Incidents.GrantLeavesIndexWide` is a direct grant after which the index opens every protocol and
  only SSH is allowed. `Protocols.RunExact` extends the condition to every step and run: expiries,
  sweeps, failures and deletions.
- `apps/api/src/routes/iam.ts:239-244`: re-assigning ADMIN to the initial administrator may attach
  an expiry. When it passes, permissions only that account held are lost to everybody and no later
  run brings them back (`Root.DatedRootLocksOut`); without that request the account stays an
  unexpired administrator (`Root.RootStaysAdmin`).
- `packages/core/src/config/local-config.ts:14-21`: a file that cannot be accessed reads as absent.
  One such misread lets setup run a second time and make a second initial administrator
  (`Setup.MisreadMakesTwo`). The number of marked administrators is at most one more than the number
  of misreads (`Setup.AtMostOneAdministrator`), and for every number of misreads some run gets there
  (`Setup.EveryMisreadMayAddOne`). A completion that fails after saving leaves an
  instance that the wizard can never finish (`Setup.SavedSetupIsShut`).
- `apps/api/src/routes/auth.ts:54-58` speaks of ten attempts a minute. The counter's windows allow
  nineteen within a millisecond (`Throttle.NineteenInAMillisecond`). In an interval of L milliseconds
  at most ten pass for each whole 60001 in L, plus ten, plus nine unless 60001 divides L
  (`Throttle.ThrottleBound`), and every length has a run that gets exactly so many through
  (`Throttle.BoundIsMet`). A counter whose EXPIRE is lost refuses its
  user for ever (`Throttle.LostExpireRefusesForever`).
- `apps/api/src/routes/jobs.ts:112-115` and `packages/core/src/provisioning/reschedule.ts:53-59`:
  reschedules use up Bull ids the attempts counter does not know, retries start again from the
  counter, and an id the queue still knows is ignored. So a retry can be accepted and leave its job
  PENDING with nobody to run it (`Retry.RescheduledRetryStrands`), and a retry that goes well can be
  followed by a reschedule that leaves it WAITING_FOR_GUEST (`Retry.RescheduleAfterRetryStrands`).
  An attempt that throws outside its guarded part (`packages/core/src/provisioning/pipeline.ts:105-197`)
  ends without writing the row, and a reset that breaks off after the row is outside the retry's guarded
  part; either leaves the job to nobody (`Retry.ThrowStrands`, `Retry.HalfResetStrands`). Over all runs,
  with any faults, failing compensations included, no unfinished job is ever left to nobody if and only
  if every step is guarded (`Retry.RetryNeverStrands`); each kind of step has its own exact condition
  (`Retry.RetryStrands`, `Retry.CleanRetryStrands`, `Retry.RescheduleStrands`). If no attempt throws and
  every failure is compensated, a job that is never rescheduled is safe (`Retry.NewJobNeverStrands`),
  and so is one that is never retried (`Retry.UnretriedNeverStrands`). A stranded job stays so until it
  is cancelled or rolled back (`Retry.StrandedStays`).
- `packages/core/src/services/firewall.ts:342-383`: applying isolation is meant to fail open. That
  holds whatever call fails exactly for a guest whose policies are open, or with at most one rule to
  write; on a guest that is already isolated the old block is deleted behind closed policies, so a
  failure in between leaves it closed without its exceptions (`Firewall.FailsOpen`).
- `apps/api/src/app.ts:583-598`: a change to UNCONFIGURED is announced as a recovery, and a lost
  state write announces the same outage twice (`Alerts.AlertsAreEdges`, `Alerts.LostWriteRepeats`).
  A run with a failing store sends exactly the edges if and only if every pass compares each check
  rightly with what it gets to read (`Alerts.RunSendsEdgesIff`).
- `packages/core/src/services/vms.ts:532-542`: the comment says missing VMs deny; the code lets
  privileged users through, and so does the model.

## Model

`Routes.Backend.Handle` stands for all endpoint methods of `Routes.Backend`; only those that do more
than check, write and re-sync once have a row of their own.

| member | source | states |
|---|---|---|
| Iam.Effective | packages/core/src/services/iam.ts:76-185 | the resolved permission set holds exactly the permissions with some live source |
| Iam.PartsAreSources | packages/core/src/services/iam.ts:103-160 | the three joins over role rows, grants and group rows find exactly the live sources |
| Iam.GroupConfers | packages/core/src/services/iam-store.ts:267-297 | a group confers a catalog permission exactly when some unexpired linked role does |
| Iam.Allows | apps/api/src/plugins/auth.ts:78-157 | the guard lets through exactly an active account with a live source |
| Iam.NothingMissing | packages/core/src/services/iam.ts:393-410 | the missing-list check passes exactly when the actor holds everything conferred |
| Iam.NoOverreach | packages/core/src/services/iam.ts:412-433 | the overreach check passes exactly for oneself or a target that holds nothing the actor lacks |
| Tables.RequestKeepsWellFormed | apps/api/src/routes/iam.ts:147-640 | every request keeps foreign keys, catalog-only stored codes, and the reserved names on the protected built-in roles |
| Tables.EventKeepsWellFormed | packages/core/src/services/iam.ts:316-370 | so do the clock, the sweep, self-registration and join requests |
| Tables.SeededIsWellFormed | packages/core/src/db/migrations/007_iam.ts:68-84 | the seeded tables satisfy these invariants |
| Answers.EveryAnswer | apps/api/src/routes/iam.ts:147-640 | every request is accepted exactly when the caller is present and none of five objections applies - lacking a permission, an absent record, a clash, an improper demand, overreach - and each error is answered for its own objection only |
| Rows.AcceptedRows | apps/api/src/routes/iam.ts:147-640 | at every key of every table an accepted request leaves exactly the row its endpoint writes: names, permissions, dates, protocols, flags and passwords as asked, and every other row as it was |
| Rows.RefusedRows | apps/api/src/routes/users.ts:114-195 | a refused request changes nothing but an active flag set before the refusal, or drops the expired join request it names, exactly under these conditions |
| Rows.SweptRows | packages/core/src/services/iam.ts:362-368 | the sweep removes exactly the expired rows of five tables, but for the direct ones it could not revoke |
| Rows.SignedUpRows | apps/api/src/routes/auth.ts:207-222 | a stranger with a free name becomes an active guest, and nothing else |
| Rows.AskedRows | packages/core/src/services/registration.ts:51-76 | a join request for a free name removes outdated ones for the name and is queued unless one is left |
| Rows.TickRows | packages/core/src/services/iam.ts:76-185 | time moves forward and nothing else |
| Durations.CompiledSets | packages/core/src/services/rbac.ts:67-104 | the four compiled permission sets |
| Durations.HeldByRows | packages/core/src/services/iam.ts:76-185 | the resolved set holds a permission exactly by an unexpired role row, direct grant, or membership with a link |
| Durations.PathByRows | packages/core/src/services/vms.ts:302-321 | a path is live at a moment exactly while every row it rests on is unexpired then, and carries its row's protocols |
| Durations.AllowedByRows | packages/core/src/services/iam.ts:248-267 | a protocol is allowed exactly if some open path lists it, or one lists nothing and the protocol is held globally or none is |
| Durations.VmGrantGives | apps/api/src/routes/iam.ts:596-604 | after an accepted VM grant unexpired members reach the VM with exactly the protocols asked for, at every moment exactly while date and membership last |
| Durations.VmGrantSparesOthers | apps/api/src/routes/iam.ts:596-604 | every other pair of group and VM, and every direct row, gives what it gave |
| Durations.VmGrantOpensOnly | apps/api/src/routes/iam.ts:596-605 | a member whose only way it is may use exactly the listed protocols |
| Durations.RoleLasts | apps/api/src/routes/iam.ts:239-244 | an assigned role gives its permissions exactly until its date |
| Durations.GrantLasts | apps/api/src/routes/iam.ts:312-350 | a direct grant gives that permission exactly until its date |
| Durations.LinkLasts | apps/api/src/routes/iam.ts:527-555 | a role link gives the role's stored permissions exactly while date and membership last |
| Durations.MembershipLasts | apps/api/src/routes/iam.ts:450-499 | a membership gives what the group's links give exactly while both last |
| Durations.MembershipOpens | apps/api/src/routes/iam.ts:450-499 | and opens the way to the group's VMs exactly while both last |
| Accounts.UpdateSets | apps/api/src/routes/users.ts:126-146 | an accepted update sets flag and password as asked and leaves name, mark and everybody else alone |
| Accounts.AbsentIsTurnedAway | apps/api/src/plugins/auth.ts:78-96 | every request of an account is answered 401 and changes nothing exactly while the account is absent or inactive |
| Accounts.OutUntilRevived | packages/core/src/services/users.ts:185-190 | one event of any kind lets such an account in again exactly when somebody who may re-enables it, or an account is opened under its identifier |
| Accounts.OutOverRuns | packages/core/src/services/users.ts:185-190 | over every run it is turned away at every point if and only if nothing revives it |
| Accounts.DeactivationHolds | apps/api/src/routes/users.ts:126-146 | and so from an accepted deactivation on |
| Effects.RequestEffect | apps/api/src/routes/iam.ts:147-577 | for any user, permission and source: after any request the source is live exactly when `SourceAfter` says so from the state before; a refused request changes none |
| Effects.UpdateUserEffect | apps/api/src/routes/users.ts:114-195 | a role change replaces exactly the target's role sources, and a refusal half-way changes no source although the active flag may have changed |
| Effects.AdmitEffect | packages/core/src/services/registration.ts:101-149 | approving a request adds exactly the new account's built-in role |
| Delegation.ConferralChecked | apps/api/src/routes/iam.ts:158 | no accepted request puts a permission into circulation that its caller does not hold |
| Delegation.GainsAreEarned | apps/api/src/routes/iam.ts:236-237 | whatever anybody gains by a request, its caller held before it |
| Delegation.NothingWithoutPermission | apps/api/src/routes/iam.ts:66-68 | without the endpoint's permission a request changes nothing and is answered 401 or 403 by sign-in alone |
| Delegation.NobodyActsUpward | apps/api/src/routes/iam.ts:324-327 | whoever acts on a user holds everything that user holds |
| Delegation.SystemRoleStays | packages/core/src/services/iam.ts:372-376 | a system role keeps its name, protection and stored permissions through every event |
| Delegation.WithdrawalsAreHeld | apps/api/src/routes/iam.ts:501-577 | whatever anybody loses by a request other than role edit, role deletion and group deletion, its caller holds |
| Delegation.GroupDeletionTakes | apps/api/src/routes/iam.ts:430-448 | group deletion takes a permission from a user exactly when it reached them through that group alone, whoever deletes |
| Delegation.StepContained | apps/api/src/routes/users.ts:63-77 | one event by a coalition, including the accounts it recruits by it, adds nothing to what the coalition commands |
| Delegation.CoalitionContained | apps/api/src/routes/users.ts:114-175 | over every run by a coalition that grows with the accounts it creates, approves, re-enables or resets, its permissions stay within what its first members held |
| Delegation.NothingFromNothing | apps/api/src/routes/iam.ts:312-350 | a permission nobody holds is never held again, whoever acts |
| Delegation.RunKeepsWellFormed | packages/core/src/db/migrations/007_iam.ts:57-63 | the table invariants hold in every reachable state |
| Root.SetupSeedsRoot | apps/api/src/routes/setup.ts:323-329 | the account setup creates and marks is a permanent root in well-formed tables |
| Root.EventKeepsRoot | apps/api/src/routes/users.ts:125-140 | one event keeps the initial administrator, its active flag and its ADMIN row; a permanent row stays permanent exactly unless the event is an accepted re-assignment with an expiry |
| Root.RootPreserved | apps/api/src/routes/iam.ts:270-278 | over every run the initial administrator keeps account, flag and ADMIN row |
| Root.RootStaysAdmin | apps/api/src/routes/iam.ts:239-244 | in every run without such a re-assignment an unexpired, active administrator is left at the end |
| Root.RootMayDateItself | apps/api/src/routes/iam.ts:228-244 | the re-assignment with an expiry is always accepted from the root itself |
| Root.DatedRootLocksOut | apps/api/src/routes/iam.ts:239-244 | after it and its date, a permission only the root held is held by nobody in every continuation, although account, flag and row remain |
| Guac.AllowedMeansConnect | packages/core/src/services/iam.ts:248-267 | some protocol is allowed exactly when a live grant opens one, whatever the global protocol permissions |
| Guac.UntouchedPathsStay | apps/api/src/routes/iam.ts:81-106 | a pair of user and VM outside the re-synced members times VMs keeps every path to the VM it had |
| Agreement.RunAgrees | apps/api/src/routes/iam.ts:430-640 | over every run with any failures, reachable pairs are indexed up to failed and early-emptied pairs, and indexed pairs are reachable up to lapsed and failed ones |
| Agreement.SmoothRunAgrees | apps/api/src/routes/iam.ts:477-483 | over runs without failures, effective access is inside the index and the index inside effective access and pairs lapsed since their last re-sync |
| Agreement.SeededAgrees | packages/core/src/db/migrations/007_iam.ts:68-84 | the agreement holds at the start |
| Agreement.SweepKeepsCover | packages/core/src/services/iam.ts:323-361 | an unhindered sweep keeps the index complete if and only if no stale pair has another live path |
| Incidents.SweepRevokesReachable | packages/core/src/services/iam.ts:323-361 | a run of a fresh installation after which the sweep empties the entry of a pair that is still reachable |
| Agreement.LateRefusalDropsIndex | apps/api/src/routes/users.ts:208-219 | an online deletion empties the index entries of an account that keeps its access if and only if the early checks pass and the account is the initial or the last active administrator |
| Incidents.RefusalEmptiesIndex | apps/api/src/routes/users.ts:208-219 | a run after which a deputy's refused deletion of the initial administrator empties its entries |
| Agreement.TouchedProtocolsExact | packages/core/src/services/iam.ts:281-308 | a re-synced pair ends with exactly its allowed protocols |
| Protocols.UntouchedProtocols | packages/core/src/services/iam.ts:248-267 | an exact pair that is not re-synced stays exact if and only if its grants list protocols or the accepted request, by the sources it leaves, keeps the scope of the user's global protocol permissions |
| Protocols.RequestGlobals | apps/api/src/routes/iam.ts:147-577 | the global protocol permissions after a request are those `SourceAfter` gives from the state before |
| Protocols.DirectGrantRescopes | apps/api/src/routes/iam.ts:312-350 | a direct grant of one protocol to a user without global ones leaves every unscoped pair open for all while only that one is allowed |
| Incidents.GrantLeavesIndexWide | apps/api/src/routes/iam.ts:312-350 | a run of a fresh installation that ends so |
| Protocols.TickExact | packages/core/src/services/iam.ts:76-185 | an exact pair stays exact over time if and only if no listed protocol, scope or unscoped grant lapses without a lasting substitute |
| Protocols.SweepExact | packages/core/src/services/iam.ts:335-361 | and over a sweep if and only if that neither revokes it while reachable nor fails and leaves something else |
| Protocols.StepExact | apps/api/src/routes/iam.ts:81-106 | one step of any kind keeps an exact pair exact if and only if it does not disturb it |
| Protocols.RunExact | apps/api/src/routes/iam.ts:430-640 | over every run, with any failures, a pair opens exactly its allowed protocols at every point if and only if no step disturbs it |
| Protocols.RunExactButOff | packages/core/src/services/iam.ts:281-308 | over every run every pair opens exactly its allowed protocols, up to those disturbed since their last good re-sync |
| Protocols.SeededExact | packages/core/src/db/migrations/007_iam.ts:68-84 | every pair is exact at the start |
| Cleanup.SweepClearsFindable | packages/core/src/services/iam.ts:323-361 | an unhindered sweep leaves reachable entries only if and only if every unreachable entry is one it finds |
| Cleanup.SweepIsExact | packages/core/src/services/iam.ts:316-370 | it makes the index equal to effective access if and only if, besides, no pair it finds is still reachable |
| Cleanup.LapseIsStale | packages/core/src/services/iam.ts:323-334 | a pair that loses its last path to the clock is one the sweep will find |
| Cleanup.StaleStays | apps/api/src/routes/iam.ts:450-622 | it stays so through every refused request and every accepted one that does not re-sync it, other than revoking a VM and deleting a group or a user |
| Cleanup.RevokeLeavesStale | apps/api/src/routes/iam.ts:624-631 | after revoking a VM a pair is still found if and only if an expired direct row or another group shows it |
| Cleanup.DeletionLeavesStale | apps/api/src/routes/iam.ts:430-448 | the same for group deletion |
| Cleanup.SweepLeavesStale | packages/core/src/services/iam.ts:362-368 | after a sweep a pair is still found if and only if its revocation failed and an expired direct row shows it |
| Cleanup.StepFindable | packages/core/src/services/iam.ts:316-370 | from a state where every unreachable entry can be found, one step of any kind leads to such a state if and only if it spares |
| Cleanup.RunFindable | apps/api/src/routes/iam.ts:430-640 | over every run, with any failures of endpoint calls and sweeps, every unreachable entry can be found at every point if and only if every step spares |
| Cleanup.SweptRunIsExact | packages/core/src/services/iam.ts:316-370 | a failure-free run that spares, then a sweep with no stale pair reachable, ends with the index equal to effective access |
| Cleanup.SweepClearsLapsedMember | packages/core/src/services/iam.ts:335-361 | a sweep alone clears the connections of a member whose only tie has lapsed |
| Cleanup.RevokeStrandsLapsedMember | apps/api/src/routes/iam.ts:624-631 | after revoking the VM from the group none does, over every run of ticks, sweeps with any failures, and requests that leave memberships, VM grants and accounts alone |
| Cleanup.DeletionStrandsLapsedMember | apps/api/src/routes/iam.ts:430-448 | nor after deleting the group, over the same runs |
| Cleanup.FailedSweepStrandsLapsedMember | packages/core/src/services/iam.ts:354-368 | nor after a sweep whose revocation failed for the pair and left something, over the same runs |
| Cleanup.UnseenForever | packages/core/src/services/iam.ts:323-334 | an unreachable entry no row accounts for stays open through every such run |
| Incidents.RevokedTooEarly | apps/api/src/routes/iam.ts:624-631 | a run of a fresh installation after which it does |
| Routes.Backend.Handle | apps/api/src/routes/iam.ts:147-640 | every endpoint, run guard by guard and loop by loop, leaves exactly the reply, tables and index of the step the run theorems speak of |
| Routes.Backend.MergedGrant | packages/core/src/services/iam.ts:85-101 | the merge over the rows of a VM, in any order, yields no grant, every protocol, or exactly the listed ones |
| Routes.Backend.AllowedProtocols | packages/core/src/services/iam.ts:248-267 | the protocols computed by the merge are the allowed ones |
| Routes.Backend.Reconcile | packages/core/src/services/iam.ts:287-308 | revoking all and granting one by one leaves exactly the allowed protocols, or what a failed attempt left |
| Routes.Backend.GroupMemberIds | apps/api/src/routes/iam.ts:99-106 | the query returns exactly the unexpired members |
| Routes.Backend.GroupVmIds | apps/api/src/routes/iam.ts:92-97 | the query returns exactly the group's VMs, expired rows included |
| Routes.Backend.ReconcileAll | apps/api/src/routes/iam.ts:438-440 | the nested loops re-sync exactly members times VMs |
| Routes.Backend.DeleteGroup | apps/api/src/routes/iam.ts:430-448 | tables and reply are the specified outcome, and the index is re-synced for the pairs read before the cascade |
| Routes.Backend.AddMember | apps/api/src/routes/iam.ts:450-499 | the same, re-syncing the member for the group's VMs |
| Routes.Backend.RevokeVm | apps/api/src/routes/iam.ts:624-640 | the same, re-syncing the unexpired members for the VM |
| Routes.Backend.UpdateUser | apps/api/src/routes/users.ts:114-175 | the three parts in order; a refused role change keeps an accepted active change |
| Routes.Backend.DeleteUser | apps/api/src/routes/users.ts:197-227 | tables and index separately: the index is emptied as soon as the early checks pass, whatever is then decided |
| Routes.Backend.Approve | apps/api/src/routes/users.ts:236-243 | approval of a join request, which drops an expired one on the way to its refusal |
| Setup.SingleFlight | apps/api/src/routes/setup.ts:238-389 | over every interleaving with failures at any await, at most one request is in the critical section and the flag is up exactly then |
| Setup.AtMostOneAdministrator | apps/api/src/routes/setup.ts:259-329 | accounts marked, accounts inserted, configs written: each at most the next, configs at most one more than misreads; inserters and markers wrote the config |
| Setup.OneSetup | apps/api/src/routes/setup.ts:259-329 | with an honest file check: one config and one administrator at most, by the same request |
| Setup.MisreadMakesTwo | packages/core/src/config/local-config.ts:14-21 | one misread of the existing file and two initial administrators exist |
| Setup.EveryMisreadMayAddOne | packages/core/src/config/local-config.ts:14-21 | for every n some run has n misreads and n + 1 marked administrators, inserted accounts and written configs |
| Setup.SavedSetupIsShut | apps/api/src/routes/setup.ts:259-273 | once the file is there and its writer is gone no honest run writes, inserts or marks again |
| Setup.TokenDies | apps/api/src/routes/setup.ts:377-379 | after success the presented token is refused in every continuation that does not draw it again |
| Setup.BeginAnswers | apps/api/src/routes/setup.ts:58-67 | a completion request is answered 403, 401, 409 or 400, in this order, and changes nothing then; a missing token is answered 401 like a wrong one; otherwise it enters |
| Setup.OnlyTheTokenSetsUp | apps/api/src/routes/setup.ts:238-258 | over every run whoever writes the config, inserts or marks an administrator began with exactly the token in force at that moment |
| Setup.StretchWrites | apps/api/src/routes/setup.ts:273-388 | what each later stretch writes and where it leads: a write that took effect stays even if it failed afterwards |
| Setup.CheckDecides | apps/api/src/routes/setup.ts:259-272 | a file read as there ends the request with 409, else it goes on to saving |
| Setup.SetupRoutes.BeginRequest | apps/api/src/routes/setup.ts:238-258 | the stretch up to the first await is the specified step |
| Setup.SetupRoutes.ResumeChecked | apps/api/src/routes/setup.ts:259-272 | so is the stretch after the file check |
| Setup.SetupRoutes.ResumeSaved | apps/api/src/routes/setup.ts:273-285 | so is the stretch after saving, which may fail with the file written |
| Setup.SetupRoutes.ResumeConnected | apps/api/src/routes/setup.ts:286-322 | so is the stretch after connecting |
| Setup.SetupRoutes.ResumeCreated | apps/api/src/routes/setup.ts:323-328 | so is the stretch after inserting the account |
| Setup.SetupRoutes.ResumeMarked | apps/api/src/routes/setup.ts:329 | so is the stretch after marking, which may fail with the account marked |
| Setup.SetupRoutes.ResumeFinished | apps/api/src/routes/setup.ts:377-388 | so are the rotation and the `finally` block |
| Drift.RunKeepsExclusive | apps/api/src/routes/drift.ts:75-85 | over every history of calls and endings the flag is up exactly while one pass runs |
| Drift.NullIffAnotherRuns | apps/api/src/routes/drift.ts:77-79 | after any history a call gets null exactly when another pass is running, and otherwise starts one |
| Drift.NextCallerStarts | apps/api/src/routes/drift.ts:80-84 | however a pass ends, the next caller starts one |
| Drift.HistoryMatches | apps/api/src/routes/drift.ts:75-85 | the running passes are those a reading of the history without any flag calls open |
| Drift.DriftRoutes.RunDriftPassExclusive | apps/api/src/routes/drift.ts:77-81 | null is returned exactly when another pass runs, and the flag stays exact |
| Drift.DriftRoutes.Settle | apps/api/src/routes/drift.ts:82-84 | after the pass ends or throws nothing runs and the flag is down |
| Counters.WindowsHold | apps/api/src/routes/auth.ts:61-62 | at every point of every timed history the counter is its last window, and each window opens only after the EXPIRE of the one before has run out |
| Counters.AnswerIsPlace | apps/api/src/routes/auth.ts:61 | INCR answers the attempt's place in its window |
| Counters.WindowsSpaced | apps/api/src/routes/auth.ts:61-62 | the opener of window j follows that of window i by at least j - i times the lifetime plus a millisecond, and any member of window i by more than j - i - 1 times that |
| Throttle.PassedIsTotal | apps/api/src/routes/auth.ts:59-65 | the attempts let through in an interval are the first ten of each window that fall into it |
| Throttle.ThrottleBound | apps/api/src/routes/auth.ts:59-68 | in every closed interval of L milliseconds, for one key and whenever the EXPIREs land, at most ten attempts per whole 60001 in L, plus ten, plus nine unless 60001 divides L, get through |
| Throttle.BoundIsMet | apps/api/src/routes/auth.ts:59-68 | for every length there is a run in time order that gets exactly that many through |
| Throttle.NineteenInAMillisecond | apps/api/src/routes/auth.ts:54-58 | nineteen attempts can get through within a millisecond |
| Throttle.LostExpireRefusesForever | apps/api/src/routes/auth.ts:62 | a full counter whose EXPIRE was lost refuses every attempt in every continuation without one |
| Throttle.LowerFolds | apps/api/src/routes/auth.ts:59-60 | two usernames share a counter exactly when they differ in the case of ASCII letters only |
| Throttle.Gate.Attempt | apps/api/src/routes/auth.ts:59-68 | one attempt sends INCR and, when told 1, EXPIRE; it is refused exactly when told more than ten, and a command that fails, before or after taking effect, lets it through |
| Throttle.Gate.ChangePassword | apps/api/src/routes/auth.ts:314-323 | the same per account for password changes |
| Scan.WinsAreSpaced | apps/api/src/app.ts:317-318 | two winning claims for one address are more than an hour apart |
| Scan.CooldownIsAnHour | apps/api/src/app.ts:298-318 | a winning claim closes the next 3600000 ms and no more |
| Scan.WindowIsTenMinutes | apps/api/src/app.ts:314-315 | with its EXPIRE landed at once a window takes in the next 600000 ms and no more |
| Scan.RowsBounded | apps/api/src/app.ts:313-330 | an address causes at most one row per hour passed (3600001 ms), plus one, in any interval, whatever audit writes fail |
| Scan.ClaimLeavesMarker | apps/api/src/app.ts:316-318 | after every response that reached the threshold the cooldown marker is there |
| Scan.RowIsJustified | apps/api/src/app.ts:314-317 | a row's response was counted in a window with at least `threshold` responses, within ten minutes and the delay of the window's EXPIRE |
| Scan.LostExpireNeverForgets | apps/api/src/app.ts:315 | without its EXPIRE two responses any time apart count together |
| Scan.Detector.OnResponse | apps/api/src/app.ts:307-333 | whichever of INCR, EXPIRE, SET and the audit write fails, before or after taking effect, one response sends exactly these commands and writes a row exactly when it wins the marker and hears of it |
| Memo.RememberedWasResolved | apps/api/src/plugins/auth.ts:110-119 | what the memo holds as granted was resolved as granted by an earlier check of the request |
| Memo.AllowsAreJustified | apps/api/src/plugins/auth.ts:94-155 | every allow is backed by a role or by a resolution at this check or earlier in the request |
| Memo.DeniesAreFresh | apps/api/src/plugins/auth.ts:112-139 | every deny of a non-empty list is backed by a resolution at that very check |
| Memo.FixedDatabaseSameDecision | apps/api/src/plugins/auth.ts:82-157 | with an unchanged database the memo changes no decision |
| Memo.MemoOverTables | apps/api/src/plugins/auth.ts:94-155 | with the tables changing under a request, what is allowed was held when the session was loaded or at a check so far, and what is denied is not held now |
| Memo.MemoDecidesHolds | packages/core/src/services/iam.ts:76-185 | over unchanged tables a check passes if and only if one of the wanted permissions has a live source |
| Memo.Request.RequirePermission | apps/api/src/plugins/auth.ts:84-156 | the check's answer is the specified decision and the memo stays the one of the history |
| Visibility.AccessIsAPath | packages/core/src/services/vms.ts:302-321 | the access query finds a row exactly when some live path to the VM exists |
| Visibility.VisibleMeans | packages/core/src/services/vms.ts:532-542 | a private VM shows to its owner and along live paths only; any other to administrators, operators and along live paths |
| Visibility.DriftBoard | apps/api/src/routes/drift.ts:155-190 | the memoised loop shows, in order, exactly the findings the mutation gate accepts: of a visible VM, or of none for administrators and operators |
| Visibility.WithoutPrivateEntries | apps/api/src/routes/audit.ts:36-60 | the loop with its flag cache returns, in order, exactly the entries without a VM, of a VM that is there and not private, owned by the reader, or reached by a live path |
| Visibility.ListAndExportAgree | apps/api/src/routes/audit.ts:68-101 | list and export agree on every entry both fetch |
| Visibility.DeletedVmNeedsAGrant | apps/api/src/routes/audit.ts:50-56 | history of a deleted VM shows exactly to those with a live path to it |
| Visibility.ListJobs | apps/api/src/routes/jobs.ts:64-84 | the unpaged query and the privacy loop together keep, in order, exactly the jobs of the asked status whose reader created them or is privileged, private VMs by ownership or a live path only |
| Visibility.ListMatchesGate | apps/api/src/routes/jobs.ts:38-84 | a job is listed exactly when the gate accepts it |
| Filtering.KeptPositions | apps/api/src/routes/audit.ts:40-59 | the filter reads off exactly the admissible positions in increasing order |
| Retry.RetryEnds | apps/api/src/routes/jobs.ts:111-134 | a finished retry leaves the row PENDING with its attempt linked and known to the queue; a broken one leaves it PENDING exactly when the reset took effect and no compensation did, and else terminal |
| Retry.CancelEnds | apps/api/src/routes/jobs.ts:145-157 | an accepted cancel leaves the row CANCELLED and, if the removal goes through, the linked entry out of the queue unless a worker holds it; every other entry as it was |
| Retry.StatusIsEarned | packages/core/src/services/jobs.ts:98-180 | over every run a status that was not there at the start was brought by an event of its own kind |
| Retry.ReadyIsEarned | packages/core/src/provisioning/pipeline.ts:301 | a job that comes to read READY was finished by an attempt a worker was running |
| Retry.RetryStrands | apps/api/src/routes/jobs.ts:111-134 | a retry, whatever breaks, leaves the job to nobody if and only if the row reads PENDING, nothing was alive and no fresh id was enqueued |
| Retry.CleanRetryStrands | packages/core/src/services/queue.ts:52-64 | a clean retry leaves the job to nobody if and only if its id is still known from before and nothing else is alive |
| Retry.RescheduleStrands | packages/core/src/provisioning/reschedule.ts:53-59 | a reschedule below the limit does if and only if the next id is still known and no other entry is alive |
| Retry.StepSound | packages/core/src/provisioning/reschedule.ts:28-34 | from a state where every unfinished job has a live entry, any step - an attempt that throws and a compensation that fails included - leads to such a state if and only if it is guarded |
| Retry.RetryNeverStrands | packages/core/src/provisioning/reschedule.ts:28-34 | over every run of retries, cancels, rollbacks, worker steps, exceptions, reschedules and evictions, with any faults, every unfinished job has a live entry at every point if and only if every step is guarded |
| Retry.NewJobNeverStrands | apps/api/src/routes/jobs.ts:103-157 | a new job that is never rescheduled is never left to nobody, as long as no attempt throws and every failure is compensated |
| Retry.UnretriedNeverStrands | packages/core/src/provisioning/reschedule.ts:53-59 | under the same proviso neither is one that is never retried, however often it is rescheduled |
| Retry.ThrowStrands | packages/core/src/provisioning/pipeline.ts:105-173 | an attempt that throws before its guarded part leaves a new job PENDING with nobody to run it |
| Retry.HalfResetStrands | packages/core/src/services/jobs.ts:124-134 | a reset that breaks off after the row leaves any finished job so, with nothing alive |
| Retry.RescheduledRetryStrands | packages/core/src/provisioning/reschedule.ts:53-59 | one reschedule, one failure and one accepted retry leave the job PENDING with nobody to run it |
| Retry.RescheduleAfterRetryStrands | packages/core/src/provisioning/reschedule.ts:53-59 | two reschedules, a failure, an eviction and a guarded retry: the next reschedule leaves the job waiting for its guest with nobody to run it |
| Retry.StrandedStays | apps/api/src/routes/jobs.ts:108-110 | a stranded job of any unfinished status keeps it, and stays stranded, in every run without a cancel or a rollback |
| Retry.JobRoutes.RetryRequest | apps/api/src/routes/jobs.ts:103-143 | reset, count, enqueue and the compensation are the specified step |
| Retry.JobRoutes.CancelRequest | apps/api/src/routes/jobs.ts:145-157 | cancel and the removal of the linked entry are the specified step |
| Alerts.AlertsAreEdges | apps/api/src/app.ts:579-600 | a check is alerted exactly for a change between adjacent passes that both have it: DOWN to ERROR, recovery otherwise, nothing first |
| Alerts.EdgesInOrder | apps/api/src/app.ts:580-600 | one alert for every changed check, in the order of the pass, and none besides |
| Alerts.AlertsAlternate | apps/api/src/app.ts:583-598 | for a check that is always there and only ONLINE or ERROR, DOWN and recovery strictly alternate and the last one tells its state |
| Alerts.KindsAreAlerts | apps/api/src/app.ts:580-598 | the alternating sequence is the one the passes alert |
| Alerts.ReliableRunSendsEdges | apps/api/src/app.ts:564-579 | with a store that never fails the ticker sends exactly those alerts |
| Alerts.LostWriteRepeats | apps/api/src/app.ts:574-578 | after a lost write an unchanged pass sends the same alerts again |
| Alerts.SendsEdgesIff | apps/api/src/app.ts:562-600 | whatever the store does, a pass sends exactly the edges of adjacent passes if and only if each of its checks is news against the snapshot it reads exactly when it is news against the pass before |
| Alerts.RunSendsEdgesIff | apps/api/src/app.ts:562-600 | and a whole run does if and only if every pass of it does |
| Alerts.InfraTicker.RunInfra | apps/api/src/app.ts:562-607 | the two loops over the results store and send exactly what the history prescribes |
| Firewall.RunConserves | apps/api/src/routes/firewall.ts:67-144 | over every run of rule requests, isolations and openings, whichever calls fail, the hand-made rules keep content and order |
| Firewall.FailsOpen | packages/core/src/services/firewall.ts:342-383 | a request to isolate leaves the guest unchanged, its policies open or the whole chain, whichever call fails, if and only if the policies were open before or there is at most one rule to delete or insert |
| Firewall.OpensFirst | packages/core/src/services/firewall.ts:395-408 | opening leaves closed policies behind only if its very first write is lost |
| Firewall.Chain.ApplyIsolation | packages/core/src/services/firewall.ts:352-383 | the rebuild loops leave, for every failing call, exactly the specified partial chain and policies; a finished one has the new block in builder order above the hand-made rules |
| Firewall.Chain.RemoveIsolation | packages/core/src/services/firewall.ts:395-408 | the same for removal, which opens the policies first and, when finished, leaves exactly the hand-made rules |
| Firewall.Chain.DeleteStamped | packages/core/src/services/firewall.ts:353-360 | deleting collected positions from the bottom up removes exactly the stamped rules, and stopped early exactly the last of them |
| Firewall.ReapplyAndRemove | packages/core/src/services/firewall.ts:361-381 | applying again gives the same chain, and removing afterwards the hand-made rules |

## Left out

- Answers.EveryAnswer: with several objections at once it does not say which of them is answered, other than presence and permissions first; the order is that of the refusals in `Iam`.
- Each handler other than setup completion, drift passes, the throttles and scan detection is one atomic step; interleavings inside it are not modelled.
- One clock serves the database and the process; the code reads both.
- Reading endpoints, audit details, notifications and the settings, content, billing, domain and backup routes: they change none of the modelled state.
- Foreign services (Proxmox, Guacamole REST, SSH, hashing) appear only as steps that succeed or fail.
- Direct VM grants (`apps/api/src/routes/vms.ts`): the `vm_access` rows are in the tables and are read, pruned and cascaded, but the endpoints that write them are not modelled.
- Add by username in POST /groups/:id/members: the model takes the user id the lookup yields.
- Role and group descriptions, e-mail addresses and given names: no modelled decision reads them.
- Connection records and Guacamole accounts that do not exist yet: an index entry stands for what Guacamole will allow once they do.
- Decided join requests are not kept: a second approval reads as not found, where the code answers with a conflict.
- Iam.Allows: stands for the guard with a fresh memo; `Memo` says what an older memo may add within one request.
- Sessions: an actor is an account id, and revoking sessions on deactivation or password change is not modelled.
- The permission catalog is the compiled list; a code added to the permissions table alone is not part of this model.
- Setup.TokenDies: process restarts, which draw a new token and leave setup mode when the file exists, are not events of the model.
- Setup's awaits between saving and inserting, and after marking, are one step each: no modelled state changes in between.
- Rejecting a join request: it only removes a pending row.
- Processes that die (a worker holding a job, the API inside a request) and malformed payloads are not events of `Retry`; its queue relies on BullMQ ignoring an id it still knows.
- Throttle.Gate.Login: usernames are lowered as ASCII; the account schema admits no other letters.
- Redis eviction, flushes and command retries by the client are not modelled.
- The cluster firewall switch, the guest's own switch, the isolation flag in the database, rule validation and the contents of the built rules: `Firewall` takes the built block as given and follows the chain and the policies. No caller passes extra rules with a comment of their own.
- The page size of the job list: a page is a slice of the modelled rows.
