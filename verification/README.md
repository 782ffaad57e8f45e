# Verified model of the remote runtime

This project models the stateful cores of the remote runtime: the durable job ledger, the relay's router with its
bounded queues, the access rules and the leases renewed under them, the handoff receipts, the release installer, and
the byte-level cores that read files, frame output and scan JSON. For each core it proves what the core promises over
every input, every run, every crash and every ambiguous write. `dafny verify dfyconfig.toml` checks everything.

## How the model is built

A core that changes state is given twice. Functions map the whole state before a critical section to the whole state
after it; what the core promises is proved about these functions, over all histories. Classes update their fields in
place, as the source does; each of their methods is proved to do exactly what the function says, or its contract states
the whole result by itself (the renewal and the guard, the leases, the parsers). Loops over maps have no order in the
source; where the order shows, the function takes it as an argument and the method returns the one it happened to use.

What an operation answers, and exactly when it goes through, is stated besides from the state before it alone: rows,
counts, bytes and constants, without the functions that compute it. These lemmas are in the modules named after answers,
and in HubChanges.

| Files | Core |
|---|---|
| Prelude, Invocation | durable writes with three outcomes; execution scopes |
| JobLedger, JobOwner, JobHistory, JobAnswers | write-ahead job occupancy; owners and their process groups; all restarts; what is answered |
| Frames, Outbox, OutboxPipeline, OutboxLosses, Inbox, QueueAnswers | envelopes and byte sizes; bounded queues; what a peer sees of one exec, and exactly when it is missing |
| Admission, IdentityGate | counting leases; the reclaimable mutex per device number |
| Devices, Access, AccessHistory, AccessAnswers | bindings; access transactions; authority that only shrinks; who may do what |
| Delegation, Guard, LeaseAnswers | renewal under expiries; the guard loop against a clock |
| Hub, HubObject | the router's state and handlers, as functions and as an object |
| HubRouting, HubRecords, HubWire, HubLease | its invariants: maps and admission, records against the store, signals, renewals |
| HubSteps, HubCalls, HubIdentity, HubPublish, HubHistory | every handler keeps them; every history |
| HubRenewals, HubEndings, HubBudget, HubTruncation, HubHonesty, HubCallers, HubLosses | finality of renewals; who is told; the output budget; truncation honesty end to end |
| HubAnswers, HubChanges | what each handler does, for invocations and for changes of identity |
| Handoff, HandoffHistory, HandoffAnswers | durable receipts; restarts |
| Release, ReleaseHistory, ReleaseAnswers | install and rollback with a crash between any two steps |
| Utf8, Utf8Answers, FileWindow, TailScan, FileAnswers, Framing | UTF-8; windowed reads; last lines; lossless frames |
| JsonScan | the flat JSON scan against the tree |

## Environment

- A durable write ends in one of three ways: done, failed before it took effect, or failed after it. A crash may follow
  any of them. An absent file is an empty one.
- Clocks, process control, the network, random identifiers and the answers of other services are arguments. Random
  identifiers never repeat, and no device can name a route before it is told. Hashes and signatures are injective and
  cannot be forged.
- Time is one integer clock in nanoseconds; wake-ups may be late by a stated `slack`.
- A data directory has one handoff manager at a time: the daemon holds its runtime lock for as long
  (`internal/cli/runtime.go:63-72`).
- A router section that holds the lock is one step. Handlers with storage I/O are three steps (gate, transaction,
  publication), and everything else may happen in between.

## Model

| member | source | states |
|---|---|---|
| JobLedger.Ledger.SaveLocked | internal/job/ledger.go:139-150 | memory follows the disk only after a confirmed write; any failure is sticky, whether or not the disk changed |
| JobLedger.Ledger.InitializeLocked | internal/job/ledger.go:59-130 | a ledger opens the profile once, under the lock, and rewrites the recovered records before use |
| JobLedger.Ledger.ScanJobs | internal/job/ledger.go:181-193 | finds a duplicate of the same work, else counts the handoffs exactly |
| JobLedger.Ledger.ReserveJob | internal/job/ledger.go:174-209 | every refusal in order, and a record on disk before an owner exists |
| JobLedger.Ledger.PrepareLaunch | internal/job/start.go:18-39 | success only with the launch durably recorded |
| JobLedger.Ledger.FinishJob | internal/job/ledger.go:211-235 | a job leaves the disk, or stays as uncertain, and the caller learns which |
| JobLedger.Ledger.CloseLedger | internal/job/ledger.go:255-268 | closing gives the lock back once and ends every later use |
| JobOwner.JobOwner.Start | internal/job/owner.go:33-65 | one supervised child at a time; uncertainty is sticky; nothing is spawned without a durable record |
| JobOwner.JobOwner.FinishOwner | internal/job/owner.go:71-85 | finishing is idempotent and reports an unconfirmed child as uncertain |
| JobAnswers.ReserveAnswers | internal/job/ledger.go:174-209 | on a working ledger: which condition gives which fault, in order, and the one record a success leaves |
| JobAnswers.ReservesExactly | internal/job/ledger.go:174-209 | in every reachable state a reservation makes an owner exactly for a valid identity, work not on record, fewer than 4 records and 2 handoffs, and a confirmed write |
| JobAnswers.StartsExactly | internal/job/owner.go:33-65 | a start launches exactly when the owner may act, its earlier child is confirmed gone, and the launch is on record or put there now; a second start needs no write |
| JobAnswers.StartAnswers | internal/job/owner.go:33-65 | why a start does not launch, and what makes the owner uncertain |
| JobAnswers.BeginsExactly | internal/job/start.go:18-39 | the same for the interval between the record and the process, in every reachable state |
| JobAnswers.SpawnsExactly | internal/job/owner.go:55-65 | what each answer of the operating system makes of the owner and its groups |
| JobAnswers.EndsAndCrashes | internal/job/owner.go:40-50 | a group's end is known as it was confirmed; a crash takes owners and lock along and leaves the record |
| JobAnswers.FinishAnswers | internal/job/ledger.go:211-235 | a confirmed end removes that record alone or keeps it as uncertain, and the answer says which |
| JobAnswers.FinishesExactly | internal/job/owner.go:71-85 | in every reachable state the fate of the last child decides which |
| JobAnswers.OpensExactly | internal/job/ledger.go:59-130 | a new ledger opens exactly with directory, lock, readable file, at most 4 records, and a confirmed rewrite if there are any |
| JobAnswers.FinishedWorkReturns | internal/job/ledger.go:174-235 | finished work can be reserved again at once |
| JobAnswers.CloseFrees | internal/job/ledger.go:255-268 | a closed ledger is of no use, and the next one opens the profile |
| JobHistory.UnconfirmedGroupsAreOnRecord | internal/job/ledger.go:59-150 | over every history: each group whose cleanup is unconfirmed has an occupied or uncertain record, at most one per record, never more than 4 |
| JobHistory.RecoveryIsExact | internal/job/ledger.go:112-129 | reopening drops exactly the records that never reached a launch, keeps all others as uncertain, and nothing was launched for a dropped one |
| JobHistory.OffDiskNeverLaunches | internal/job/start.go:6-39 | a job off the disk never launches again, whatever ledger object or owner of it is left |
| JobHistory.StepKeepsInv | internal/job/ledger.go:174-268 | the invariant tying disk, memory, owners, lock and live groups survives every event |
| OutboxModel.ConnectionOutbox.EnqueueFrame | internal/relay/outbox.go:70-103 | admission, eviction and refusal of a frame, with the exact new queue and counters |
| OutboxModel.ConnectionOutbox.DiscardOutput | internal/relay/outbox.go:105-123 | one pass removes exactly one exec's queued output and its bytes |
| OutboxModel.ConnectionOutbox.TakeTurn | internal/relay/outbox.go:150-203 | the writer takes the head, accounts for it once, and stops on failure or closing |
| OutboxModel.AccountsAlwaysBalance | internal/relay/outbox.go:70-203 | in every history the byte totals are the sums over queued frames and the one being written, and all bounds hold |
| OutboxModel.ControlReserve | internal/protocol/limits.go:8-17 | a control frame is accepted while fewer than 32 are queued and control bytes with it are at most 128 KiB |
| OutboxModel.EvictionKeepsOthers | internal/relay/outbox.go:105-123 | eviction keeps every other frame in order and leaves no output of the evicted exec |
| QueueAnswers.OutputTakenExactly | internal/relay/outbox.go:70-82 | output is taken exactly by an open outbox within 1 MiB of its exec, 224 frames and all but 128 KiB of the bytes; otherwise it is dropped and nothing changes |
| QueueAnswers.ControlTakenExactly | internal/relay/outbox.go:83-103 | a control frame is taken exactly with room for it, a terminal also with the room its own exec's output gives up; any other open outbox ends |
| QueueAnswers.WriterTakesInOrder | internal/relay/outbox.go:150-203 | the writer takes the queue from the front, and a failed write stops it |
| QueueAnswers.ClosedStopsWhenEmpty | internal/relay/outbox.go:133-203 | a closed outbox stops once its queue is written, a cancelled one at once |
| OutboxPipeline.AlwaysVouched | internal/relay/outbox.go:70-123 | while nothing of an exec is sent after an accepted terminal, an exit in the pipeline without the mark follows exactly the frames accepted before it |
| OutboxLosses.UnmarkedLossExactly | internal/relay/outbox.go:84-97 | a send evicts queued output and leaves no mark exactly when the queue is full for its size, it is a terminal other than an exit, and output of its exec is queued |
| OutboxLosses.NothingLostExactly | internal/relay/outbox.go:70-123 | in every history, while the writer runs, an exec's pipeline is exactly what was accepted under it if and only if no send of it met the guard of the eviction |
| OutboxLosses.DishonestExactly | internal/relay/outbox.go:84-97 | while the writer runs, an unmarked exit stands in for missing output if and only if such an exit was accepted without meeting the guard and another send of the exec met it |
| OutboxLosses.WrittenVouchesExactly | internal/relay/outbox.go:84-203 | in every history, the writer stopped or not: a written frame and those before it are a first part of what was accepted under its exec if and only if no send met the guard or the frame was ahead of all output in the queue when the first one did |
| OutboxLosses.ExitIsCompleteExactly | internal/relay/outbox.go:84-203 | the writer stopped or not: a written unmarked exit that ends what was accepted under its exec has all of it before it if and only if no send met the guard |
| OutboxLosses.DuplicateInvokeLosesOutput | internal/relay/hub_invocation.go:45-49 | a history: the refusal of a duplicate invoke costs all 224 accepted outputs, and the unmarked exit is written |
| OutboxLosses.LateCancelLosesOutput | internal/relay/hub_invocation.go:116-123 | a history: the answer to a cancellation after the exit costs all 223 accepted outputs, and the unmarked exit is written |
| InboxModel.ConnectionInbox.OfferFrame | internal/relay/inbox.go:51-78 | a frame is queued, dropped as output, or overloads the reader, with the bytes given back on refusal |
| InboxModel.ControlReserve | internal/relay/inbox.go:51-78 | floods of output never refuse a control frame within the reserve |
| QueueAnswers.ReaderTakesExactly | internal/relay/inbox.go:51-78 | when the reader's queue takes a frame, drops it, or ends the reading |
| InboxModel.OutputNeverOverloads | internal/relay/inbox.go:58-65 | an output frame never ends the connection |
| AdmissionModel.Service.AcquireLease | internal/admission/service.go:41-52 | a lease is granted below the limit and counted |
| AdmissionModel.Lease.Release | internal/admission/service.go:56-69 | only the first release gives capacity back |
| AdmissionModel.AcquireThenGiveBack | internal/admission/service.go:41-69 | a granted lease, once given back, leaves the counters as they were |
| IdentityGate.IdentityGates.Register | internal/relay/identity_gate.go:20-31 | an arrival shares the device's entry or creates it with its token |
| IdentityGate.IdentityGates.Receive | internal/relay/identity_gate.go:32-36 | a waiting caller takes the token if it is there, and waits on otherwise |
| IdentityGate.IdentityGates.Decide | internal/relay/identity_gate.go:36-43 | a caller whose context ended meanwhile gives the token back instead of holding the gate |
| IdentityGate.IdentityGates.ReturnToken | internal/relay/identity_gate.go:37-43 | the token returns to the entry it came from, whatever became of the device's name |
| IdentityGate.IdentityGates.GiveUp | internal/relay/identity_gate.go:33-35 | who stops waiting takes no token along |
| IdentityGate.IdentityGates.Unregister | internal/relay/identity_gate.go:48-55 | the last user removes the entry |
| IdentityGate.GateIsAMutex | internal/relay/identity_gate.go:20-55 | under any interleaving one holder per device, one entry shared by all concerned, existing exactly while somebody is |
| IdentityGate.GateMovesOn | internal/relay/identity_gate.go:20-55 | in every reachable state a waiting caller gets the gate exactly when nobody of its device has it, a holder can pass it on, and who stops waiting is gone |
| Devices.BindingSurvives | internal/access/device.go:32-64 | a binding survives a settings change exactly when the sharing hash is the same or the device has an owner |
| Devices.OldGrantStaysDead | internal/access/device.go:48-64 | going back to an older sharing hash does not revive the older binding |
| Access.ParsePermissions | internal/access/authorization.go:37-56 | names are accepted exactly when all are known and there is one, and give their set |
| Access.Service.ManageDevice | internal/access/manage.go:13-66 | the store becomes what the request allows, only a confirmed commit is a success |
| Access.Service.ApplyAction | internal/access/manage.go:35-51 | claim, transfer, share and unshare in one transaction |
| Access.Service.ReplaceMemberShare | internal/access/manage.go:87-114 | a new share replaces the member's, drops expired ones and respects the limit of 128 |
| AccessAnswers.ManagesExactly | internal/access/manage.go:13-66 | a request is carried out exactly when it is well formed, from a genuine identity over the current device's connection, and the actor owns the device and what it asks for fits, or the device has no owner and it is a claim or a status |
| AccessAnswers.RefusedBecause | internal/access/manage.go:13-66 | the code of every refusal, in order |
| AccessAnswers.OnlyOwnersChange | internal/access/manage.go:26-34 | whatever a request changes was its owner's to change, or nobody's and claimed |
| AccessAnswers.ClaimLeaves | internal/access/manage.go:36-39 | a claim makes the actor's principal and tenant the owner, and nothing else |
| AccessAnswers.TransferLeaves | internal/access/manage.go:40-45 | a transfer makes the membership's principal and tenant the owner, and the old shares end |
| AccessAnswers.ShareLeaves | internal/access/manage.go:87-114 | a share adds exactly the named operations until the time asked for, and drops expired shares |
| AccessAnswers.ShareResolves | internal/access/service.go:33-58 | from then on that is what the member is told, until the share is over |
| AccessAnswers.UnshareLeaves | internal/access/manage.go:48-50 | unsharing removes the named share alone |
| AccessAnswers.AllowedExactly | internal/access/service.go:79-90 | an operation on an owned device is allowed exactly to its owner, and to a member whose unexpired share names it |
| AccessAnswers.ResolvedExactly | internal/access/service.go:33-58 | what owners, members and others are told, read off the rows |
| AccessAnswers.AuthenticatedExactly | internal/principal/service.go:18-62 | a credential authenticates exactly as its row, its membership and the time allow |
| AccessAnswers.RegistersExactly | internal/storage/sqlstore_identity.go:30-51 | a number is free or belongs to its secret; a new device has nothing else |
| AccessAnswers.UpdateLeaves | internal/storage/sqlstore_identity.go:53-82 | settings are taken over as requested, with a new grant exactly for a new sharing hash |
| AccessAnswers.DeleteLeaves | internal/storage/sqlstore_identity.go:84-90 | which device is deleted, and all that goes with it |
| AccessAnswers.IssuedAuthenticates | internal/account/service.go:73-113 | a credential is issued for an active membership alone and authenticates it until it expires |
| AccessAnswers.NewPrincipalAuthenticates | internal/account/service.go:30-68 | a new principal can sign in at once, in a tenant of its own unless one was named |
| AccessAnswers.DeviceEventsHappen | internal/storage/sqlstore_identity.go:30-90 | an event of a history on devices is its transaction, and a refusal changes nothing |
| AccessAnswers.AccountEventsHappen | internal/storage/sqlstore_account.go:16-68 | so is one on accounts |
| AccessHistory.DenialIsPermanent | internal/access/service.go:33-90 | an identity and an authorization the authority gave out, once refused an operation, are refused it for ever, whatever happens to devices, shares, memberships and credentials |
| AccessHistory.VerifyBackwards | internal/access/service.go:79-90 | whatever passes later passed before, for identities and authorizations already given out |
| AccessHistory.RunShrinks | internal/storage/sqlstore_access_mutation.go:9-43 | no transaction gives authority back to identifiers already drawn |
| AccessHistory.RevokeEndsOneCredential | internal/storage/sqlstore_account.go:59-62 | revocation ends that credential everywhere and nothing else |
| AccessHistory.ActivationEndsOneMembership | internal/storage/sqlstore_account.go:64-67 | disabling and enabling both end every identity of the membership issued before |
| AccessHistory.UnshareEndsOneShare | internal/storage/sqlstore_access_mutation.go:39-42 | removing a share ends exactly the authorizations from it |
| AccessHistory.ShareEndsItsPredecessor | internal/access/manage.go:87-114 | sharing again ends the member's earlier share even for the same permissions, and nothing unexpired besides |
| AccessHistory.ChangeOfHandsEndsOneDevice | internal/storage/sqlstore_access_mutation.go:9-16 | a new owner ends all authorizations on the device and none elsewhere |
| AccessHistory.DeletionEndsOneDevice | internal/storage/sqlstore_identity.go:84-90 | deleting a device ends its authorizations and no others |
| AccessHistory.SettingsEndNothing | internal/storage/sqlstore_identity.go:53-82 | settings do not touch what owners and members may do |
| AccessHistory.ReachableStoresAreOrderly | internal/access/manage.go:107-113 | in every reachable store at most 128 shares per device and no two devices with one ownership |
| Delegation.Renew | internal/delegation/authority.go:118-168 | a lease is granted exactly when the reads allow it and no expiry has passed, and is the longest that ends by 20 s and every expiry |
| Delegation.LeaseIsUnique | internal/delegation/authority.go:152-167 | these bounds determine the lease |
| Delegation.ProofRoundTrip | internal/delegation/authority.go:54-100 | a proof is accepted exactly by its authority for its device during eleven minutes, and yields what was signed |
| Delegation.RefusedRenewalStaysRefused | internal/delegation/authority.go:132-145 | for an owned device a refusal by the access rules is final for every later renewal |
| LeaseAnswers.LeaseEndsExactly | internal/delegation/authority.go:148-167 | a lease ends with the first of twenty seconds, the proof, the credential and the share, and no sooner |
| LeaseAnswers.EntitledExactly | internal/delegation/authority.go:118-147 | claims are renewed exactly while the device accepts invocations under the binding they name and the caller keeps its standing |
| LeaseAnswers.EntitledOrBarred | internal/delegation/authority.go:118-147 | claims are entitled or barred, or some read has failed |
| LeaseAnswers.CheckExactly | internal/delegation/authority.go:132-142 | what that standing is for owned devices, for other callers with an account, and for callers without |
| LeaseAnswers.SharedExecutionRenews | internal/delegation/authority.go:113-167 | what the store grants an owner or a member now, it renews now |
| Guard.RequestLease | internal/delegation/guard.go:22-47 | a reply counts only before its deadline, within 20 s, and from the moment of asking |
| Guard.Maintain | internal/delegation/guard.go:16-94 | the loop ends with the state its turns determine: alive with an expiry, or cancelled with time and cause |
| Guard.LeaseBound | internal/delegation/guard.go:16-93 | if every storage read after R is refused, the execution ends by R + 20 s and never outlives proof, credential or share |
| Guard.FailingTurnsEnd | internal/delegation/guard.go:53-92 | turns that bring no usable reply (silence, a late reply, a lease already over) end at the last confirmed expiry, with no grace |
| Guard.FailuresEndTheLoop | internal/delegation/guard.go:53-92 | and after at most 20 attempts |
| LeaseAnswers.ReplyAnswers | internal/delegation/guard.go:22-47 | which replies renew, until when, and which end the execution at once |
| LeaseAnswers.HealthyLoopLives | internal/delegation/guard.go:53-93 | a relay that grants nearly full leases within a second keeps the execution alive for ever, with 17 s in hand after every turn |
| LeaseAnswers.RefusalEndsTheLoop | internal/delegation/guard.go:53-93 | a refusal, or the end of the context, ends the execution in the turn that brings it |
| HubObject.Router.FinishInvocation | internal/relay/hub_invocation.go:17-23 | a route, its request and its lease go together |
| HubObject.Router.InvokeLocked | internal/relay/hub_invocation.go:25-114 | every refusal in the order of the source, a drawn ID already in flight included, and the dispatch |
| HubObject.Router.RefusalCode | internal/relay/hub_invocation.go:37-70 | the first reason that applies decides the code |
| HubObject.Router.DispatchLocked | internal/relay/hub_invocation.go:101-113 | route, request and lease are recorded before the invoke is queued; a closed device loses everything |
| HubObject.Router.HandleCancel | internal/relay/hub_invocation.go:116-129 | a cancellation marks the caller's own route and is passed to its device |
| HubObject.Router.ForwardToClient | internal/relay/hub_invocation.go:131-171 | a frame passes only from the route's device and within the byte budget |
| HubObject.Router.DeliverToClient | internal/relay/hub_invocation.go:157-170 | a refusal marks the route, a closed outbox loses the caller, a terminal ends the route |
| HubObject.Router.NoteDroppedOutput | internal/relay/inbox.go:80-88 | output dropped by the reader marks its route |
| HubObject.Router.FailDeviceLocked | internal/relay/hub_invocation.go:173-180 | in any order: every route of the device ends with an error |
| HubObject.Router.CancelClientLocked | internal/relay/hub_invocation.go:182-192 | in any order: every route of the caller is cancelled and ends |
| HubObject.Router.InvalidateOwnershipLocked | internal/relay/hub_access.go:103-121 | in any order: routes end with an unknown result and the device's callers are dropped |
| HubObject.Router.RevokeForegroundRoutesLocked | internal/relay/hub_authorization.go:101-107 | all foreground routes of a device are marked, nothing else |
| HubObject.Router.StopDeviceRoutingLocked | internal/relay/hub_authorization.go:109-119 | the connection's device goes offline without routes |
| HubObject.Router.RejectIdentity | internal/relay/hub_authorization.go:91-97 | routing stops before the refusal is sent |
| HubObject.Router.DropConnection | internal/relay/hub.go:125-138 | a dropped device fails its routes, a dropped caller cancels its own |
| HubObject.Router.LiveExecutionRouteLocked | internal/relay/hub_execution_lease.go:59-68 | decides exactly when a route may be renewed |
| HubObject.Router.BeginRenewal | internal/relay/hub_execution_lease.go:13-30 | only a live route is taken to the authority |
| HubObject.Router.CommitRenewal | internal/relay/hub_execution_lease.go:47-56 | what happened to the route meanwhile wins over the answer |
| HubObject.Router.ConfirmChange | internal/relay/hub_authorization.go:83-87 | an unconfirmed change stops routing |
| HubObject.Router.ApplySettings | internal/relay/hub_authorization.go:61-88 | record, binding, revocation, confirmation and readiness in this order |
| HubObject.Router.ApplyRevocation | internal/relay/hub_authorization.go:68-74 | a deleted device fails its routes and is forgotten |
| HubObject.Router.ApplyAccess | internal/relay/hub_access.go:82-98 | a change of hands invalidates before the new record is published, and only on the slot the change began with |
| HubObject.Router.RejectAccess | internal/relay/hub_access.go:61-81 | an unknown outcome of the transaction stops the old route before it is reported; accounts that cannot be read are only reported |
| HubObject.Router.PublishRegistration | internal/relay/hub_identity.go:41-66 | the greeting is queued before the slot is taken; the replaced connection loses its routes |
| HubObject.Router.PublishCaller | internal/relay/hub_identity.go:104-126 | a caller is registered with the binding it proved |
| HubAnswers.CancelReachesDevice | internal/relay/hub_invocation.go:116-129 | in every reachable state a cancellation of a request in flight is put to the connection of its invoke, marks that route and does nothing else; any other is answered as unknown |
| HubAnswers.InvokeRefused | internal/relay/hub_invocation.go:25-100 | in every reachable state: which condition gives which code, with the 16 routes per device counted on the routes themselves |
| HubAnswers.InvokeDispatched | internal/relay/hub_invocation.go:101-113 | otherwise the route is on record and the device is sent that very operation under its ID, or is lost with all its routes |
| HubAnswers.ForwardAnswers | internal/relay/hub_invocation.go:131-171 | a device's frame within the budget is counted and put to the caller, and what each answer of its outbox does to the route |
| HubAnswers.HandlesForwards | internal/relay/hub.go:83-123 | the handler takes the oldest frame and gives its bytes back |
| HubAnswers.ArrivalAnswers | internal/relay/inbox.go:51-88 | what the reader does with a frame: queued, dropped with a mark, or the end of the connection |
| HubAnswers.CallerLeaves | internal/relay/hub.go:125-138 | a caller that drops loses its registration and its routes, each cancelled at the connection of its invoke |
| HubAnswers.DeviceLeaves | internal/relay/hub.go:125-138 | a device that drops goes offline without routes, and each caller is sent the error |
| HubAnswers.LiveExactly | internal/relay/hub_execution_lease.go:59-68 | in terms of the route alone: which routes may be renewed, and by whom |
| HubAnswers.RenewalBegins | internal/relay/hub_execution_lease.go:13-30 | exactly those go to the authority |
| HubAnswers.RenewalIsGranted | internal/relay/hub_execution_lease.go:47-56 | and its answer becomes a lease exactly when they still may |
| HubAnswers.ConnectionAnswers | internal/relay/outbox.go:39-44 | a new connection has empty queues and stands for nobody yet |
| HubChanges.GatesAreTaken | internal/relay/hub_identity.go:12-20 | which connection gets a free gate, in which role, for which change |
| HubChanges.RegistrationIsTried | internal/relay/hub_identity.go:22-40 | a registration is tried in the store, and its holder learns the committed record or the code |
| HubChanges.SettingsAreTried | internal/relay/hub_authorization.go:40-60 | settings are tried on the record the change began with |
| HubChanges.RevocationIsTried | internal/relay/hub_authorization.go:49-60 | a deletion is tried for the very device of the connection |
| HubChanges.JoinIsTried | internal/relay/hub_identity.go:82-95 | a caller is let in by what the store and the authority say of it |
| HubChanges.AccessIsTried | internal/relay/hub_access.go:61-66 | an access request is tried for the identity that was vouched for |
| HubChanges.DeviceJoins | internal/relay/hub_identity.go:41-66 | in every reachable state a registration ends with the device in its slot and its predecessor's routes gone, or with the connection turned away |
| HubChanges.CallerJoins | internal/relay/hub_identity.go:104-126 | and an admission with the caller registered under the binding it proved, or turned away with the code |
| HubChanges.SettingsApply | internal/relay/hub_authorization.go:61-88 | published settings are the committed ones, mark exactly the foreground routes when inbound goes off, and make the device ready |
| HubChanges.DeletionApplies | internal/relay/hub_authorization.go:68-74 | a deleted device is forgotten, and each of its callers is sent the error |
| HubChanges.AccessApplies | internal/relay/hub_access.go:82-98 | a change of hands drops the device's callers and tells both ends of every route; other requests leave them alone |
| HubChanges.AccessFails | internal/relay/hub_access.go:66-81 | a failed request is reported, and stops routing first exactly when it may have taken effect |
| HubChanges.ChangeFails | internal/relay/hub_authorization.go:55-60 | settings or a deletion that failed stop routing before the error |
| HubChanges.GreetingFails | internal/relay/server.go:94-110 | a registration or admission that failed turns the connection away with its code |
| HubChanges.RejectionStops | internal/relay/hub_authorization.go:26-30 | a change that cannot get the gate stops routing too |
| HubHistory.RouterInvariant | internal/relay/hub_invocation.go:17-192 | in every reachable state requests and routes are inverse, callers and devices are held on the dispatched connection, admission counts equal routes and respect the limit |
| HubHistory.RecordsAreStored | internal/relay/hub_authorization.go:63-79 | a connected device's record and binding are the stored ones unless its own change is unpublished, whatever writes failed |
| HubHistory.OneTerminalPerRoute | internal/relay/hub_invocation.go:131-192 | everything for a route goes to its caller under its request ID, at most one terminal is queued, nothing after it |
| HubHistory.WhoSpeaksForARoute | internal/relay/hub_invocation.go:131-171 | in one step a route is silent, or speaks once through the very connection its invoke went out on, or ends with one error |
| HubHistory.StepSane | internal/relay/hub.go:83-138 | every event keeps all of the router's invariants |
| HubRenewals.NoLeaseAfterTheEnd | internal/relay/hub_execution_lease.go:13-68 | once a route may not be renewed it is never granted a lease again, nor is a renewal already under way |
| HubRenewals.LeaseGoesToTheDispatchedDevice | internal/relay/hub_execution_lease.go:59-68 | a lease is granted only over the connection of the invoke |
| HubRenewals.CancelEndsRenewal | internal/relay/hub_invocation.go:116-129 | cancelling ends renewals |
| HubRenewals.DeviceDropEndsRenewal | internal/relay/hub.go:128-134 | so does losing the device |
| HubRenewals.ClientDropEndsRenewal | internal/relay/hub.go:136-137 | or the caller |
| HubRenewals.SettingsEndRenewal | internal/relay/hub_authorization.go:75-80 | or settings that switch inbound off or replace the binding |
| HubRenewals.AccessEndsRenewal | internal/relay/hub_access.go:82-98 | or a change of hands |
| HubRenewals.ReplacementEndsRenewal | internal/relay/hub_identity.go:59-65 | or a new connection of the same device |
| HubEndings.LostCallerStopsItsWork | internal/relay/hub_invocation.go:182-192 | each route of a lost caller is cancelled at the connection it was dispatched on |
| HubEndings.LostDeviceTellsItsCallers | internal/relay/hub_invocation.go:173-180 | each caller of a lost device is sent an error for its request |
| HubEndings.ChangeOfHandsTellsBoth | internal/relay/hub_access.go:103-113 | both ends of each route of the device hear of a change of hands |
| HubBudget.OutputStaysWithinBudget | internal/relay/hub_invocation.go:141-157 | over every history the output put to a route's caller is at most 4 MiB, in frames of at most 64 KiB |
| HubCallers.TruncationHonesty | internal/relay/hub_invocation.go:131-171 | for a request ID used once and not cancelled after its exit, an exit written without the mark follows exactly the output the device sent, in order |
| HubLosses.TruncationHonestyExactly | internal/relay/hub_invocation.go:25-171 | for a request ID with one route, whatever else is sent under it: an unmarked exit written to the caller follows exactly the device's output, apart from error replies, if and only if no frame to that caller under that ID met the guard of the eviction |
| HubLosses.OnlyRepliesOutside | internal/relay/hub_invocation.go:25-129 | outside routes a caller is sent nothing under a request ID but error replies |
| HubHonesty.ExitVouches | internal/relay/outbox.go:70-123 | the same, stated on what was sent to the caller |
| HubHonesty.StepKeepsHonest | internal/relay/inbox.go:51-88 | an unmarked route's output is relayed or still waits, after every event |
| HubCallers.CarefulIsDiscreet | internal/relay/hub_invocation.go:25-129 | a dispatched invoke and a cancellation in flight are not answered outside the route |
| Handoff.Manager.constructor | internal/handoff/store.go:62-98 | the receipts are read one by one, unfinished ones rewritten; the first trouble makes the manager refuse everything |
| Handoff.Manager.SessionIsOwn | internal/handoff/scope.go:29-36 | no other scope has a receipt for the session |
| Handoff.Manager.SubmitRequest | internal/handoff/manager.go:63-124 | every refusal in order; a worker only after its receipt is durable |
| Handoff.Manager.UpdateReceipt | internal/handoff/manager.go:125-152 | a terminal receipt is not updated, a failed write is sticky |
| Handoff.Manager.SyncContext | internal/handoff/device_context.go:37-53 | a new device context ends tickets and workers it does not allow |
| HandoffAnswers.SubmitsExactly | internal/handoff/manager.go:63-124 | a worker is launched exactly under these conditions, and leaves this receipt on disk, in memory and in the answer |
| HandoffAnswers.SubmitAnswers | internal/handoff/manager.go:63-104 | otherwise why not, in order, and what changes |
| HandoffAnswers.LaunchesAreLogged | internal/handoff/manager.go:99-123 | in every reachable state a submission launches one worker, for its key and session, exactly when it is admitted |
| HandoffAnswers.LoweredExactly | internal/handoff/manager.go:72 | sessions are compared in lower case |
| HandoffAnswers.ReportAnswers | internal/handoff/manager.go:125-152 | a confirmed report on an unfinished receipt is what the file and the answer carry, field by field |
| HandoffAnswers.WorkersAreHeard | internal/handoff/manager.go:125-152 | in every reachable state a worker's report is what its caller is answered from then on |
| HandoffAnswers.SyncAnswers | internal/handoff/device_context.go:37-53 | the same context again changes nothing, and a new one stops exactly the workers it does not allow |
| HandoffAnswers.RestartAnswers | internal/handoff/store.go:82-96 | a restart gives unfinished receipts an unknown result and changes nothing else |
| Invocation.OneContextPerScope | internal/invocation/device_context.go:20-24 | a valid scope is allowed under exactly one device context |
| HandoffHistory.AtMostOneLaunch | internal/handoff/manager.go:84-123 | over all restarts and ambiguous writes a request launches at most one worker |
| HandoffHistory.SessionsStayInOneScope | internal/handoff/scope.go:27-36 | a session that ever had a worker stays with its scope |
| HandoffHistory.TerminalReceiptsStay | internal/handoff/manager.go:135-137 | a terminal receipt on disk never changes |
| HandoffHistory.AnswersAreStable | internal/handoff/manager.go:45-62 | answers keep fingerprint and session, terminal answers keep everything, and only allowed scopes are answered |
| HandoffHistory.ResubmissionLaunchesNothing | internal/handoff/manager.go:84-89 | a launched request ID is never launched again and is answered only for its own content |
| HandoffHistory.RestartRestores | internal/handoff/store.go:76-97 | with working storage a restart accepts every directory a history leaves and settles unfinished receipts |
| HandoffHistory.OldTicketsAreRefused | internal/handoff/device_context.go:20-31 | a ticket from before a device change is refused even if the device returns to what it was |
| HandoffHistory.RunningWorkersAreAllowed | internal/handoff/device_context.go:44-48 | a worker not told to stop has a scope the device allows |
| Release.Machine.InstallBuild | internal/release/activate.go:17-40 | an interrupted installation blocks, else the candidate is checked before anything changes |
| Release.Machine.ReplaceRunning | internal/release/activate.go:41-64 | what runs is preserved and recorded before the activation |
| Release.Machine.ActivateBuild | internal/release/activate.go:100-112 | mark, stop, and on a failed stop the original state |
| Release.Machine.LaunchBuild | internal/release/activate.go:113-127 | start, record, and compensate when the record fails |
| Release.Machine.RestoreState | internal/release/activate.go:128-141 | the original build is verified and started before its state is saved |
| Release.Machine.RollBack | internal/release/activate.go:65-99 | an interrupted install goes back to the current build, else to the previous one |
| Release.Machine.AbandonInstall | internal/release/activate.go:79-91 | an interrupted first install is stopped unless another runtime is active |
| ReleaseAnswers.InstallWorks | internal/release/activate.go:17-64 | with everything working: which installs are refused, and what a done one records and runs |
| ReleaseAnswers.FailedStopIsCancelled | internal/release/activate.go:106-112 | a runtime that cannot be stopped keeps running, unmarked |
| ReleaseAnswers.FailedStartIsRestored | internal/release/activate.go:113-115 | a build that does not start is replaced by the one before it |
| ReleaseAnswers.FailedRecordIsRestored | internal/release/activate.go:116-126 | so is one that could not be recorded |
| ReleaseAnswers.RollbackLeaves | internal/release/activate.go:65-99 | a rollback swaps the two builds, or goes back to the current one and keeps the other |
| ReleaseHistory.CurrentWasSeenRunning | internal/release/activate.go:17-141 | whatever failed or crashed, the recorded builds were seen running with their digests |
| ReleaseHistory.InstallReports | internal/release/activate.go:17-141 | success, restoration and cancellation say exactly what is recorded and running; a mark left behind names the build to return to |
| ReleaseHistory.InterruptedBlocksInstall | internal/release/activate.go:27-29 | a marked state refuses an install without a change |
| ReleaseHistory.RollbackRecovers | internal/release/activate.go:65-99 | from every reachable state a working rollback ends unmarked with the recorded build running if and only if the stated condition holds beforehand |
| ReleaseHistory.InterruptedInstallIsUndone | internal/release/activate.go:76-78 | an install cut short with its mark is undone: the build that ran before it runs again |
| ReleaseHistory.AmbiguousSaveIsNotRecovered | internal/release/activate.go:92-94 | a history after which rollback does not recover: the last save took effect but was reported to fail |
| ReleaseHistory.ForeignBuildIsNotRecovered | internal/release/activate.go:84-86 | and another: a first install was interrupted and another build runs |
| FileWindow.SnapUTF8Start | internal/noderun/ops.go:131-142 | back to the start of the character that contains the offset |
| FileWindow.ClampUTF8Prefix | internal/noderun/ops.go:123-128 | the longest well-formed prefix |
| FileWindow.ClampIsLongest | internal/noderun/ops.go:123-128 | no longer prefix is well formed |
| FileWindow.SliceBytes | internal/noderun/ops.go:89-121 | the selection and the budget, with the truncation flag |
| FileWindow.ReadOffsetWindow | internal/noderun/ops.go:206-226 | the window read at an offset equals the read of the whole file |
| FileWindow.WindowEqualsWholeFile | internal/noderun/ops.go:193-226 | for every well-formed file, offset and limit: bytes and flag |
| FileWindow.ServedEqualsWholeFile | internal/noderun/ops.go:49-70 | also after the final budget |
| FileWindow.ServedIsAPieceOfTheFile | internal/noderun/ops.go:49-70 | what is served is a well-formed piece of the file from the character at the offset, marked exactly when cut |
| FileAnswers.ServesExactly | internal/noderun/ops.go:49-70 | for every well-formed file, offset in it and limit: the longest well-formed piece from the start of the character within the budget, marked exactly by its length |
| FileAnswers.CutExactly | internal/noderun/ops.go:113-128 | the budget leaves the longest well-formed beginning of any bytes, and says so exactly when some are missing |
| FileAnswers.HeadServes | internal/noderun/ops.go:89-96 | the first lines are the text up to the newline that ends the last of them |
| FileAnswers.TailServes | internal/noderun/ops.go:97-101 | the last lines are the text from the start of the first of them, without a newline at the end |
| FileAnswers.PlainServes | internal/noderun/ops.go:113-128 | without a selector the bytes are served within the budget |
| Utf8Answers.ValidExactly | internal/noderun/ops.go:123-128 | a text counts as well formed exactly when it encodes Unicode scalar values (section 3 of RFC 3629) |
| TailScan.TailStart | internal/noderun/ops.go:333-362 | the block-wise scan equals the simple one for every size and count |
| TailScan.TailIsTheLastLines | internal/noderun/ops.go:333-362 | and finds exactly the last lines of the file, ignoring one trailing newline |
| Framing.NextUTF8Frame | internal/noderun/ops.go:395-414 | the longest well-formed frame within the budget, and the rest |
| Framing.FramingIsLossless | internal/noderun/ops.go:395-433 | well-formed text is cut without loss into well-formed, non-empty frames within the budget |
| Framing.LosslessExactlyForValidText | internal/noderun/ops.go:395-414 | the frames give back the data exactly when it is well formed |
| Framing.EscapedAtMostSixTimes | internal/protocol/limits.go:27 | JSON escaping grows text at most six times |
| Framing.SendStdoutFrames | internal/noderun/ops.go:416-433 | of well-formed text a first part goes out, in well-formed frames, whatever the exec ID; for every ID that fits the budget is never halved, and all frames go out in order unless the connection fails |
| Framing.SizeLimitExactly | internal/noderun/ops.go:383-393 | the limit can never be hit exactly for the exec IDs that leave room for a frame of pure escapes, among them every ID of up to 988,000 bytes |
| Framing.SendText | internal/noderun/ops.go:416-433 | the receiver reads back the text |
| JsonScan.ValidJSONValues | internal/execution/json.go:31-71 | the index loop decides what the scan means |
| JsonScan.ParseUnicodeEscape | internal/execution/json.go:73-79 | four hexadecimal digits or nothing |
| JsonScan.ScanAgreesWithTheTree | internal/execution/json.go:31-71 | for every JSON text the scan accepts exactly when no value is null and every \u escape is a scalar or a well-ordered surrogate pair |
| JsonScan.ScanValue | internal/execution/json.go:31-71 | the same for a value inside any text, nested arrays and objects included |

## Results about the code

- A rollback does not recover from every interrupted state. `ReleaseHistory.RollbackRecovers` gives the exact condition,
  and with it both families in which recovery fails: a first install interrupted while a foreign build runs, and a
  state without mark and without previous build whose recorded build does not run. The second arises when the last save
  took effect although it was reported to fail and its repair is cut short, and also when the recorded process simply
  dies. `ForeignBuildIsNotRecovered` and `AmbiguousSaveIsNotRecovered` are one history of each.
- `Enqueue` evicts queued output for any terminal with the same exec ID, but marks only an exit. The refusal of a
  duplicate invoke and the answer to a late cancel are such terminals: `OutboxLosses.DuplicateInvokeLosesOutput` and
  `OutboxLosses.LateCancelLosesOutput` are histories that end in an unmarked exit although all output before it was
  accepted and none is left. `OutboxLosses.UnmarkedLossExactly` says for one send when this happens,
  `OutboxLosses.DishonestExactly` and `OutboxLosses.WrittenVouchesExactly` for a whole history, and
  `HubLosses.TruncationHonestyExactly` across the router, for request IDs with one route. `HubCallers.TruncationHonesty`
  says what a caller can do about it: it holds for IDs used once and not cancelled after their exit (`Careful`, `OnlyUse`).

## Left out

- WebSocket, pipe and HTTP transport: connections are outboxes and readers whose network turns the environment chooses.
- SQL text, migrations and busy handling: a transaction is one update of the store; foreign keys are modelled only by
  their cascades.
- Operating-system process control, shells and adapters: a start works, fails, or is uncertain.
- The router without a store or without account services, and the traffic quota by address.
- The renewal of background handoff proofs by the router (`internal/relay/hub_delegation.go`): it changes no routing
  state; the authority's decision is in Delegation and the loop in Guard.
- The reader's queue holds a device's frames; requests of callers and changes of identity are events of their own and
  take no room in it.
- Messages carry kind, exec ID, operation, code, data, mark and total size; other fields count only with their length.
- Names, kinds and tokens of accounts, display of shares, and the order in which shares are listed.
- A worker's preflight, its output parsing and its prompt: it reports receipts, and may stop at any time.
- Request validation beside the request ID and the session is one flag; so is the path check of a workspace.
- Temporary files and renames: a replacement leaves the old or the new content.
- Staging, manifests and archive checks of a release: they pass or fail.
- Line windows read from the start of a file and the budget of their prefixes; the refusal of files with a zero byte.
- Framing.SendStdoutFrames: promises the whole text only for exec IDs that fit (`IdFits`), because for any other ID some
  valid frame is oversized (`Framing.SizeLimitExactly`), and a budget halved below four bytes can leave the next character
  no room, at which the source stops without an error.
