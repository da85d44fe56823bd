# Device farm control plane: a verified model

The control plane of the device farm is a set of small transactions over shared rows. A scheduler, an
expiry sweep, two sweeps over pending reservations, host heartbeats, a reconciler, administrators, host
command leases and an iOS session fence all work on the same reservations, devices and sessions, each in
its own transaction, in any order. This project models those transactions and proves what holds in every
state any interleaving of them can reach.

## How it is built

A transaction is a function from the store to an outcome: it commits a new store or rolls back with an
error and leaves no trace (`Rows.Outcome`). The functions (`ReserveTx`, `ActivateTx`, `CloseTx`, ...) are
the specification. Beside them stand classes whose methods do what the services and repositories do,
statement by statement on a mutable `Rows.Database`, asking the domain's state machines first and rolling
back where the code does; each is proved to compute exactly its function, error case by error case.

`Protocol` then makes every transaction one step of a state machine whose state is the store together with
the local state of the scheduler rounds and of the expiry sweeps. A search without a lock and the locked
re-check are two steps, so everything else can happen in between. No step is guarded by anything the code does
not check. `Safety` collects the invariants and states what they mean for whole runs from an empty farm.
`Allocation`, `Answers`, `Isolation` and `Control` say a second time, on the columns of the rows and without the
predicates the transactions are written with, exactly when each operation commits and what it leaves behind: who gets
which device, what a close owes the next user, which quarantines are lifted and on what grounds, who may use an iOS
device. They carry what matters of it to whole runs.
`Results` adds the command table: a command is queued in the step that moves its device, and the step that ends
it applies its result; every run of both is a run of the farm.

| module | what it holds |
|---|---|
| `Domain` | transition tables, the status machine with its event log, the device aggregate, health reasons |
| `Rows` | row types, selection predicates, the database object |
| `Scheduling`, `Reservations`, `Observation`, `Grants` | the transactions and the services that run them |
| `Completion`, `Agent` | results of host commands, the agent that produces them, and both together |
| `Configuration` | what one device is recorded to run and what runs, over whole runs of commands |
| `Protocol` | the farm as one state machine |
| `Coupling`, `Leases`, `Fence`, `Occupancy`, `Idempotency`, `Claims` | one invariant each, kept by every step |
| `Safety` | all of them together, and the theorems about reachable states |
| `Results` | the farm and the command table as one machine |
| `Allocation`, `Answers`, `Isolation`, `Control` | the same transactions said on the columns of the rows, beside their definitions |
| `Reaper` | the sweep loops, run without interference |
| `Commands` | host command leases and their fencing |
| `Capacity`, `PoolSelector`, `RuntimeProfile` | host admission, weighted rotation, profile parsing |
| `Witnesses`, `RecordWitnesses` | concrete inputs on which properties fail |

## What is not true of the code as it stands

These came out of the proofs. Each has the exact condition under which the property does hold, and an input on which
it fails.

- Reservations and devices stay in step through a run if and only if the run has no careless step
  (`Safety.CoupledExactlyWhileCareful`). A step is careless when it concerns a device that is quarantined while a
  reservation is open on it, and it
  - lifts the quarantine (`Coupling.UnquarantineKeepsExactlyWhen`, `Witnesses.UnquarantineBreaks`), or
  - restarts the device (`Coupling.QueueKeepsExactlyWhen`, `Witnesses.RestartBreaks`), or
  - completes a profile update that left the device healthy, or a delete that was queued from quarantine and went
    through (`Coupling.CompleteKeepsExactlyWhen`). The update is queued first; then the device comes back, is held by
    a reservation and is quarantined, and then the command completes (`Witnesses.LeasedIsReached`,
    `Witnesses.CompletionBreaks`). The delete cannot get there, because queueing it takes the device out of its pools
    (`Results.OnlyProfileUpdatesAreCareless`), unless somebody puts the device back into a pool.
- An abandoned claim is released if and only if its device is reserved, which while reservations and devices are in
  step is: not quarantined (`Claims.OrphanRecoveredExactlyWhen`, `Witnesses.OrphanIsRefused`). Since the sweep takes
  the oldest first, one such claim keeps every younger one waiting (`Reaper.Sweeper.DrainOrphans`,
  `Witnesses.OneOrphanBlocksAnother`).
- A reimage that was applied leaves the target in the device record if its completion finds the device where it
  expects it, and the old configuration if it does not. The record then agrees with the provider if and only if the
  one or the other is what runs by then (`Agent.AppliedAgreesExactlyWhen`); a device quarantined meanwhile keeps the
  old image in its record while the target runs (`RecordWitnesses.ReimageDiverges`).
- A profile update never compares the image in the record with the one that runs. A device that an update has brought
  back to `ready` has a record that agrees with the provider if and only if the recorded image is the one that ran
  when the update was queued, and the profile that runs by then is the recorded one
  (`Configuration.ProfileUpdateAgreesExactlyWhen`). Two commands are enough to make a device `ready` with the wrong
  image in its record: a reimage applied under quarantine, then a profile update
  (`RecordWitnesses.ProfileUpdateReadiesTheWrongImage`).
- An administrator's restart does not look for other commands, so it can run beside a reimage or a profile update: the
  device is quarantined meanwhile and restarted, and the agent runs both. Of the commands the code lets run beside
  them it is the only one that changes what runs (`Results.OnlyRestartsOverlap`), and it carries the profile recorded
  when it was queued, which is the old one (`Configuration.BesideTheCurrent`). It may come through, bring the previous
  container back, or break, at any point before or after the other command reports. Only what happens after the last
  call of the reimage or update itself counts. A record that a completed reimage has put to `ready` agrees with the
  provider, then and until another command changes the configuration, if and only if those later restarts have left
  the profile as it was; when none of them broke, that is: none came through, or the last that did carried the
  recorded profile, and so always after a restored reimage (`Configuration.ReimageAgreesExactlyWhen`; for updates
  `Configuration.ProfileUpdateAgreesExactlyWhen`). A restart that comes through leaves a `ready` device with a profile
  it does not run (`RecordWitnesses.RestartDuringReimageDiverges`, `RecordWitnesses.RestartDuringUpdateDiverges`), and
  one that breaks can leave a `ready` device that runs nothing (`RecordWitnesses.BrokenRestartReadiesNothing`).

## Model

| member | source | states |
|---|---|---|
| Domain.StateMachine.Transition | internal/domain/state_machine.go:123-157 | answers by the first failing check; moves exactly along the table; logs accepted and refused attempts and nothing else; the log always replays to the current status |
| Domain.StateMachine.RecordRejected | internal/domain/state_machine.go:159-171 | a refused attempt is logged with its reason and changes no status |
| Domain.DeviceAggregate.Transition | internal/domain/device.go:77-85 | a device enters `ready` only while healthy; otherwise the table decides; accepted and refused attempts are logged, the not-healthy refusal included |
| Domain.DeviceAggregate.UpdateHealth | internal/domain/device.go:87-116 | health moves along its own table, and exactly the attempts past the argument checks are logged, accepted or refused |
| Domain.TerminalIsFinal | internal/domain/state_machine.go:123-157 | whatever is attempted on a machine in a status without successors, nothing is ever accepted |
| Domain.QuarantineLeavesByProvisioning | internal/domain/device.go:32-47 | no history takes a quarantined device anywhere but `deleted` without passing `provisioning` |
| Rows.NextAllocatableExists | internal/repository/reservation.go:216-258 | if any pending reservation can be served, the ordered selection finds one |
| Scheduling.Scheduler.Select | internal/repository/reservation.go:216-258 | picks the oldest reservation some device can serve and the oldest device that can serve it; finds nothing only when there is nothing |
| Scheduling.Scheduler.Reserve | internal/scheduler/scheduler.go:62-124 | the first transaction computes the reserve function of the store, and returns nothing exactly when no pair could be reserved |
| Scheduling.Scheduler.ReserveForClaim | internal/repository/reservation.go:260-283 | both guarded updates happen or neither does |
| Scheduling.Scheduler.Activate | internal/scheduler/scheduler.go:151-197 | the second transaction re-checks claim, cap and device under its locks and computes the activation function, with its error |
| Scheduling.Scheduler.ActivateClaimed | internal/repository/reservation.go:1138-1197 | device busy, reservation active and session inserted together; a duplicate session undoes all three |
| Scheduling.Scheduler.Compensate | internal/repository/reservation.go:285-322 | the three guarded updates of a compensation computed as one function, undone together on any miss |
| Scheduling.Scheduler.RunOnce | internal/scheduler/scheduler.go:62-226 | an undisturbed round either allocates or gives device and sessions back exactly, leaving one mark on the reservation it tried |
| Scheduling.OnlySelection | internal/scheduler/scheduler.go:62-124 | at any state at most one pair of reservation and device can be reserved |
| Allocation.ReservesExactlyWhen | internal/repository/reservation.go:216-283 | the first transaction commits exactly for the oldest servable reservation and the oldest device that fits it (the named one if one is named, platform, capabilities, API level, ready, healthy, in an enabled pool of its platform, on an online host that is not draining) on a host with room; then the device is reserved for it and nothing else changes |
| Allocation.MatchingIsFitting | internal/repository/reservation.go:994-1036 | the statement that looks for a device accepts exactly the devices that fit the request column by column |
| Allocation.AllocatableIsWaiting | internal/repository/reservation.go:216-258 | the statement that looks for a reservation accepts exactly those that wait, outside their five seconds, for a device that exists |
| Allocation.WaitingIsNotPassedOver | internal/repository/reservation.go:216-258 | while one waits and some device fits it the selection does not come back empty |
| Allocation.RoomIsPolicy | internal/repository/reservation.go:950-987 | a host has room exactly while its pool is enabled and its active reservations, counted over the rows, stay below the cap |
| Allocation.ActivatesExactlyWhen | internal/repository/reservation.go:1138-1197 | the second transaction commits exactly for a claim that stands on a reserved device, on a host with room, under a new session; the lease, the session and the device afterwards |
| Allocation.StepAskedFor | internal/repository/reservation.go:260-283 | no step of the farm gives a reservation a device it did not ask for |
| Allocation.HoldsWhatItNamed | internal/repository/reservation.go:216-258 | in every reachable state a reservation that named a device and holds one holds the one it named, and one that asked for a platform holds a device of it |
| Reservations.ReservationService.Create | internal/reservation/service.go:201-296 | validation order, pool limits, the targeted device and the idempotent insert computed as one function |
| Reservations.ReservationService.FindOpenTargeted | internal/repository/reservation.go:1084-1105 | the newest open reservation a user made for one device, and none only if there is none |
| Reservations.ReservationService.CreatePending | internal/repository/reservation.go:163-188 | one client key creates one reservation, is answered with it again, and is refused for another request |
| Reservations.ReservationService.BeginOperation | internal/repository/reservation.go:525-552 | inserts the record of a keyed call, recognises a replay and refuses a key reused for something else |
| Reservations.ReservationService.Extend | internal/reservation/service.go:366-429 | computes the extension function; a failure after the record was inserted removes the record again |
| Reservations.ReservationService.ExtendLocked | internal/reservation/service.go:392-423 | under the row lock: which error applies, or the expiry moved by the asked seconds and capped at now plus the pool's window |
| Reservations.ReservationService.KeepAlive | internal/repository/reservation.go:1107-1136 | the targeted keep-alive as one guarded update, capped the same way |
| Reservations.ReservationService.Release | internal/reservation/service.go:431-541 | ownership, replay, cancelling, closing and the already-closed case computed as one function |
| Reservations.ReservationService.ReleaseLocked | internal/reservation/service.go:492-537 | cancels a waiting reservation, refuses one mid-claim, closes an active one, leaves a closed one alone |
| Reservations.ReservationService.CloseActiveLocked | internal/reservation/service.go:935-1022 | aggregates first, statements second; together they compute the close function |
| Reservations.ReservationService.CloseDevice | internal/reservation/service.go:977-1022 | the device half of a close: the aggregate's refusal or the statements' effect |
| Reservations.ReservationService.CheckRelease | internal/reservation/service.go:992-1009 | the lifecycle a release is after and the one the device aggregate has reached, or that it refuses |
| Reservations.ReservationService.CloseActive | internal/repository/reservation.go:751-814 | the guarded statements: session through closing to closed, device by the CASE, reservation terminal |
| Reservations.SqlFollowsAggregate | internal/repository/reservation.go:779-798 | the CASE writes exactly the lifecycle the aggregate reaches: quarantine kept, unhealthy never ready, recycling exactly when a fresh machine is owed and always with the rebuild mode |
| Answers.ClosesExactlyWhen | internal/reservation/service.go:935-1022 | a close commits exactly for an active reservation and session on a device in one of five lifecycles; the device is left recycling in the rebuild mode exactly when it was a healthy Android emulator, not quarantined, whose host's pool wants fresh machines, enabled or not; ready exactly when healthy, not quarantined and owed nothing; quarantined otherwise |
| Answers.ReapsExactlyWhen | internal/reservation/service.go:552-599 | a reap commits exactly for such a reservation past expiry and grace, and leaves the same behind |
| Answers.ReleaseAnswers | internal/reservation/service.go:431-541 | every answer of a release under a new key, in order: wrong lengths, unknown, stranger without force, claim in flight; a waiting one failed, an active one closed as released or force-released, a closed one recorded only |
| Answers.UsedReleaseKeyAnswers | internal/repository/reservation.go:525-552 | a used key answers the same release without effect and refuses any other |
| Answers.ExtensionAnswers | internal/reservation/service.go:366-429 | exactly when an extension commits; the expiry is the earlier of the asked one and the window from now |
| Answers.KeepAliveAnswers | internal/repository/reservation.go:1107-1136 | the same for the keep-alive of a user's own lease, counted from now |
| Answers.CreationAnswers | internal/reservation/service.go:201-296 | every answer of a creation without a named device: too short, unknown or disabled pool, wrong platform, too long; a reused key only for the same request |
| Answers.TargetedCreationAnswers | internal/reservation/service.go:248-289 | with a named device: refused unless it is in the enabled pool and in service; while a user holds it by name that user is answered without effect and others are refused |
| Answers.OrphanAnswers | internal/repository/reservation.go:471-501 | exactly when an abandoned claim is failed, and that its device goes back to ready only if healthy, else to quarantine |
| Answers.StaleAnswers | internal/reservation/service.go:613-664 | exactly when a reservation has waited too long, and what failing it writes |
| Answers.CompensationAnswers | internal/repository/reservation.go:285-322 | exactly when a compensation commits, and what it gives back |
| Reservations.ReservationService.FindNextExpired | internal/repository/reservation.go:384-401 | finds the lease that ran out first, and none only when there is none |
| Reservations.ReservationService.FindNextStalePending | internal/repository/reservation.go:409-430 | finds the longest waiting reservation past its timeout |
| Reservations.ReservationService.FindNextOrphanedClaim | internal/repository/reservation.go:437-458 | finds the oldest claim nobody finished |
| Reservations.ReservationService.Reap | internal/reservation/service.go:575-594 | the locked half of the expiry sweep re-checks to the exact instant before closing |
| Reservations.ReservationService.FailStale | internal/reservation/service.go:613-664 | the locked half of the stale-pending sweep |
| Reservations.ReservationService.FailOrphan | internal/repository/reservation.go:471-501 | fails an abandoned claim and restores its device, ready or quarantined by its health |
| Observation.RecoverLifecycle | internal/hostcommand/service.go:589-611 | a quarantined healthy device goes back through `provisioning` and `booting` to exactly what it is assigned to, without a refused transition |
| Observation.ApplyDiscovered | internal/hostcommand/service.go:613-637 | folds a discovered lifecycle into the recorded one, and fails exactly when the device would become ready unhealthy |
| Observation.HealthService.Fold | internal/hostcommand/service.go:436-463 | lifecycle and health after a heartbeat, through the aggregate |
| Observation.HealthService.Observe | internal/hostcommand/service.go:407-508 | the whole row a heartbeat leaves, or the refusal |
| Observation.HealthService.Heartbeat | internal/hostcommand/service.go:407-508 | one device of a heartbeat as one function of the store |
| Observation.HealthService.Missing | internal/hostcommand/service.go:310-385 | a simulator unseen for the grace, with no command under way, is quarantined; this never fails |
| Observation.HealthService.Assess | internal/reconcile/service.go:136-157 | recovery to the assignment and isolation at the threshold, in that order, through the aggregate |
| Observation.HealthService.Report | internal/reconcile/service.go:109-181 | a health report as one function of the store |
| Observation.HealthService.Drift | internal/iossession/reconcile.go:74-146 | isolation of a simulator whose sessions drifted; nothing twice |
| Observation.ManagementService.TransitionDevice | internal/management/service.go:1108-1131 | the administrator's quarantine and its lifting, which also forgets the failures, as functions of the store |
| Observation.ManagementService.Prepare | internal/management/service.go:681-1090 | the operation state each kind of command is queued with, from every lifecycle that may queue it |
| Observation.ManagementService.Queue | internal/management/postgres/store.go:598-724 | the device moves in the transaction that queues the command, past the checks for other commands and open reservations where there are any; a delete takes the device out of its pools |
| Isolation.GroundsAreReasons | internal/domain/health_reason.go:8-20 | which reason texts, written out and trimmed, count as STF's and as the infrastructure's |
| Isolation.HeartbeatLiftsExactlyWhen | internal/hostcommand/service.go:436-463 | a heartbeat leaves a quarantined device as it is exactly unless the reason is the absent host, the unhealthy sight or the missing simulator, the device is seen healthy and no command is in flight; then it returns to its assignment, healthy, without reason and failures |
| Isolation.HeartbeatFollows | internal/hostcommand/service.go:407-508 | what a heartbeat leaves of any other device, column by column |
| Isolation.ReportAnswers | internal/reconcile/service.go:109-181 | exactly when a report commits, isolates, and lifts a quarantine, STF's grounds included; the health, reason and failures it leaves |
| Isolation.OutcomeAnswers | internal/reconcile/service.go:683-704 | health and failures by severity: none after a recovery, as many after other information, one more otherwise unless the count is suppressed |
| Isolation.MissingAnswers | internal/hostcommand/service.go:310-385 | exactly which simulators the complete inventory does not list are isolated, and with what |
| Isolation.QueueAnswers | internal/management/postgres/store.go:598-724 | exactly when a command is queued on a device, by kind, lifecycle, other commands and holders, and where it takes the device |
| Isolation.IsolationAnswers | internal/management/service.go:1108-1131 | exactly when drift and an administrator isolate a device, or an administrator lifts that, and what it leaves |
| Isolation.StepLeavesIsolated | internal/hostcommand/service.go:436-463 | no step but an intervention (an administrator's, a queued or finished command, a report that recovers or isolates anew) takes a device isolated on other grounds out of quarantine or changes its reason |
| Isolation.IsolationLasts | internal/domain/health_reason.go:13-20 | a device isolated on any other grounds stays so under every run without such an intervention, whatever heartbeats, drift, schedulers and sweeps do |
| Grants.GrantService.Issue | internal/iossession/service.go:134-231 | a grant replaces the one before, never outlives the lease, and is refused with the code's error otherwise |
| Grants.GrantService.FindByGrant | internal/iossession/service.go:444-472 | the session that stores a grant, or none |
| Grants.GrantService.Consume | internal/iossession/service.go:233-294 | a grant is consumed once, on its host, in time, while the device is available |
| Grants.GrantService.Bind | internal/iossession/service.go:296-331 | binds only a consumed grant and only the first Appium session; repeating the same bind changes nothing |
| Grants.GrantService.Authorize | internal/iossession/service.go:333-354 | lets a command through exactly when some session authorizes it |
| Grants.GrantService.Close | internal/iossession/service.go:356-384 | ends the bound Appium session once |
| Grants.GrantService.Cleanup | internal/iossession/cleanup.go:64-81 | records the end of the deleted session unless somebody has |
| Control.AuthorizesExactlyWhen | internal/iossession/service.go:333-354 | a command passes exactly under the consumed grant of the bound, live Appium session, on its host, while the lease is active and unexpired and the device is iOS, busy, healthy, routed and on an online host |
| Control.IssuesExactlyWhen | internal/iossession/service.go:134-231 | exactly when a grant is issued, with the same demands on device and lease; it ends at the earlier of fifteen to 120 seconds and the lease |
| Control.ConsumesExactlyWhen | internal/iossession/service.go:233-294 | exactly when a grant is consumed |
| Control.BindsExactlyWhen | internal/iossession/service.go:296-331 | exactly when an Appium session is bound, and that repeating it changes nothing |
| Control.EndsExactlyWhen | internal/iossession/service.go:356-384 | exactly when an Appium session is ended |
| Control.StepGainsNothing | internal/iossession/service.go:474-482 | while a device is not busy and healthy no step issues, consumes or newly binds anything on its sessions |
| Control.NothingWhileOutOfUse | internal/iossession/service.go:474-482 | once a device is isolated, and until a later state has it busy and healthy again, no run issues, consumes or binds anything on its sessions and nothing is authorized |
| Completion.QueuedCommandsComplete | internal/hostcommand/service.go:819-955 | for every command the code can queue no handler makes a refused transition, and no reserved, busy, recycling or deleted device changes |
| Completion.RefusedExactlyWhen | internal/hostcommand/service.go:819-1326 | for any operation state at all, exactly when a handler aborts |
| Completion.ReadiesExactlyWhen | internal/hostcommand/service.go:841-1179 | exactly when a finished command makes its device ready, light by light of the result, by kind, status and lifecycle, and when it counts as healthy at once |
| Completion.EndsExactlyWhen | internal/hostcommand/service.go:1181-1256 | exactly when one records its device deleted or stopped |
| Completion.RecordFollows | internal/hostcommand/service.go:1008-1164 | the other columns after a completion that finds its device: reason and failures by outcome, the target recorded exactly when it succeeded and the device came back, nothing pending any more |
| Completion.TakeOut | internal/hostcommand/service.go:924-937 | the failure path of every handler through the aggregate |
| Completion.BringUp | internal/hostcommand/service.go:890-914 | the success path of every handler through the aggregate, from each lifecycle it accepts |
| Completion.Judged | internal/hostcommand/service.go:819-872 | the compare-and-set on the operation state, then the handler |
| Completion.Handle | internal/hostcommand/service.go:957-1326 | every handler reaches exactly the effect its specification names |
| Completion.DeviceRow.Reconcile | internal/hostcommand/service.go:819-955 | all columns a completion writes, or an abort that leaves the row alone |
| Completion.DeviceRow.SettleReimage | internal/hostcommand/service.go:1115-1164 | applied takes the target, restored and failed keep the old image; pending columns are cleared in all three |
| Completion.DeviceRow.SettleProfile | internal/hostcommand/service.go:1008-1053 | the same for the runtime profile |
| Agent.Provider.RestartWithProfile | internal/providers/docker/provider.go:278-333 | replaces the container but never the image, and may bring the previous container back itself |
| Agent.Provider.Others | internal/agent/agent.go:155-169 | restarts of other commands between two calls of this one change the profile that runs, or stop the device, and never the image |
| Agent.IntactRestartsKeepExactlyWhen | internal/providers/docker/provider.go:278-333 | restarts of which none broke leave a profile exactly when none came through or the last that did carried it |
| Agent.Agent.WaitReady | internal/agent/agent.go:756-782 | polls until a healthy sight, which must connect, or the deadline; a snapshot comes back exactly when no call of it failed |
| Agent.Agent.Recreate | internal/agent/agent.go:720-754 | verifies, deletes, creates, starts and waits, in that order, and cleans up after a failed start or wait; a snapshot comes back exactly when every call succeeds, and then the last call has made the requested configuration |
| Agent.Agent.Replace | internal/agent/agent.go:729-753 | delete, create and start, each only after the one before it; it works exactly when every call does, and what does not start is deleted again |
| Agent.Agent.BringUp | internal/agent/agent.go:543-550 | one attempt with its registration: it comes back exactly when every call succeeds, and then the last call has made the requested configuration |
| Agent.Agent.Reimage | internal/agent/agent.go:533-593 | under any provider failures, with restarts of others between any two calls: the target is applied exactly when every call for it succeeds; otherwise, unless nothing was touched, the old configuration is attempted, and restored exactly when every call for that succeeds |
| Agent.Agent.UpdateProfile | internal/agent/agent.go:595-660 | the same for a profile change in place, whatever ran before: the image stays, the profile made last is the target, the old one, or what the provider itself brought back |
| Agent.Agent.Await | internal/agent/agent.go:620-647 | a wait and its registration; exactly when both succeed |
| Agent.Agent.Restart | internal/agent/agent.go:617-645 | one attempt at a profile in place, the target's or the old one's: it comes back exactly when every call of it succeeds, and the image stays in any case |
| Agent.Agent.ExecuteReimage | internal/agent/agent.go:331-503 | exactly when the reported outcome of the single attempt says applied or restored, and what was made last then, with renewal failures, lost reports and restarts of others at any point |
| Agent.Agent.ExecuteProfile | internal/agent/agent.go:331-503 | the same for profile updates, for any configuration that ran before |
| Agent.ReimageEndToEnd | internal/hostcommand/service.go:1070-1179 | from queueing to completion: back to ready means the target or the restored configuration is recorded, and it agrees with what runs exactly when the restarts since have left its profile; otherwise quarantined with nothing pending; a device moved away meanwhile is left alone |
| Agent.ProfileEndToEnd | internal/hostcommand/service.go:957-1068 | the same for profile updates on a device that may run anything, with restarts beside them: the record afterwards, and exactly when it agrees with the provider |
| Agent.AgreementSurvivesProfileUpdates | internal/hostcommand/service.go:957-1068 | without restarts beside it, a record that agreed before agrees again whenever the device comes back with the old profile or the new |
| Agent.AppliedAgreesExactlyWhen | internal/hostcommand/service.go:841-856 | after an applied reimage the record agrees exactly when what runs by then is the target, if the completion found its device, or the old configuration, if it did not |
| Agent.RunReimage | internal/management/service.go:802-890 | queue, execute and complete in one piece, with restarts at any point: ready exactly when it was reported with all lights on and either every call for the target succeeded under a kept lease or every call for the rollback did; its record agrees exactly when the restarts have left its profile; otherwise quarantined with the old record |
| Agent.RunProfileUpdate | internal/management/service.go:892-972 | the same for a profile update: exactly when it is ready, and exactly when its record then agrees; otherwise quarantined |
| Configuration.StepKeepsSite | internal/management/service.go:739-972 | the record, what runs, and what each command has made stay related through every step of reimages, updates, restarts and anything else done to the device row |
| Configuration.BesideTheCurrent | internal/management/postgres/store.go:631-641 | while a reimage or update is at work the recorded configuration stays as queued, and whatever else is in flight is a restart with the recorded profile |
| Configuration.ReimageAgreesExactlyWhen | internal/hostcommand/service.go:1070-1179 | in any run, from the completion that readies the device on: exactly when record and provider agree |
| Configuration.ProfileUpdateAgreesExactlyWhen | internal/hostcommand/service.go:957-1068 | the same for profile updates, with the image that ran before |
| Protocol.DeviceStepsTouch | internal/hostcommand/service.go:407-508 | heartbeats, reports, administrators and completions write one device row and nothing else |
| Protocol.FenceStepsTouch | internal/iossession/service.go:134-384 | the fence writes the grant or the Appium session of one session and nothing else |
| Coupling.Relabel | internal/domain/device.go:32-47 | a change of one device keeps reservations and devices in step exactly when the new lifecycle is the assigned one, quarantine, or unassigned |
| Coupling.ReserveKeeps | internal/repository/reservation.go:260-283 | reserving keeps the coupling |
| Coupling.ActivateKeeps | internal/repository/reservation.go:1138-1197 | activating keeps the coupling |
| Coupling.CompensateKeeps | internal/repository/reservation.go:285-322 | compensating keeps the coupling |
| Coupling.CloseKeeps | internal/repository/reservation.go:751-814 | closing keeps the coupling |
| Coupling.OrphanKeeps | internal/repository/reservation.go:471-501 | the orphan sweep keeps the coupling |
| Coupling.HeartbeatKeeps | internal/hostcommand/service.go:407-508 | a heartbeat keeps the coupling, recovery under a reservation included |
| Coupling.ReportKeeps | internal/reconcile/service.go:109-181 | a report keeps the coupling, quarantine and recovery under a reservation included |
| Coupling.UnquarantineKeepsExactlyWhen | internal/management/service.go:649-655 | lifting a quarantine keeps the coupling if and only if no reservation is open on the device |
| Coupling.QueueKeepsExactlyWhen | internal/management/service.go:739-792 | queueing keeps the coupling except exactly for a restart under an open reservation |
| Coupling.CompleteKeepsExactlyWhen | internal/hostcommand/service.go:841-856 | a completion keeps the coupling unless, exactly, the device is quarantined under an open reservation and a profile update left it healthy or a delete queued from quarantine went through |
| Coupling.ReleasesExactly | internal/hostcommand/service.go:851-872 | exactly which outcomes take a quarantined device out of quarantine |
| Coupling.DeviceKeepsExactlyWhen | internal/management/service.go:649-792 | of all the steps on one device only the careless ones break the coupling, and they always do |
| Coupling.StepKeepsCouplingExactlyWhen | internal/scheduler/scheduler.go:62-226 | every step of the farm keeps reservations and devices in step, exactly unless it is careless |
| Leases.StepEvolves | internal/reservation/service.go:366-429 | every step moves every reservation row only in the ways a lease may move |
| Leases.StatusFollowsTable | internal/domain/reservation.go:16-23 | the status column written by SQL moves only along the domain's table |
| Leases.EvolutionKeepsLeases | internal/reservation/service.go:416-423 | the rolling window and the lateness of expiry are kept by any such movement |
| Leases.RanOutStays | internal/repository/reservation.go:1107-1136 | once run out, a lease is not touched until it is closed |
| Leases.ExtendNeverShortens | internal/reservation/service.go:416-422 | an extension never shortens a lease and leaves it as it was only on a replay or at the full window |
| Fence.StepEvolvesSessions | internal/iossession/service.go:134-384 | every step moves grants and Appium sessions only forward |
| Fence.StepKeepsMatch | internal/repository/reservation.go:1138-1197 | sessions and reservations stay matched: active with active, on the same device |
| Fence.StepKeepsGrants | internal/iossession/service.go:134-231 | every stored grant was issued and no two sessions store the same one |
| Fence.ConsumedAtMostOnce | internal/iossession/service.go:233-294 | in any run a grant is consumed at most once |
| Fence.ReissueKills | internal/iossession/service.go:209-213 | issuing again kills the previous grant |
| Fence.DeadForever | internal/iossession/service.go:444-472 | a replaced grant is answered as if it never existed, in every later state |
| Fence.BindsOnce | internal/iossession/service.go:313-326 | a session names one Appium session in its whole life, and an ended one stays ended |
| Fence.NothingAuthorizedAfterCutOff | internal/iossession/service.go:333-354 | after the end, the expiry or the close nothing is authorized on a session again |
| Fence.StepKeepsSweeps | internal/reservation/service.go:552-599 | what an expiry sweep learned without a lock stays true until it closes |
| Fence.SweepClosesClean | internal/reservation/service.go:552-599 | the sweep closes only leases past expiry and grace, with no live Appium session |
| Occupancy.ActivateKeepsCap | internal/repository/reservation.go:950-987 | the locked re-check keeps the host within its cap |
| Occupancy.StepKeepsCap | internal/scheduler/scheduler.go:159-165 | every step keeps every host within its cap |
| Occupancy.PhaseOneOvershoots | internal/scheduler/scheduler.go:89-102 | phase one does reserve more devices than the cap, and the second activation is turned away |
| Idempotency.StepRecords | internal/repository/reservation.go:525-552 | a record appears exactly in the step whose call takes effect |
| Idempotency.ExactlyOnce | internal/reservation/service.go:366-429 | over any interleaving the calls of one client, scope and key take effect once if their record appears and never otherwise; a record never changes |
| Idempotency.ExtensionReplays | internal/reservation/service.go:381-391 | in every later state the same extension is answered without effect and the key is refused for anything else |
| Idempotency.EvolutionKeepsRequests | internal/repository/reservation.go:163-188 | one client key names one reservation |
| Idempotency.EvolutionKeepsTargets | internal/reservation/service.go:248-289 | no two users hold the same device by name |
| Claims.StepRespects | internal/repository/reservation.go:471-501 | nobody but its worker does more to a claimed reservation than fail it |
| Claims.StepKeepsClaims | internal/scheduler/scheduler.go:151-203 | every claim in flight stands as it was made or has failed, and no two workers hold a standing one |
| Claims.UndoExactlyWhen | internal/repository/reservation.go:285-322 | exactly when a worker's compensation commits |
| Claims.LateSchedulerIsHarmless | internal/scheduler/scheduler.go:151-226 | after the orphan sweep, activation and compensation of the old claim are refused and change nothing in every later state |
| Claims.UndoRestores | internal/scheduler/scheduler.go:205-226 | reserve, anything by the others, undo: reservation back up to failure code and time stamp, device ready again |
| Claims.OrphanRecoveredExactlyWhen | internal/repository/reservation.go:471-501 | an abandoned claim is released if and only if its device is reserved; while reservations and devices are in step, if and only if it is not quarantined |
| Safety.InitiallySound | internal/repository/reservation.go:163-188 | an empty farm satisfies every invariant |
| Safety.StepKeepsSound | internal/scheduler/scheduler.go:62-226 | every step keeps all invariants but the coupling, careless steps included |
| Safety.CoupledExactlyWhileCareful | internal/management/service.go:649-792 | reservations and devices are in step in every state of a run if and only if the run has no careless step |
| Safety.AllocationIsConsistent | internal/repository/reservation.go:260-322 | in every state a careful run reaches: one open reservation per device; active means busy or quarantined, claimed means reserved or quarantined, and back |
| Safety.SessionsFollowReservations | internal/repository/reservation.go:751-814 | in every reachable state an active reservation has one active session, on the same device, and no other session is active |
| Safety.LimitsHold | internal/repository/reservation.go:950-987 | in every reachable state no host has more active reservations, counted over the rows, than its cap, and no lease reaches beyond its pool's window |
| Safety.ExpiryIsIrrevocable | internal/reservation/service.go:403-405 | once the clock reaches the expiry the row stays as it is until it is closed, and is reaped no earlier than the grace allows |
| Safety.ReapAlwaysSucceeds | internal/reservation/service.go:552-599 | in every state a careful run reaches a due reservation can be closed |
| Safety.CloseNeverRefused | internal/reservation/service.go:935-1022 | while reservations and devices are in step, closing an active reservation is never refused |
| Safety.CloseCommitsExactlyWhen | internal/repository/reservation.go:779-798 | an active reservation can be closed exactly when the release statement accepts its device's lifecycle |
| Safety.ReapClosesClean | internal/reservation/service.go:552-599 | in every run the sweep closes nothing that still has a live Appium session |
| Safety.OneControllerPerDevice | internal/iossession/service.go:333-354 | at any moment of a careful run one Appium session at most is authorized on a device, through one grant |
| Safety.NoGrantTwice | internal/iossession/service.go:233-294 | in any run from an empty farm no grant is consumed twice |
| Safety.ReachableExtendNeverShortens | internal/reservation/service.go:416-422 | in every reachable state an extension does not shorten a lease |
| Reaper.ReapOutcome | internal/reservation/service.go:575-594 | a found reservation is closed exactly when it is due to the microsecond |
| Reaper.Sweeper.CloseForReservation | internal/iossession/cleanup.go:16-82 | after a cleanup no live session is left; without an answer from the host the device is isolated |
| Reaper.Sweeper.ReapOnce | internal/reservation/service.go:552-599 | one sweep: closed clean, nothing due anywhere, or stuck on a host |
| Reaper.Sweeper.DrainExpired | internal/reaper/reaper.go:72-83 | the loop ends and leaves no due reservation, unless a host did not delete the next session; nothing changes that was not due |
| Reaper.Sweeper.StaleOnce | internal/reservation/service.go:613-664 | one sweep fails a reservation that has waited too long, or finds none |
| Reaper.Sweeper.DrainStale | internal/reaper/reaper.go:98-109 | the loop ends with nobody waiting past the timeout, and changes nothing else |
| Reaper.Sweeper.DrainOrphans | internal/reaper/reaper.go:110-121 | the loop ends with no abandoned claim, or blocked by the oldest one, whose device is quarantined |
| Commands.CommandTable.Create | internal/repository/command.go:127-152 | idempotent insert; a key reused for another command is refused |
| Commands.CommandTable.ClaimNext | internal/repository/command.go:154-191 | leases the oldest pending command of the host; none only if none is pending |
| Commands.CommandTable.ExtendLease | internal/repository/command.go:102-123 | extends exactly the current, unexpired lease |
| Commands.CommandTable.Complete | internal/repository/command.go:42-73 | completes exactly the current, unexpired attempt; a retryable failure with attempts left goes back to pending |
| Commands.CommandTable.RecoverExpired | internal/repository/command.go:78-100 | takes back the lease that ran out first, or ends the command after its last attempt |
| Commands.CompletesExactlyWhen | internal/repository/command.go:42-73 | exactly when a completion is accepted (status, attempt, token, expiry), and that only a retryable failure with attempts left goes back to pending |
| Commands.ClaimLastsExactly | internal/repository/command.go:154-191 | a claimed command is its claimer's for exactly the lease: completed up to that instant, recovered only after it, claimed by nobody meanwhile |
| Commands.ExtensionLastsExactly | internal/repository/command.go:102-123 | exactly when a lease is extended, and that it then lasts exactly the new lease from now |
| Commands.RecoversExactlyWhen | internal/repository/command.go:78-100 | exactly when a lease is recovered, and that the command goes back while it has attempts and ends timed out otherwise |
| Commands.RunKeepsSound | migrations/000001_device_domain.up.sql:42-72 | in every reachable state attempts stay within the maximum, pending ones below it, leases exactly on leased rows, one command per key |
| Commands.PendingIsClaimable | internal/repository/command.go:154-191 | every pending command in a reachable state can be claimed |
| Commands.StepEvolves | internal/domain/command.go:16-23 | statuses move along the domain's table and attempts never go back |
| Commands.TerminalForever | internal/domain/command.go:16-23 | a terminal command never changes again |
| Commands.SupersededForever | internal/repository/command.go:42-123 | a superseded attempt is rejected in every later state, whatever token it shows |
| Commands.MovesSupersede | internal/repository/command.go:42-191 | an accepted completion comes from the current attempt, and every claim, completion and recovery ends the attempt before |
| Commands.CompletedAtMostOnce | internal/repository/command.go:42-73 | in any run at most one completion is accepted per attempt |
| Commands.EndsAtMostOnce | internal/hostcommand/service.go:725-818 | a command ends at most once in any run |
| Commands.SingleAttempt | internal/management/service.go:885-890 | a command with one attempt is never retried: whatever ends its lease ends the command |
| Commands.CompleteOrRecover | internal/repository/command.go:42-100 | at any instant a lease can be completed or recovered, never both |
| Commands.MovesDescend | internal/repository/command.go:42-191 | every claim, completion and recovery brings a command strictly closer to its end |
| Commands.MovesAreBounded | internal/repository/command.go:42-191 | a command sees at most twice its maximum attempts of them in any run |
| Results.StepIsFarmStep | internal/management/postgres/store.go:598-724 | a step of commands and devices together is at most one step of the farm |
| Results.LinkedRunIsFarmRun | internal/hostcommand/service.go:725-818 | every run of both is a run of the farm, so its theorems hold there |
| Results.AppliedAtMostOnce | internal/hostcommand/service.go:725-818 | in any run the result of a command reaches its device at most once |
| Results.CompletionNeverRefused | internal/hostcommand/service.go:751-762 | what the command table accepts is never turned down by the device |
| Results.AcceptedResultsCommit | internal/hostcommand/service.go:751-762 | the same in every reachable state |
| Results.BarredStays | internal/management/postgres/store.go:697-702 | a device in no pool and held by nobody stays so, whatever the farm does |
| Results.StepKeepsLinked | internal/management/postgres/store.go:631-651 | orders are what the code can queue, commands of one device overlap only with a restart, a device being deleted is barred |
| Results.OnlyRestartsOverlap | internal/management/postgres/store.go:631-641 | two commands in flight for one device: one is an administrator's restart |
| Results.OnlyProfileUpdatesAreCareless | internal/hostcommand/service.go:957-1068 | of the completions only that of a profile update can be careless |
| Results.CompletionsCoincide | internal/hostcommand/service.go:819-955 | a completion does the same to a device of the farm as to its record, and both refuse the same ones |
| Capacity.AdditionalIsExact | internal/capacity/capacity.go:70-86 | the additional count is exactly the largest number of copies that fit all four resources |
| Capacity.AdmitsExactlyWhen | internal/capacity/capacity.go:65-87 | n devices of a profile are admitted exactly when existing, pending and all n fit next to the reserves of one core, 2048 and 4096 MB, in limits and in what the host reports free, an image counted only where it is missing, and in the slots |
| Capacity.ChargingLeavesTheRest | internal/capacity/capacity.go:65-87 | charging k of n leaves n - k |
| Capacity.MixedAdmissionsStayWithin | internal/capacity/capacity.go:65-87 | any sequence of admissions of mixed profiles stays within budget and reserves |
| Capacity.Evaluate | internal/capacity/capacity.go:65-113 | nothing fits exactly when something is named short, by just the missing amount; the limiting resource is the first least bound |
| Capacity.Shortfall | internal/capacity/capacity.go:97-108 | which resources are named short, exactly, and by how much |
| PoolSelector.Selector.Select | internal/reservation/pool_selector.go:421-447 | the pool the cursor's position belongs to, and the cursor one further |
| PoolSelector.OrderDoesNotMatter | internal/reservation/pool_selector.go:425 | the choice depends on the set of pools, not on the order they come in |
| PoolSelector.WindowIsExact | internal/reservation/pool_selector.go:421-454 | any window of total-weight calls from any cursor picks each pool exactly as often as its cap, or once if it has none |
| RuntimeProfile.FloatValue | internal/runtimeprofile/profile.go:137-161 | the first key that is present decides |
| RuntimeProfile.ReadFields | internal/runtimeprofile/profile.go:53-86 | every integer field over its default, refused as soon as one is not whole |
| RuntimeProfile.Derive | internal/runtimeprofile/profile.go:87-95 | guest values nobody asked for follow from the container |
| RuntimeProfile.Parse | internal/runtimeprofile/profile.go:44-107 | the loops compute the parsing function |
| RuntimeProfile.ParsedIsValid | internal/runtimeprofile/profile.go:44-125 | whatever parses is within the limits, every one of them written out |
| RuntimeProfile.OldKeysStillParse | internal/runtimeprofile/profile.go:53-86 | a map with the container keys of before the rename parses as with the new ones |
| RuntimeProfile.RoundTrip | internal/runtimeprofile/profile.go:127-135 | every valid profile survives its map form |
| RuntimeProfile.ParsingIsStable | internal/runtimeprofile/profile.go:44-135 | parsing what was parsed changes nothing |
| RuntimeProfile.DerivedGuestFits | internal/runtimeprofile/profile.go:87-95 | derived guest values land inside all coupled bounds, and what they are for each size of container |
| RuntimeProfile.ContainerAloneParsesExactlyWhen | internal/runtimeprofile/profile.go:44-125 | a container size alone parses if and only if it is within its limits |
| Witnesses.UnquarantineBreaks | internal/management/service.go:649-655 | a run from an empty farm that ends out of step by lifting a quarantine |
| Witnesses.RestartBreaks | internal/management/service.go:739-792 | the same by a restart |
| Witnesses.LeasedIsReached | internal/reconcile/service.go:183-388 | a run from an empty farm without commands: STF loses sight of a device, an update is queued on it, a report under way isolates it, it comes back, is held and quarantined, and the command is leased |
| Witnesses.CompletionBreaks | internal/hostcommand/service.go:957-1068 | the completion of that command is accepted and puts reservation and device out of step |
| Witnesses.OrphanIsRefused | internal/repository/reservation.go:471-501 | a run after which an overdue claim cannot be released |
| Witnesses.OneOrphanBlocksAnother | internal/repository/reservation.go:437-458 | a claim that cannot be released comes before one that could |
| RecordWitnesses.ReimageDiverges | internal/hostcommand/service.go:851-856 | a reimage applied under quarantine leaves the old image in the record |
| RecordWitnesses.ProfileUpdateReadiesTheWrongImage | internal/hostcommand/service.go:957-1068 | a profile update then readies the device with that record |
| RecordWitnesses.RestartDuringReimageDiverges | internal/management/service.go:739-792 | a restart that comes through beside a reimage: ready with a profile that does not run |
| RecordWitnesses.BrokenRestartReadiesNothing | internal/providers/docker/provider.go:302-313 | a restart that breaks beside a reimage: ready with nothing running |
| RecordWitnesses.RestartDuringUpdateDiverges | internal/hostcommand/service.go:957-1068 | a restart beside a profile update with equal images: ready with a profile that does not run |

## Left out

- Observation.HealthService.Heartbeat: one device at a time, and whether a command is in flight for the device is an
  input of the step; endpoints, serials, capabilities and the base device of a pool are not modelled.
- Reservations.ReservationService.Create: automatic pool choice by eligibility is not modelled; the weighted choice
  among eligible pools is.
- Reservations.ReservationService.Release: the unlocked checks before the transaction and the transaction are one
  step, which is exact because requests and records never change; the iOS cleanup before a user's release is a step of
  its own, and an unexpired reservation may be bound again after it.
- Observation.HealthService.Missing: how long a device has been unseen is an input.
- Observation.ManagementService.Queue: does not model which incidents entitle a device to a self-healing restart, the
  pool targets a delete lowers, and how a device is created; whether another command is active is an input here and
  comes from the command table in `Results`.
- Configuration.StepKeepsSite: follows reimages, profile updates and restarts of one device; everything else the farm
  does to the device row is a step that may set its lifecycle, health, reason and failures to anything. Rebuilds and
  deletes wait for these commands to end and are not followed. The record is read in the transaction that queues the
  command, whereas the code reads it before and then compares lifecycle and health only.
- STF: claims, releases and remote sessions act by serial on an outside system; a claim is an answer, granted or
  refused.
- Fresh machines: recycling is where a device leaves this model; the controller that rebuilds it, provisioning of
  pools and changes of pool settings are not part of it, so pools are fixed. Queueing a delete lowers the cap of the
  device's pools in the code, which can bring it below what is active already; here the cap stays.
- Locking: a transaction is atomic, and rows skipped because somebody else holds their lock are not modelled.
- Device rows are created outside the model, a deleted device keeps its row, and no step puts a device back into a
  pool.
- Agent.Agent.ExecuteReimage: a provider call that succeeds has its effect and one that fails may have had any part of
  it; only a restart with a profile is known to keep the image. Deadlines are numbers of inspections. An agent that
  goes on after its lease was taken away is not followed any further.
- Capacity.ChargingLeavesTheRest: a charge is what the evaluation deducts for one device; callers that also charge the
  image on a host that has it are more cautious than that.
- RuntimeProfile.RoundTrip, Capacity.Evaluate: processor cores are reals and sums do not overflow; infinities and
  values that are not numbers are not modelled, nor is the rounding of whole numbers above 2^53. A text that reads as
  a number is given with the number it reads as.
- Text: white space below U+0100 and letters of ASCII stand for the Unicode tables; hashes are taken to be injective,
  and a fresh grant to be one that was never issued before.
- Audit rows, health event rows, error texts, metrics, transport and the console.
