# Verification of the admirald control plane

A Dafny model of the parts of `admirald` that move workloads between nodes and account for them, with
proofs of what every run keeps.

| file | models |
|---|---|
| `Routes.dfy` | the route manager: reconciliation of route rows with Caddy, and the calls that change rows |
| `Migration.dfy`, `Coordinator.dfy` | a migration: the world it acts on, what runs beside it, and the coordinator step by step |
| `Queue.dfy` | the durable command queue, its leases, and the compensation used when a node is removed |
| `Fleet.dfy` | dispatch of operations, the claim gate, and the callback that settles them |
| `Operations.dfy` | the lock that serializes migrations |
| `Capacity.dfy`, `Resize.dfy` | reservation, release, policy recompute, node selection, and the two-phase ledger of a resize |
| `Provision.dfy` | idempotent provisioning |
| `EnvLayers.dfy`, `Graphs.dfy` | resolution of environment layers |
| `Dependencies.dfy` | the dependency check of app definitions |
| `RateLimiter.dfy`, `WindowLimiter.dfy` | the two rate limiters |
| `Addresses.dfy` | the WireGuard network and its address allocator |

`dafny verify dfyconfig.toml` checks everything.

## How to read the model

- A write that talks to a database or to Caddy ends in a `Reply`: `Done`, `Refused`, or `Lost` (it took
  effect but its caller saw an error). Outcomes are chosen by the environment, so every theorem covers
  every combination of failures.
- Protocols are transition systems: `IsRun` (or `LawfulRun`) describes a sequence of states and events,
  and theorems speak about all of them. A transaction is one step; handlers made of several
  transactions are several steps where that matters (dispatch, migration, provisioning).
- The migration coordinator is a class whose ghost field `run` records every state that anyone could
  observe. Everything that can fail draws its outcome from an input stream of replies, so contracts say
  what happens as a function of those replies; `Fine(a, b)` means that all replies from a to b were done.
  After each write any number of events happen: clock ticks, health reports, heartbeats, manager calls
  and syncs, reservations of other workloads, backup callbacks. `MigrationWorld.Safe` is what every
  observable state satisfies, `MigrationWorld.Lawful` what every change satisfies.
- The coordinator keeps a log: one entry per task that it dispatches to a worker and per write that creates
  a backup record, reserves or releases capacity, or assigns the instance. An entry holds the index of its
  draw and, once there is one, the reply. `HonestRun` says that every reply in the log is the one drawn
  for it (the assignment of the target has a reply of its own, `assign`). Who is assigned, what is
  reserved, whether the source was paused or restarted, and the whole history of a run are the replay of
  that log (`Accounted`): a task counts as achieved only through a `Done` entry (`FlagsMean`,
  `RecordsMean`, `WritesMean`).

## Findings

Properties that do not hold as one might expect, each with a proof of when it does:

- A rolled-back migration leaves the instance assigned to a node that holds nothing for it if and only if
  the write that assigns the target took effect but reported an error and the release of the target's
  reservation took effect (`UncoveredIffAssignmentLost`, `EndingsFollowReplies`). Unless that one write is
  lost, the assigned node holds the reservation in every state of every run (`AlwaysCovered`). The
  coordinator gets there whenever it is lost and nothing else fails, and the instance then stays in
  maintenance (`RunMigration`).
- An aborted migration leaves a reservation on the target behind if and only if the write that reserved it
  took effect but reported an error (`LeakedIffReservationLost`).
- If publishing a task takes effect but reports an error, the handler can overwrite a succeeded
  operation with "failed" (`LostPublishOverwrites`). In every other run a terminal status is permanent
  (`StatusKept`), and in all runs it stays terminal (`SettledForever`).
- If the status write of a callback is refused, the same callback is accepted again and its effects are
  repeated (`RefusedWriteRepeats`). Effects are applied once per refused write, and at most once more
  (`EffectsAccounted`).
- After a failed provisioning a removal gives the tier back a second time, except if and only if the stored
  status is still "setup_failed" when the removal's callback arrives (`RemovedAfterFailure`). A removal that
  the customer requests does not find it so, because the request first writes "deprovisioning"
  (`SetupFailureThenRemoval`). For the automatic cleanup it depends on timing, since that task is published
  before "setup_failed" is stored. So node counters are no ledger of live instances.
- A resize reads the current tier from the app definition when requested and from the instance when
  completed. The node ends up charged the exact difference if and only if both readings imply the same
  growth, or a failed resize gives back too much on a counter that was zero (`ExactIffReadingsAgree`).
- A layer key that refers to itself while another key refers to it can be expanded once or twice, depending
  on map iteration order (`SelfReferenceDependsOnOrder`). A layer without reference cycles gives the same
  result in every order if and only if each such key comes out the same when it is resolved on top of its
  own result (`OrderIndependentIffStable`).
- A command cancelled by a node removal that fails comes back pending with its attempts, unless a late
  completion or a discard has settled it in between; then the compensation leaves it alone
  (`FailedRemovalLosesNothing`).
- A failed node removal loses work exactly when the cancellation reported an error although it took
  effect, or when the compensating restore was refused; a node that is gone keeps active commands exactly
  when its removal took effect but reported an error and the commands were restored (`RemoveNode`).
- A resize request leaves its reservation behind when the reservation is lost or giving it back is refused
  (`RequestResize`).
- A limit below one makes the sliding-window limiter index an empty slice (`IsBlocked`).
- Right after a policy recompute, an eligible node can refuse a reservation exactly when it is full in a
  resource that the request does not need (`EligibleThenReserved`); only a resize can ask for that.

## Model

| member | source | states |
|---|---|---|
| `Routes.CallShields` | internal/networking/manager.go:223-390 | While an instance migrates, no manager call changes its rows except promoting a healthy pending row outside maintenance, and Caddy keeps what it had or loads exactly what the rows and the recorded step say |
| `Routes.MaintenanceHolds` | internal/networking/manager.go:426-516 | For any sequence of manager calls during maintenance, an instance that Caddy does not forward is never forwarded again, and its rows stay as they are |
| `Routes.CallTends` | internal/networking/manager.go:223-296 | Outside a migration, activation and sync never move a row to another node and never revive a disabled row |
| `Routes.Manager.InstanceMigrationActive` | internal/networking/manager.go:365-379 | True exactly when some running operation of the instance is a migration; never for an empty name |
| `Routes.Manager.BuildConfig` | internal/networking/manager.go:426-492 | The configuration covers exactly the listed rows, with maintenance for exactly the instances whose running migration is at a step that carries no traffic; one failed lookup gives up the pass |
| `Routes.Manager.SyncLocked` | internal/networking/manager.go:426-516 | The pass either changes nothing or loads the configuration of the rows and promotes exactly the healthy pending rows outside maintenance |
| `Routes.Manager.ChangeStatus` | internal/networking/manager.go:298-340 | Enabling or disabling succeeds exactly for a known host of an instance that does not migrate and with a done load; it changes one row and syncs, or nothing |
| `Routes.Manager.DeleteRoute` | internal/networking/manager.go:342-363 | Succeeds exactly for an unknown host, or for one of an instance that does not migrate with a done load and a done removal; a row that is gone is not served |
| `Routes.Manager.ActivateInstanceRoutes` | internal/networking/manager.go:223-296 | A no-op while the instance migrates; otherwise activates its rows except disabled ones, and syncs; when a row write fails, the rows before it are written and Caddy is not loaded |
| `MigrationWorld.LawfulEverywhere` | internal/api/admin_instances.go:21-503 | Every state of a run is safe: Caddy forwards only to a source that was never paused or has reported fresh health since its restart, or to an assigned target that has reported fresh health since the assignment; the assigned node holds the tier unless the log shows a lost assignment; counters equal what all workloads hold; a removed workload is unreachable; and assignment, reservations and history are what the log says |
| `MigrationWorld.TrafficNeverStranded` | internal/api/admin_instances.go:449-503 | Once Caddy has forwarded to the target, the instance stays assigned to it and the target's workload is never removed, whatever fails afterwards |
| `MigrationWorld.TargetHasItsData` | internal/api/admin_instances.go:271-299 | When the target was told to resume or is assigned, it has been given exactly one sound backup (succeeded, S3, 32-byte checksum) of each declaring service, made on the source by a backup task reported done and restored by a restore task reported done; the records are pairwise different, did not exist when the run began, no other record was ever sent, and after a resume none is |
| `MigrationWorld.StagesInOrder` | internal/api/admin_instances.go:362-447 | In every state the target was provisioned only after a pause of the source that was reported done, given data or resumed only after a provisioning reported done, and assigned or forwarded to, and the source removed, only after a resume reported done |
| `MigrationWorld.FlagsMean` | internal/api/admin_instances.go:106-137 | A stage counts as tried exactly when the log holds such a task, and as achieved exactly when it holds one with a done reply |
| `MigrationWorld.RecordsMean` | internal/api/admin_instances.go:106-137 | A record counts as backed up or restored exactly when the log holds such a task for it with a done reply |
| `MigrationWorld.WritesMean` | internal/api/admin_instances.go:352-439 | What is noted of the reservation, the assignment and the release of the target is the last reply to that write in the log |
| `MigrationWorld.MadeInThisRun` | internal/api/admin_instances.go:505-561 | No record that the coordinator made existed when the run began |
| `MigrationWorld.NoWriteLost` | internal/api/admin_instances.go:254-299 | If the target is ever resumed, Caddy forwarded nothing from the first backup record until then |
| `MigrationWorld.SourceReleasedLast` | internal/api/admin_instances.go:479-490 | The source's reservation is given back only in a state where the target serves and holds one and the log shows a deprovisioning of the source that was reported done |
| `MigrationWorld.TargetReleasedClean` | internal/api/admin_instances.go:311-327 | The target's reservation is given back only while the source is assigned, or with a lost assignment in the log, and only after a deprovisioning of the target that was reported done if provisioning was tried |
| `MigrationWorld.AlwaysCovered` | internal/api/admin_instances.go:435-447 | Unless the reply to the assignment of the target is lost, the assigned node holds the reservation in every state of a run |
| `MigrationWorld.ReleasedWhileAway` | internal/api/admin_instances.go:311-327 | Unless that reply is lost, the target's reservation is given back only while the source is assigned, and clean |
| `MigrationWorld.EventSafe` | internal/api/admin_instances.go:149-165 | Nothing that runs beside the coordinator makes a safe state unsafe |
| `MigrationWorld.EventRelied` | internal/networking/manager.go:416-516 | Nothing that runs beside the coordinator gives capacity back, moves the instance, or opens routes that are in maintenance |
| `MigrationWorld.GatePassed` | internal/database/health.go:51-64 | A passed health gate means a healthy report of the assigned node, newer than the gate's start |
| `MigrationWorld.ReleaseSane` | internal/database/health.go:159-163 | The clamp at zero never fires in a migration: a release takes exactly the tier off the counters |
| `MigrationWorld.StartableSafe` | internal/api/admin_instances.go:599-696 | A running instance served from the source, on nodes whose counters cover what is held there, is a safe start |
| `Migration.UncoveredIffAssignmentLost` | internal/api/admin_instances.go:311-327 | At the end of a rollback the assigned node holds nothing if and only if the log shows a lost assignment of the target and a release of the target's reservation that took effect |
| `Migration.LeakedIffReservationLost` | internal/api/admin_instances.go:356-360 | At the end of an aborted run the target is charged if and only if the reply to its reservation was lost; otherwise only the source is charged |
| `Migration.EndingsFollowReplies` | internal/api/admin_instances.go:311-439 | The same over the replies given to the run: uncovered exactly when the assignment was made with a lost reply and the release took effect; a leak means that the reply drawn for the reservation was lost |
| `Migration.Coordinator.SubOp` | internal/api/admin_instances.go:106-137 | Dispatches one task and logs it with the next drawn reply; the state then is that of the task with exactly that reply, up to what runs beside it |
| `Migration.Coordinator.UpdateRoutesAndSync` | internal/networking/manager.go:415-424 | Row writes stop anywhere or all succeed, and Caddy is loaded, refused or loaded unnoticed; every state stays safe, and on success exactly the written rows are in force |
| `Migration.Coordinator.EnableMaintenance` | internal/api/admin_instances.go:235-253 | On success every row is disabled and Caddy forwards nothing, and no concurrent sync can undo it |
| `Migration.Coordinator.RestoreOriginalRoutes` | internal/api/admin_instances.go:219-228 | Needs a serving source; on success every enabled saved host reaches the source and every disabled one nothing; with fine replies it succeeds |
| `Migration.Coordinator.AbortBeforeStop` | internal/api/admin_instances.go:229-234 | The source is undisturbed and reservations are as before; a done restore leaves the saved routes in force; with fine replies it is done and the operation settled |
| `Migration.Coordinator.Prepare` | internal/api/admin_instances.go:204-265 | Either the run has aborted with the source undisturbed, or the routes are saved and in maintenance; with fine replies the latter |
| `Migration.Coordinator.BackUp` | internal/api/admin_instances.go:66-137 | A successful backup adds one sound record of that service, made on the source, that did not exist before the call and whose backup task was reported done; with fine replies and an unspoiled record it succeeds |
| `Migration.Coordinator.BackUpServices` | internal/api/admin_instances.go:271-299 | On success there is one sound record of the coordinator's own per declaring service, in order, each from a task reported done; otherwise the run has aborted with the source undisturbed and nothing reserved |
| `Migration.Coordinator.ReserveTarget` | internal/api/admin_instances.go:352-360 | Answers the drawn reply unless the target is full; the target holds the tier exactly when the write took effect, also when it reported an error |
| `Migration.Coordinator.RestoreBackups` | internal/api/admin_instances.go:383-400 | Restores exactly the records taken in this run, each once and in their order by a task reported done, before anything is resumed; with fine replies and unspoiled records it succeeds |
| `Migration.Coordinator.WaitForNodeHealthy` | internal/api/admin_instances.go:149-165 | Success means that the node is assigned and has reported healthy after the wait began; an assigned node that reports in time passes |
| `Migration.Coordinator.RollBack` | internal/api/admin_instances.go:311-351 | Cleaned exactly when the target's deprovisioning was reported done or never needed; the target keeps its reservation exactly unless it was cleaned and the release took effect; the source serves and, with a done restore, its saved routes are in force, or nothing is forwarded; with fine replies all of it succeeds, except recovery after a lost assignment |
| `Migration.Coordinator.HoldBack` | internal/api/admin_instances.go:459-469 | An uncertain cutover keeps both workloads and reservations; done maintenance leaves nothing forwarded |
| `Migration.Coordinator.CutOver` | internal/api/admin_instances.go:435-471 | Either the target serves and Caddy was told the redirected routes, or the run has ended rolled back or held for an operator with the guarantees of that ending; with fine replies the reply to the assignment decides |
| `Migration.Coordinator.CleanUp` | internal/api/admin_instances.go:472-503 | Whatever fails after the cutover, the target serves, keeps its reservation and is never removed, and the source is released only after its deprovisioning was reported done; with fine replies the run finishes with exactly the target holding the tier and the restart flag cleared |
| `Migration.Coordinator.RunMigration` | internal/api/admin_instances.go:21-503 | Every observed state is safe, every change lawful, every logged reply the drawn one, and each ending guarantees what `Settled` says of its results; the cutover is complete exactly in the last two; unless the assignment of the target is lost, the assigned node holds the reservation in every observed state. With fine replies, an orderly definition, and neither a full target nor a spoiled backup, the run finishes; if only the target's assignment is refused the source is back in service, and if it is lost the instance ends on a node that holds nothing |
| `Queue.AlwaysWellKept` | internal/queue/queue.go:192-409 | In every run, leased_until is set exactly while a command is leased or running, and attempts never exceed the maximum |
| `Queue.ClaimsBounded` | internal/queue/queue.go:192-282 | A command is claimed exactly attempt_count times, hence at most five times, or never when published as rejected |
| `Queue.RejectedNeverClaimed` | internal/queue/queue.go:120-186 | A rejected task stays unclaimed through every later run |
| `Queue.ClaimsSeparated` | internal/queue/queue.go:192-282 | Between two claims of one command lies a lease expiry, a failed completion or a restore |
| `Queue.LeaseExclusive` | internal/queue/queue.go:284-322 | Without a failed completion or a restore, the second claim comes more than 300 seconds after the first |
| `Queue.CancelThenRestore` | internal/queue/queue.go:414-476 | With a fresh marker, cancel and restore turn exactly the node's active commands into pending ones with their attempts, and touch no other row |
| `Queue.FailedRemovalLosesNothing` | internal/api/handlers_nodes.go:464-523 | Whatever lies between cancellation and restore, an active command comes back pending with its attempts; or, if a completion or discard named it, it is as the first of these and later events made it, untouched by the restore |
| `Queue.CompletedRemovalRevivesNone` | internal/queue/queue.go:480-492 | After finalizing, a restore with that marker changes nothing, however much later it comes |
| `Queue.FleetQueue.ClaimTask` | internal/queue/queue.go:192-282 | Expired leases of the node are given up, then the least claimable command by priority and age is leased; empty only if none is claimable |
| `Queue.FleetQueue.CompleteTask` | internal/queue/queue.go:501-549 | Success settles the row; failure requeues it with backoff or dead-letters it when attempts are used up, whatever its status was |
| `Queue.FleetQueue.MarkRunningForNode` | internal/queue/queue.go:284-303 | Succeeds exactly for a leased or running command of the node, and changes only its status |
| `Queue.FleetQueue.RenewLeaseForNode` | internal/queue/queue.go:305-322 | Succeeds exactly for a running command of the node, and moves only its lease |
| `Queue.FleetQueue.DiscardCommandForNode` | internal/queue/queue.go:324-346 | Succeeds exactly for a command of the node that has neither succeeded nor failed, also a cancelled one, and settles it as failed |
| `Queue.FleetQueue.RemoveNode` | internal/api/handlers_nodes.go:455-523 | The queue after a removal, for every reply of its three writes. A node that is gone has active commands exactly when the transaction was lost and they were restored; one that is not gone has lost work exactly when the cancellation was lost or the restore refused |
| `Queue.BusyAfterRemoval` | internal/api/handlers_nodes.go:464-523 | Active commands remain exactly when nothing was cancelled or everything was restored; other rows are untouched |
| `Queue.FleetQueue.PublishTask` | internal/queue/queue.go:120-186 | Adds a pending command with five attempts, or nothing when the task is already there |
| `Fleet.SuboperationCallbackInert` | internal/api/handlers_fleet.go:569-737 | The callback of a migration's sub-operation changes no instance, commitment or route, for every action a migration dispatches and either outcome |
| `Fleet.SettleFrame` | internal/api/handlers_fleet.go:598-740 | An accepted callback changes only its own instance, which stays on its node, the counters and policy columns of that node, and the instance's routes |
| `Fleet.RemovedAfterFailure` | internal/api/handlers_fleet.go:638-668 | After a failed provisioning, a removal gives the tier back once more, except if and only if the stored status is still "setup_failed" at its callback |
| `Fleet.SetupFailureThenRemoval` | internal/api/handlers_instances.go:141-264 | A run of eleven events: after a failed setup, a removal requested by the customer gives the tier back twice when the request's status write takes effect, and once when it does not |
| `Fleet.SettledStep` | internal/api/handlers_fleet.go:491-596 | In any state, a terminal status changes only through the failure path of dispatch, and only to failed |
| `Fleet.SettledForever` | internal/database/operations.go:137-160 | In every run a terminal operation stays terminal |
| `Fleet.StatusKept` | internal/api/handlers_tasks.go:184-209 | In every run without a lost publish of it, a terminal operation keeps that very status |
| `Fleet.StatusChangesIffOverwritten` | internal/api/handlers_tasks.go:195-204 | In every run a terminal operation changes its status exactly when its handler, told that publishing failed, marks it as failed; it then stays failed |
| `Fleet.HandedOutIffCurrent` | internal/api/handlers_fleet.go:222-319 | A claimed task whose lookups succeed is handed out exactly when its operation is open, it is the current task with that action and instance, neither names another node, and the instance allows it; otherwise its command ends cancelled, or stays leased when a lookup or the cancellation failed |
| `Fleet.NeverHandedOutAgain` | internal/api/handlers_fleet.go:287-319 | After an operation is terminal no claim hands its task out, even if its command was requeued |
| `Fleet.EffectsAccounted` | internal/api/handlers_fleet.go:585-737 | Callback effects of an operation are applied once per refused status write, and at most once more |
| `Fleet.EffectsAtMostOnce` | internal/api/handlers_fleet.go:516-530 | Without refused status writes, callback effects are applied at most once |
| `Fleet.LostPublishOverwrites` | internal/api/handlers_tasks.go:195-204 | A run, for any task and any successful report, in which a succeeded operation becomes failed |
| `Fleet.RefusedWriteRepeats` | internal/api/handlers_fleet.go:594-596 | A run in which a failed provisioning gives the tier back twice |
| `Fleet.Handlers.HandleTaskClaim` | internal/api/handlers_fleet.go:199-285 | Up to 128 refused tasks are cancelled in turn; what is handed out is current; an empty answer means that nothing is claimable or the bound was reached; an error that the claim, a lookup or a cancellation failed and nothing was handed out |
| `Fleet.Handlers.HandleFleetCallback` | internal/api/handlers_fleet.go:491-740 | The whole effect of a callback on command, operation and site; a duplicate changes neither operations nor the site |
| `Operations.OneMigration` | internal/database/operations.go:76-115 | However requests race, an instance has at most one unsettled migration |
| `Operations.Store.CreateMigrationOperation` | internal/database/operations.go:76-115 | Succeeds exactly for an instance running on the named node without an open operation |
| `Capacity.ReleaseUndoesReserve` | internal/database/database.go:80-105 | A release undoes a reservation exactly when the counters were not negative |
| `Capacity.RecomputeSettles` | internal/api/handlers_policy.go:69-136 | A recompute touches the policy columns only, and gives the same result whatever they were before |
| `Capacity.EligibleThenReserved` | internal/api/handlers_policy.go:69-136 | After a recompute, a node judged eligible is accepted by the reservation guard exactly when it is below both limits, hence for every positive request |
| `Capacity.EligibleMeans` | internal/api/handlers_policy.go:163-207 | The list of rejection reasons is empty exactly for an active, healthy, enabled worker with fresh, valid metrics and room under its limits |
| `Capacity.SelectNode` | internal/api/handlers_policy.go:209-252 | A node is returned exactly when some candidate is eligible; it has the most memory left, then the most disk, then the smallest name |
| `Capacity.BestExtends` | internal/api/handlers_policy.go:238-249 | Comparing each evaluation with the best so far keeps the best of all seen |
| `Resize.ResolvedNames` | internal/api/handlers_fleet.go:803-824 | The resolved tier has the name in the callback, and exists for an unrecorded target exactly when a defined tier has that name |
| `Resize.ResizeLedger` | internal/api/handlers_instances.go:147-202 | With any honest traffic around it, a resize charges the larger tier in each resource while in flight, exactly the new tier after success and the old one after failure, and never takes a node over its limit |
| `Resize.ExactIffReadingsAgree` | internal/api/handlers_fleet.go:837-898 | The charge is exact if and only if the definition's and the instance's tier imply the same growth, or a failed resize gives back too much on a counter that was zero |
| `Resize.EditedTierOvercharges` | internal/api/handlers_fleet.go:837-898 | A definition edited below the instance's tier overcharges the node |
| `Resize.ResolveTarget` | internal/api/handlers_fleet.go:803-824 | The loop finds the first defined tier of that name, or the recorded one if the names agree |
| `Resize.ResizeRows.RequestResize` | internal/api/handlers_instances.go:147-302 | Succeeds exactly when the growth is eligible, accepted and recorded; every refusal leaves the node's counters as they were, unless the reservation was lost or giving it back was refused; the policy columns follow the counters if their writes succeed, and nothing else of the row changes |
| `Resize.ResizeRows.HandleCallback` | internal/api/handlers_fleet.go:837-898 | Gives back what shrank, or what was reserved, unless that write is refused, and recomputes the policy after a done one; without a usable target tier nothing changes; the tier is stored on success unless that write is refused |
| `Provision.ClaimsStable` | internal/database/provision_requests.go:121-145 | A claimed key keeps its identifiers for ever, and its response once it has one |
| `Provision.CreatedAtMostOnce` | internal/database/provision_requests.go:28-98 | In every run exactly one instance, operation and reservation is created for a claimed key, and none for an unclaimed one |
| `Provision.ReplaySees` | internal/api/provision_idempotency.go:47-79 | A later request with the key changes nothing and gets the first one's identifiers, or a conflict exactly when it differs |
| `Provision.RefusedLeavesNoTrace` | internal/database/provision_requests.go:66-89 | A request that does not commit leaves the store as it was, with the key unclaimed |
| `Provision.AlwaysPaired` | internal/database/provision_requests.go:72-89 | In every state each claimed key has an instance and an operation of its own that belong together |
| `Provision.CommitmentAdds` | internal/database/database.go:80-105 | A node's commitment is its initial one plus one tier per provision created there plus other changes |
| `Provision.Database.ReserveIdempotentProvision` | internal/database/provision_requests.go:28-98 | The transaction for every outcome; every error but a failed commit leaves all four tables as they were |
| `Provision.Database.CompleteProvisionRequest` | internal/database/provision_requests.go:121-145 | Only the first response is stored; success means that the stored response equals the given one |
| `Provision.Database.ReplayIfPresent` | internal/api/provision_idempotency.go:66-79 | Answers exactly when the key is claimed: a conflict, the stored response, or the identifiers |
| `References.RenderTokenize` | internal/api/tier_env.go:17-17 | Splitting a value into text and references loses nothing |
| `References.EveryReferenceFound` | internal/api/tier_env.go:17-17 | Every `${NAME}` in a value is found as a reference, and the text around it is split independently |
| `EnvLayers.PlainAnywhere` | internal/api/tier_env.go:112-155 | Without cycles, what a key stands for does not depend on where it is referred to |
| `EnvLayers.OrderIndependentIffStable` | internal/api/tier_env.go:104-167 | A layer without reference cycles gives the same result for every iteration order if and only if each self-referring key that another key refers to is unchanged by resolving it on top of its own result |
| `EnvLayers.MemoisedIsPlain` | internal/api/tier_env.go:104-167 | For such layers, in particular for those without self-references, the memoised resolution equals plain recursive substitution for every order |
| `EnvLayers.ResolveIsPlain` | internal/api/tier_env.go:112-155 | In any layer without cycles one resolution is plain substitution, on top of the key's known value if it has one |
| `EnvLayers.MeaningBelow` | internal/api/tier_env.go:112-155 | Without cycles a reference is replaced by what the referred key itself resolves to |
| `EnvLayers.SelfReferenceDependsOnOrder` | internal/api/tier_env.go:157-164 | A layer whose result differs between two iteration orders |
| `EnvLayers.RunKeys` | internal/api/tier_env.go:157-166 | Whatever its references, cyclic or not, a layer defines exactly its own keys |
| `EnvLayers.Resolver.ResolveValue` | internal/api/tier_env.go:112-155 | The recursive closure terminates on every layer and computes the specified text and memo |
| `EnvLayers.ResolveLayer` | internal/api/tier_env.go:104-167 | The loop visits each key once, in some order, and merges the result over the base |
| `EnvLayers.BuildEnvironment` | internal/api/tier_env.go:19-27 | No layer adds or changes an ADMIRAL_ variable; every other declared name is present, and the tier's own values win |
| `Graphs.ReachesTransitive` | pkg/admiral/validation.go:345-379 | Paths compose |
| `Dependencies.ListedIsAcyclic` | pkg/admiral/validation.go:345-379 | A graph whose nodes can be listed after what they need has no cycle |
| `Dependencies.BackEdge` | pkg/admiral/validation.go:351-353 | Meeting a node that is on the stack exhibits a cycle |
| `Dependencies.CycleSearch.Visit` | pkg/admiral/validation.go:349-371 | A visit either finishes everything the node needs, in order, or there is a cycle; it terminates on every graph, closed or not |
| `Dependencies.ValidateDependencyCycles` | pkg/admiral/validation.go:345-379 | Accepts exactly the graphs without a cycle, for every iteration order |
| `Dependencies.ValidateServices` | pkg/admiral/validation.go:144-159 | Accepts exactly closed graphs without a cycle |
| `RateLimiter.WindowBound` | internal/api/middleware.go:188-209 | Calls less than a window apart are granted at most limit times per key between resets |
| `RateLimiter.WindowBoundTight` | internal/api/middleware.go:188-209 | Calls exactly a window apart can exceed the limit |
| `RateLimiter.LiveEntriesSurvive` | internal/api/middleware.go:235-248 | A call about another key drops no entry that is still within the window |
| `RateLimiter.RetryUnblocks` | internal/api/middleware.go:211-233 | A blocked key for which nothing is granted is free exactly from the expiry of its oldest entry; the returned wait reaches that moment and is exact above the one-second floor |
| `RateLimiter.Compact` | internal/api/middleware.go:237-242 | In-place compaction leaves exactly the live entries, in order, at the front |
| `RateLimiter.Limiter.RemoveExpired` | internal/api/middleware.go:235-248 | Compacting all buckets in place gives each its live entries and drops exactly the empty ones |
| `RateLimiter.Limiter.Allow` | internal/api/middleware.go:188-209 | Granted exactly when fewer than limit entries are live; the new state of all buckets |
| `RateLimiter.Limiter.IsBlocked` | internal/api/middleware.go:211-233 | Blocked exactly when limit entries are live, with the wait; nothing is counted; indexes an empty slice exactly for a limit below one and no live entry |
| `WindowLimiter.LimitPerWindow` | internal/database/ratelimit.go:14-71 | From the call that opens a window until it is over, at most limit calls are granted (the opening one even if the limit is below one) |
| `WindowLimiter.TwiceTheLimit` | internal/database/ratelimit.go:14-71 | Calls at most a window apart are granted at most twice what one window admits, between resets |
| `WindowLimiter.LeastWait` | internal/database/ratelimit.go:51-60 | After a refusal, and with nothing granted meanwhile, a call is granted exactly when it waits at least the returned seconds |
| `WindowLimiter.Limits.CheckRateLimit` | internal/database/ratelimit.go:14-71 | The answer and the new row for a first call, an expired window, a full one and a running one |
| `Addresses.OctetsRoundTrip` | internal/api/handlers_nodes.go:109-118 | Converting an address to uint32 and back gives the same octets |
| `Addresses.ValueRoundTrip` | internal/api/handlers_nodes.go:109-118 | Converting a uint32 to octets and back gives the same value |
| `Addresses.NetworkRange` | internal/api/handlers_nodes.go:57-64 | The addresses of a masked prefix are a contiguous run that does not wrap around in uint32 |
| `Addresses.Nested` | internal/config/config.go:330-335 | A longer prefix whose first address lies in a shorter one lies in it entirely |
| `Addresses.FindAvailable` | internal/api/handlers_nodes.go:120-134 | The first open offset from the preferred one on, or else the first before it; none only if all are taken |
| `Addresses.NextAssignment` | internal/api/handlers_nodes.go:30-89 | Succeeds exactly when a usable address other than the hub's is free; the result is usable, free, within uint32, and the preferred one if that is free |
| `Addresses.NextAssignments` | internal/api/handlers_nodes.go:91-107 | A worker and a portal address that differ, exactly when two addresses are free |
| `Addresses.NormalizeNetwork` | internal/config/config.go:318-367 | Accepts exactly private networks up to /31 with a usable hub |
| `Addresses.AcceptedIsPrivate` | internal/config/config.go:324-341 | Every address of an accepted network lies in a private range |
| `Addresses.EmptyFleetHasAddress` | internal/config/config.go:343-365 | An accepted network gives an empty fleet a worker address, and a portal address besides exactly from /29 on |

## Left out

- HTTP, JSON, YAML, TLS, S3 signing, the Caddy JSON shape, logging and audit records.
- Cryptography and token authentication; whether a callback's node is authentic is an input.
- A ledger equality over all instances: the code does not keep one (`RemovedAfterFailure`).
- Read-then-write races inside one callback, and administrative paths that skip the running-operation check.
- Rounding in commit limits and size parsing; limits are an arbitrary function of the totals.
- In a migration: nodes are not removed while it runs, other workloads release at most what they hold, backup callbacks report on their own records, and an operator does not enable or disable routes between the settlement of the operation and the coordinator's last write.
- The migration's own operation is part of the migration model and not of the dispatch protocol in `Fleet.dfy`.
- `Fleet.Handlers.HandleFleetCallback`: applies all instance, node and route effects of an accepted callback, or lets its queue write, its status write or the policy recompute fail; other failing effect writes, the dispatch of the cleanup after a failed setup, and backup records are not modelled.
- `Routes.Manager.ChangeStatus` and `Routes.Manager.DeleteRoute`: a lookup or first row write that fails leaves everything as it was and is not modelled.
- A done reply to a migration task means that its operation was reported as succeeded; what a worker does on its node is not modelled, and a task without a done reply may still have happened.
- Workers report only on operations that were handed out to one of them.
- The queue's leased_by column, payload sealing and signatures, and result texts.
- The order in which evaluations are listed to a client, and the wording of rejection reasons.
- The policy recompute of portal nodes.
- Node names in known-host assignments, which are numbered apart from addresses.
- Floating-point windows of the fixed-window limiter; windows are whole seconds.
- Order independence of environment layers with reference cycles: only termination, the keys defined and the ADMIRAL_ frame are proved there.
- `MigrationWorld.LawfulEverywhere`: the clause on the assigned node's reservation excepts assignments whose reply was lost, exactly as far as `UncoveredIffAssignmentLost` and `AlwaysCovered` show.
- `MigrationWorld.StartableSafe`: assumes that the nodes' counters cover what is held on them; after an earlier double release they may not, and then a release is clamped at zero.
- Slices other than the limiter's buckets are sequences; only the compaction is modelled on arrays.
