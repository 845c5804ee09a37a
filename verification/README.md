# Verified model of the AI OS runtime core

This project models the parts of AI OS that decide whether an operation may run, and proves what they
promise: the Task supervisor with its approval protocol and audit log, restart from that log, the
execution gates, the Agent runtime on top of them, the two event stores, and three self-contained
pieces: the system-call filter, the root filesystem measurement and capability paths.
`dafny verify dfyconfig.toml` checks the whole project.

## How it is built

Each component of the protocol appears twice: as functions on a value that holds the whole state
(`Supervision`, `Gate`, `Recovery`, the `Authority` of `Approval`, `Record` in `Stores`), and as a class
whose methods update fields with the source's branches and loops (`SupervisorObject`, `GateObject`,
`ApprovalAuthority`, the two event stores). Every method is proved equal to the function that specifies
it, and the properties of whole runs are proved about the functions. The Agent runtime is a class on
top of those, with its promises in its contracts.

- Clock readings, drawn identifiers, the model's decisions, catalogs and adapters are arbitrary.
  Identifiers are UUIDv7 values (section 5.7 of RFC 9562); they are assumed not to repeat, and the
  supervisor's state records those drawn so far.
- The backend may refuse any batch. The audit log carries a plan of refusals, every theorem holds for
  all plans, and a refused batch leaves no trace.
- Times are in nanoseconds, and integers are unbounded. The width of a machine integer is written out
  where the source checks it.

The proof of the protocol goes through moves. Ten primitive moves each change one Task and add one
batch to one log (`Moves`). Every call is a chain of moves (`Calls`). One invariant over all maps
and logs is kept by each move (`Soundness`, `SoundSteps`), and so by every call and run (`Runs`).
`Replaying` says which move breaks a log, `Synchrony` that orderly runs contain none, and `Sweeps`
and `Corruption` exactly which calls do; `Coherence` says event by event which logs replay. `Policy`
restates the capability policy by a specification's lists, and `Answers` and `GateAnswers` what
every supervisor and gate call answers and records, by those lists, the Task states, the deadlines
and what the backend will take. `Lingering`, `Scopes` and `Subsidence` follow approved operations,
specifications and releases. `GateCalls` and `GateSafety` prove agreement and exactly-once execution
for any number of gates on one supervisor, `GateBound` and `GateSurplus` how much gates can retain,
`GateRuns` that gated runs are orderly supervisor runs, and `Decisions` exactly what approving and
denying through a gate leave. Every method of the Agent runtime returns, as ghost evidence, the
gated run it made, so all of that applies to it. Runs that exhibit a behaviour are in `Disorder` and
`LateSessions`, put together from the steps in `Scenarios`.

A run is *orderly* if `start` is not applied to a Task that waits for approval. A run is *gated* if
operations are requested and approved only through gates, and it is orderly.

## Where the code and its documentation differ

The model follows the code.

- docs/local-api.md:116 describes `start` as moving a queued Task to running, but the lifecycle also
  accepts a waiting one (crates/aios-core/src/state.rs:42). The start time is then rewritten and the
  pending operation stays; every log still replays, until the operation is denied or expires while the
  Task runs. `Disorder.RestartBreaksReplay` is such a run, `Corruption.StepReplaysIff` and
  `Corruption.RunReplaysIff` say exactly which calls and runs break a log, and
  `Corruption.OrphansIffRestart` exactly which call separates approvals from waiting Tasks. A store with
  a broken log can never be recovered (`Recovery.RunsAreRecoverable`).
- crates/aios-runtime/src/execution.rs:83-84 says that the approval authority bounds a gate. It does
  not: `GateSurplus.GateOutgrowsAuthority` gives runs whose gate holds more than the limit.
  `GateBound.RetainedCount` says by how much it can be exceeded, and `GateBound.GatesAreBoundedByTasks`
  is the bound that holds.
- `deny_operation` and `expire_approvals` leave approved operations of the failed Task behind:
  `Disorder.DenialLeavesApproved` is such a run and `Lingering.CallLingersIff` the exact condition. They
  are dead, as `Runs.TerminalIsFinal` shows, and do not exist in gated runs (`GateSafety.GatesAgree`).
- `AgentRuntime::expire` promises to drop a session whose Task became terminal, but keeps it, and fails,
  if the Task had ended before the call or if the sweep ends it and is refused later. The contract of
  `Agent.AgentRuntime.Expire` states that exactly. `Agent.AgentRuntime.CancelBehindTheRuntime` makes the
  first happen; `Disorder.SweepFailsMidway` is a reachable supervisor state, without a runtime, that
  meets the second, in which a session of that Task would be kept.
- A session kept between calls need not have a pending approval. A decision that comes too late answers
  NotFound and keeps the session of a Task that its own sweep has failed (`Decisions.LateDecision`,
  `LateSessions.LateDecisionStrands`). A grant that is not used, because it expires or the backend
  refuses, keeps a session of a running Task whose operation the gate has dropped
  (`LateSessions.LateUseStrands`). `Decisions.ApprovalOutcome` and `Decisions.DenialOutcome` give the exact
  conditions, and the contracts of `ApproveAndResume`, `Deny` and `Expire` carry them over to sessions.
- `AgentRuntime::deny` answers ToolFailed or NetworkFailed, and keeps session and Task as they are, if
  and only if the gate no longer retains the operation, as the contract of `Agent.AgentRuntime.Deny`
  states. `LateSessions.LateUseStrands` leads to such a session.
- The root filesystem stream records `mode & 0o777` only, so trees that differ in set-user-id,
  set-group-id or sticky bits are not told apart (`RootfsDigest.SpecialBitsAreInvisible`).

## Model

| member | source | states |
|---|---|---|
| `Runs.ReplayRefinesLiveState` | crates/aios-storage-sqlite/src/lib.rs:261-335 | After every orderly run of supervisor calls from an empty store, whatever batches the backend refuses, replaying each Task's log gives exactly the state held in memory and is never broken. |
| `Synchrony.StepSynced` | crates/aios-runtime/src/supervisor.rs:361-945 | One orderly call in any sound and synchronous state keeps soundness and synchrony of all Tasks, recovered ones included. |
| `Corruption.StepReplaysIff` | crates/aios-runtime/src/supervisor.rs:361-945 | From a sound state whose logs all replay to the state in memory, a call keeps that if and only if it does not close, by a denial or a sweep that the backend takes, the pending operation of a running Task, which is said of the state before the call by Task states, deadlines, the sweep's clock reading, log lengths and the backend's plan; otherwise a log is broken. |
| `Corruption.RunReplaysIff` | crates/aios-storage-sqlite/src/lib.rs:261-335 | After any run, orderly or not, every log replays to the state in memory if and only if no call of the run was of that kind; otherwise a log stays broken. |
| `Corruption.SweepOutcome` | crates/aios-runtime/src/supervisor.rs:762-800 | The expiry sweep breaks a log exactly if it reaches, with the backend taking every batch so far, an expired operation whose Task is running. |
| `Corruption.DenyOutcome` | crates/aios-runtime/src/supervisor.rs:663-708 | After the sweep, a denial breaks a log exactly if the operation's Task is running and the backend takes the batch. |
| `Corruption.OrphansIffRestart` | crates/aios-runtime/src/supervisor.rs:448-456 | A call separates pending approvals from waiting Tasks if and only if it restarts a waiting Task and the backend takes the transition. |
| `Replaying.MoveReplaysIff` | crates/aios-storage-sqlite/src/lib.rs:277-325 | Of the ten primitive moves only closing the pending operation of a running Task breaks a log, and it always does; restarts and all other moves keep every log replaying. |
| `Replaying.CloseReplaysIffWaiting` | crates/aios-storage-sqlite/src/lib.rs:306-309 | Denying or expiring a pending operation leaves all logs replaying if its Task was waiting, and a broken log otherwise. |
| `Replaying.CorruptionIsPermanent` | crates/aios-storage-sqlite/src/lib.rs:261-335 | No continuation of a broken log replays. |
| `Coherence.ReplaysIffCoherent` | crates/aios-storage-sqlite/src/lib.rs:261-335 | A log replays if and only if it begins with the submission and every later event may happen in the state of the last transition before it, by literal lists of transitions and states, the code of a failure being followed by the transition to Failed and by nothing else; it then replays to its last transition's state. Any other event makes it corrupt. |
| `Disorder.RestartBreaksReplay` | crates/aios-core/src/state.rs:42-42 | A run of five accepted calls from the empty supervisor: `start` is accepted in WaitingApproval, rewrites the start from 7 to 8, and the later denial leaves a log that replay rejects. |
| `Sweeps.SweepSucceedsIff` | crates/aios-runtime/src/supervisor.rs:762-800 | A sweep succeeds if and only if the backend takes every batch; then the swept approvals are gone and every other pending operation and its Task stand as before. |
| `Sweeps.SweepRecords` | crates/aios-runtime/src/supervisor.rs:762-800 | A sweep fails a Task if and only if the backend takes the batches up to that of its pending operation; otherwise the Task's record stays; approved operations all stay. |
| `Lingering.CallLingersIff` | crates/aios-runtime/src/supervisor.rs:698-703 | A call leaves an approved operation at a Task that has ended if and only if it closes, by denial or sweep and taken by the backend, the pending operation of a Task that has an approved one. |
| `Lingering.MoveLingersIff` | crates/aios-runtime/src/supervisor.rs:791-796 | The same for the primitive moves. |
| `Lingering.CloseKeepsApproved` | crates/aios-runtime/src/supervisor.rs:698-703 | Denial and expiry end the Task and leave its approved operations exactly as they were. |
| `Lingering.FinishClearsApproved` | crates/aios-runtime/src/supervisor.rs:931-945 | Success, failure and cancellation leave no approved operation of the Task. |
| `Disorder.DenialLeavesApproved` | crates/aios-runtime/src/supervisor.rs:663-708 | A run of six accepted calls from the empty supervisor that ends with a failed Task and its approved operation still there. |
| `Runs.StepSound` | crates/aios-runtime/src/supervisor.rs:361-945 | Every call, with every pattern of refusals, keeps the invariant that ties tasks, idempotency index, logs, authority, pending and approved operations and approval life cycles together. |
| `Runs.ApprovalMapsStayInStep` | crates/aios-runtime/src/supervisor.rs:556-599 | In every orderly run a Task waits exactly when it has a pending operation, and then only one; supervisor and authority hold the same approvals for the same Tasks and operations; the authority's index is the exact inverse of its pending map, within the limit. |
| `Runs.TerminalIsFinal` | crates/aios-core/src/state.rs:23-44 | Once a Task, live or recovered, is in a final state no continuation changes its record or its log, it has no pending operation, and `authorize_operation` refuses every operation of it without effect, even if an approved entry lingers. |
| `Runs.TerminalTransitionEndsLog` | crates/aios-runtime/src/supervisor.rs:868-900 | In every run a log that holds a terminal transition ends with it. |
| `Recovery.TerminalSurvivesRestarts` | crates/aios-runtime/src/supervisor.rs:279-325 | Through any number of lives and after any run, a log that holds a terminal transition ends with it, recovered Tasks included. |
| `Runs.LifeCyclesHold` | crates/aios-runtime/src/supervisor.rs:909-945 | In every run each approval identifier follows, in one log only, Requested, then Denied, Expired, Revoked or Granted, then at most one Consumed or Revoked. |
| `Runs.ConsumedMeansGranted` | crates/aios-runtime/src/supervisor.rs:727-758 | In a log with that life cycle a consumption is preceded by a request and a grant of the same operation, and is the only consumption of its approval. |
| `Runs.WallTimeNeverResets` | crates/aios-runtime/src/supervisor.rs:173-175 | Along every orderly run, across approval waits, a later reading of the remaining wall time is the earlier one less the time between, or zero once that is used up. |
| `Runs.WallTimeChecksAgree` | crates/aios-runtime/src/supervisor.rs:503-516 | At any instant `wall_time_exceeded` holds exactly if the context's remaining time is zero. |
| `Runs.WallTimeIsExact` | crates/aios-runtime/src/supervisor.rs:173-175 | For a running or waiting Task started at b the wall time is exceeded if and only if the instant is at least b plus the budget's seconds (or the budget is zero); for a running one, remaining plus elapsed time is the budget until then, and zero is left from then on. |
| `Runs.WallTimeStaysExceeded` | crates/aios-runtime/src/supervisor.rs:503-516 | Along every orderly run, once exceeded at an instant the wall time is exceeded at every later one at which the Task is active, and nothing is left. |
| `Runs.RunKeepsStart` | crates/aios-runtime/src/supervisor.rs:448-456 | In an orderly run `started_at` is written once per Task. |
| `Runs.ResubmissionIsIdempotent` | crates/aios-runtime/src/supervisor.rs:361-377 | In every sound state a used key is answered without effect: with its own Task for an equal specification, as a conflict otherwise. |
| `Answers.RequestAnswers` | crates/aios-runtime/src/supervisor.rs:519-602 | After a successful sweep, for a running Task: permitted, refused with its reason, or asked for approval if and only if the Task's own capabilities say so and the backend takes the record, which is OperationAllowed, OperationDenied(reason), or ApprovalRequested with the transition; an approval is asked for only within the limits, and the answer names it, its action and its milliseconds. The whole new state and every error are given, said without the policy's own functions. |
| `Answers.AuthorizeAnswers` | crates/aios-runtime/src/supervisor.rs:711-759 | A receipt is issued if and only if the Task runs, the operation is approved for it with exactly that request, the deadline has not come and the backend takes one event; it is that approval's. Whenever the Task runs the operation is not approved afterwards, whatever the answer. Errors and new state are given. |
| `Answers.SubmitAnswers` | crates/aios-runtime/src/supervisor.rs:378-432 | Under a new key: refused at the limit; queued if and only if the specification is well-formed, rejected with the number of errors otherwise, with the exact record. |
| `Answers.StartAnswers` | crates/aios-runtime/src/supervisor.rs:448-456 | Succeeds if and only if the Task is queued or waiting and the backend takes the transition; the Task then runs from that instant on. |
| `Answers.EndAnswers` | crates/aios-runtime/src/supervisor.rs:802-836 | `succeed`, `fail`, `fail_budget_exceeded` and `cancel` succeed from exactly the states named and if the backend takes the batch, which revokes each approval of the Task by one event, records the failure code (BudgetExceeded in one of them, none in the others) and the transition to Succeeded, Failed or Cancelled; nothing of the Task stays in the approval maps; cancelling an ended Task answers false without effect. |
| `Answers.ApproveAnswers` | crates/aios-runtime/src/supervisor.rs:608-660 | After the sweep: approving moves exactly that operation, with its request and deadline, from pending to approved and its Task to running, with the exact record and answer; otherwise the error of each case, and nothing changes. |
| `Answers.DenyAnswers` | crates/aios-runtime/src/supervisor.rs:666-708 | After the sweep: denying fails the Task with a record of the denial and removes the approval from all pending maps; otherwise the error of each case, and nothing changes. |
| `Answers.ExpireAnswers` | crates/aios-runtime/src/supervisor.rs:762-800 | A successful sweep answers how many approvals were due; each is gone and recorded, with the failure, in its Task's log. It fails only by the backend. |
| `Scopes.StoredSpecsStayValid` | crates/aios-runtime/src/supervisor.rs:535-543 | After any run no request or authorization trips over a stored specification that is no longer valid: the two `expect` calls never fire. |
| `Calls.StepReaches` | crates/aios-runtime/src/supervisor.rs:361-945 | Every call decomposes into primitive moves, each changing one Task and adding one batch to one log; only `start` starts. |
| `Moves.MoveSound` | crates/aios-runtime/src/supervisor.rs:361-945 | Each of the ten primitive moves keeps the invariant. |
| `Subsidence.StepSubsides` | crates/aios-runtime/src/supervisor.rs:663-857 | Calls other than request, approve and authorize only remove approvals, each with its Task ended, and release no operation. |
| `Calls.RequestRollsBack` | crates/aios-runtime/src/supervisor.rs:556-599 | A failing approval request leaves the swept state identical, apart from the backend having been asked. |
| `Calls.RequestOpens` | crates/aios-runtime/src/supervisor.rs:556-599 | A successful one adds exactly one approval to the authority and the supervisor and makes the Task wait. |
| `Calls.ApproveRollsBack` | crates/aios-runtime/src/supervisor.rs:624-638 | A failing approval leaves the swept state identical: a refused batch restores the grant with its deadline. |
| `Calls.ApprovePromotes` | crates/aios-runtime/src/supervisor.rs:640-660 | A successful one moves exactly that operation from pending to approved and its Task from waiting to running. |
| `Approval.RequestIsAllOrNothing` | crates/aios-runtime/src/approval.rs:167-208 | An authority request succeeds exactly under its five conditions, then inserts one entry and answers with its identifiers, action and whole milliseconds; otherwise nothing changes, and the conversion after the insertion cannot fail. |
| `Approval.RevokeUndoesRequest` | crates/aios-runtime/src/approval.rs:253-282 | Revoking what was just requested gives back the identical maps. |
| `Approval.RestoreUndoesApprove` | crates/aios-runtime/src/approval.rs:118-131 | Restoring a grant gives back the identical maps, deadline included. |
| `Approval.GrantIsScoped` | crates/aios-runtime/src/approval.rs:97-112 | A grant authorizes exactly its own Task, operation and action before its deadline; after it, Expired is the error whatever the scope. |
| `Approval.PurgeKeepsTheUnexpired` | crates/aios-runtime/src/approval.rs:265-275 | Purging keeps exactly the requests whose deadline has not passed, and the maps inverse. |
| `Approval.InsertStaysConsistent` | crates/aios-runtime/src/approval.rs:188-206 | Inserting a fresh request keeps the two maps inverse and within the limit. |
| `Approval.ApprovalAuthority.New` | crates/aios-runtime/src/approval.rs:150-164 | Refuses exactly the configurations outside the limits. |
| `Approval.ApprovalAuthority.Request` | crates/aios-runtime/src/approval.rs:167-208 | The mutable authority computes the request function of its maps. |
| `Approval.ApprovalAuthority.Approve` | crates/aios-runtime/src/approval.rs:211-228 | The same for approval: the deadline is checked before the entry leaves. |
| `Approval.ApprovalAuthority.Deny` | crates/aios-runtime/src/approval.rs:231-242 | Succeeds exactly for a pending request before its deadline and then removes it alone; otherwise NotFound or Expired. |
| `Approval.ApprovalAuthority.Remove` | crates/aios-runtime/src/approval.rs:277-282 | Removes the entry and its index key together. |
| `Approval.ApprovalAuthority.Restore` | crates/aios-runtime/src/approval.rs:118-131 | Puts a grant back under its identifier and key. |
| `Approval.ApprovalAuthority.PendingCount` | crates/aios-runtime/src/approval.rs:244-275 | Purges in a loop and counts what remains. |
| `SupervisorObject.TaskSupervisor.Default` | crates/aios-runtime/src/supervisor.rs:330-341 | An empty supervisor over the store with the default limit. |
| `SupervisorObject.TaskSupervisor.WithMaxTasks` | crates/aios-runtime/src/supervisor.rs:343-358 | Refuses a limit of zero, otherwise an empty supervisor over the store. |
| `SupervisorObject.TaskSupervisor.Submit` | crates/aios-runtime/src/supervisor.rs:361-432 | The mutable supervisor computes the submission function of its whole state. |
| `SupervisorObject.TaskSupervisor.Start` | crates/aios-runtime/src/supervisor.rs:448-456 | The same for `start`, which also rewrites the start time. |
| `SupervisorObject.TaskSupervisor.RequestOperation` | crates/aios-runtime/src/supervisor.rs:519-602 | The same for `request_operation`, sweep and rollback included. |
| `SupervisorObject.TaskSupervisor.ApproveOperation` | crates/aios-runtime/src/supervisor.rs:605-660 | The same for `approve_operation`. |
| `SupervisorObject.TaskSupervisor.DenyOperation` | crates/aios-runtime/src/supervisor.rs:663-708 | The same for `deny_operation`, which leaves approved operations in place. |
| `SupervisorObject.TaskSupervisor.AuthorizeOperation` | crates/aios-runtime/src/supervisor.rs:711-759 | The same for `authorize_operation`: the approved entry is gone whatever the outcome. |
| `SupervisorObject.TaskSupervisor.ExpireApprovals` | crates/aios-runtime/src/supervisor.rs:762-800 | The loop over expired approvals computes the sweep: it stops at the first failure and counts what it closed. |
| `SupervisorObject.TaskSupervisor.Cancel` | crates/aios-runtime/src/supervisor.rs:826-836 | The same for `cancel`. |
| `SupervisorObject.TaskSupervisor.Transition` | crates/aios-runtime/src/supervisor.rs:849-857 | The same for `succeed`, `fail` and the other transitions. |
| `SupervisorObject.TaskSupervisor.ApplyTransition` | crates/aios-runtime/src/supervisor.rs:868-900 | Writes revocations, failure code and transition as one batch before touching any map. |
| `SupervisorObject.TaskSupervisor.RevocationEvents` | crates/aios-runtime/src/supervisor.rs:909-929 | Collects the revocations of all pending, then all approved operations of the Task, each in map order. |
| `SupervisorObject.TaskSupervisor.InvalidateApprovals` | crates/aios-runtime/src/supervisor.rs:931-945 | Removes all pending and approved operations of the Task from all maps, and no others. |
| `SupervisorObject.TaskSupervisor.WallTimeExceeded` | crates/aios-runtime/src/supervisor.rs:503-516 | Computes the wall-time check for running and waiting Tasks. |
| `SupervisorObject.TaskSupervisor.RemainingWallTime` | crates/aios-runtime/src/supervisor.rs:482-500 | Computes the remaining time of an execution context. |
| `Recovery.RecoverCloses` | crates/aios-runtime/src/supervisor.rs:279-325 | A successful recovery leaves the logs whose last transition is to a final state unchanged, extends every other log by exactly TaskFailed(RuntimeRestarted) and the transition to Failed, holds for every Task that final state, and has no live Task, key or approval. |
| `Recovery.RecoverSucceedsIff` | crates/aios-runtime/src/supervisor.rs:279-325 | With a backend that refuses only full logs, recovery succeeds if and only if the limit is not zero, the store can be read, every log replays, the Tasks fit and every open log has room for two events. |
| `Recovery.RecoverAnswers` | crates/aios-runtime/src/supervisor.rs:279-325 | The error of each case in order: limit zero, read fault, a log that is not coherent (Corrupt), too many Tasks, each leaving the store as it was; otherwise a batch the backend refused. |
| `Recovery.RecoverTwice` | crates/aios-runtime/src/supervisor.rs:301-321 | After a successful recovery a second one appends nothing and recovers the same, whatever the backend would do. |
| `Recovery.RecoverIsCrashSafe` | crates/aios-runtime/src/supervisor.rs:307-322 | However recovery ends, the restarted form of every log is unchanged: stopping after any Task and running again leads to the same logs. |
| `Recovery.RecoveredIsSound` | crates/aios-runtime/src/supervisor.rs:279-325 | A supervisor recovered from the store of a sound one, after any number of failed attempts, satisfies the invariants of runs. |
| `Recovery.RunsAreRecoverable` | crates/aios-storage-sqlite/src/lib.rs:72-96 | After any run, orderly or not, every log of the store replays if and only if no call of the run closed the pending operation of a running Task; if one did, every later recovery of that store fails as Corrupt and leaves it as it is. |
| `Recovery.EraIsSound` | crates/aios-runtime/src/supervisor.rs:279-325 | A run, any number of interrupted recoveries and a successful one end with exactly the restarted logs of the run. |
| `Recovery.ReplaySurvivesRestarts` | crates/aios-runtime/src/supervisor.rs:279-325 | Through any number of lives of a supervisor, replay of every live Task's log gives its state in memory and the store can be recovered again. |
| `SupervisorObject.TaskSupervisor.Recover` | crates/aios-runtime/src/supervisor.rs:279-325 | The mutable form, with its loop over interrupted Tasks, computes that recovery. |
| `SnapshotRecovery.RecoverSnapshot` | crates/aios-storage-sqlite/src/lib.rs:261-335 | The loop with its three variables yields a snapshot if and only if the events are numbered 1, 2, 3 and so on, do not exhaust the range and replay to a state, which is then the snapshot's; shorter faulty logs are Corrupt. |
| `SnapshotRecovery.RecoverTaskSnapshots` | crates/aios-storage-sqlite/src/lib.rs:72-96 | One snapshot per Task of the table, in order, if and only if no query fails and every log replays. |
| `Stores.RecordRefinesAppend` | crates/aios-runtime/src/event.rs:198-234 | Recording a batch keeps every log numbered from 1 without gaps within the limit and is the append of the supervisor's audit log. |
| `Stores.InMemoryEventStore.New` | crates/aios-runtime/src/event.rs:176-186 | Refuses a limit of zero. |
| `Stores.InMemoryEventStore.AppendBatch` | crates/aios-runtime/src/event.rs:198-234 | Numbering by length records the whole batch or nothing; the machine-width checks never fail. |
| `Stores.InMemoryEventStore.List` | crates/aios-runtime/src/event.rs:236-248 | The filter by sequence is the exact suffix after the cursor. |
| `Stores.SqliteEventStore.AppendBatch` | crates/aios-storage-sqlite/src/lib.rs:145-209 | Numbering by the greatest sequence inserts the whole numbered batch or leaves the table unchanged, with the error of each case: backend fault, capacity, signed range. |
| `Stores.SqliteEventStore.List` | crates/aios-storage-sqlite/src/lib.rs:211-252 | The ordered query is the exact suffix for cursors in the signed range. |
| `Stores.DriveBoth` | crates/aios-storage-sqlite/src/lib.rs:145-252 | For every sequence of batches from empty, without backend faults, both stores give the same answers, the same numbering and the same suffixes. |
| `GateSafety.ExactlyOnceExecution` | crates/aios-runtime/src/execution.rs:106-176 | In every gated run each Task's adapter calls are, one by one and in order, the OperationAllowed and ApprovalConsumed events in its log: each call's request is covered by the Task's specification, and its event is the consumption of an approval exactly if the specification requires one; every executed value was given to `request` for that Task, none was executed twice and none retained has been executed. |
| `GateSafety.GatesAgree` | crates/aios-runtime/src/execution.rs:85-89 | In every gated run each gate's maps are inverse, every pending approval sits in exactly one gate with an equal request, any other entry belongs to an ended Task, no Task has two entries and no grant is outstanding. |
| `GateSafety.ExpireLeavesOnlyLive` | crates/aios-runtime/src/execution.rs:195-202 | After a successful `expire` the gate holds only operations that are pending in the supervisor. |
| `GateSafety.ConsumingFailsOnlyByExpiryOrRefusal` | crates/aios-runtime/src/execution.rs:160-168 | After the gate's approval succeeded, consuming fails exactly if the grant has expired meanwhile or the audit batch is refused; otherwise the retained operation is executed. NotFound, ScopeMismatch and TaskNotRunning do not occur. |
| `GateAnswers.RequestReportsAdapter` | crates/aios-runtime/src/execution.rs:117-126 | For every adapter: if `request` hands the operation to it, the answer is AdapterFailed with its error exactly if it answered one, and Executed otherwise; if not, the answer does not depend on the adapter. |
| `GateAnswers.ApprovalReportsAdapter` | crates/aios-runtime/src/execution.rs:160-176 | The same for `approve_and_execute`, which hands over exactly the retained operation. |
| `GateAnswers.RequestTurns` | crates/aios-runtime/src/execution.rs:106-143 | For a running Task after a successful sweep: executed if and only if its capabilities cover the request without approval, denied with the reason if they do not cover it, retained under the answered approval if and only if they want one and it can be asked for; otherwise a supervisor error, and the gate is as it was. |
| `GateAnswers.CancelTurns` | crates/aios-runtime/src/execution.rs:205-213 | Success answers whether the Task was open, leaves it ended as Cancelled in that case, and leaves the gate with exactly the operations of other Tasks; an error leaves the gate as it was. |
| `GateAnswers.ExpireTurns` | crates/aios-runtime/src/execution.rs:195-202 | Success answers the number of approvals due and leaves the gate with exactly the operations of Tasks that have not ended. |
| `GateSafety.GateStepIsSafe` | crates/aios-runtime/src/execution.rs:106-213 | Every gate call and every direct supervisor call that neither requests nor approves keeps agreement and accounting. |
| `GateRuns.GateRunIsRun` | crates/aios-runtime/src/execution.rs:106-213 | Every gated run is an orderly run of supervisor calls. |
| `GateRuns.GateRunKeepsStart` | crates/aios-runtime/src/supervisor.rs:448-456 | In every gated run `started_at` is written once per Task. |
| `GateBound.RetainedCount` | crates/aios-runtime/src/execution.rs:83-84 | In every gated run the gates together retain one operation per pending approval and one per unpurged ended Task: within the authority's limit whenever no retained Task has ended. |
| `GateBound.EntryIsPendingIff` | crates/aios-runtime/src/execution.rs:128-141 | A retained operation is pending in the supervisor if and only if its Task has not ended. |
| `GateBound.GatesAreBoundedByTasks` | crates/aios-runtime/src/execution.rs:83-84 | The gates together retain at most one operation per Task. |
| `GateSurplus.GateOutgrowsAuthority` | crates/aios-runtime/src/execution.rs:83-84 | For every count up to 26 cubed a gated run from the empty supervisor, its clock never going back, after which one gate retains that many operations and nothing is pending; 1025 exceeds the authority's limit. |
| `Gate.DropEachIsWithout` | crates/aios-runtime/src/execution.rs:229-242 | Removing a Task's operations one by one removes exactly them and their index entries. |
| `Gate.WithoutEachIsWithout` | crates/aios-runtime/src/execution.rs:244-258 | Removing ended Tasks one by one, in any order and with repetitions, removes them all and nothing else. |
| `GateObject.ExecutionGate.Request` | crates/aios-runtime/src/execution.rs:106-143 | The mutable gate computes the request function of gate and supervisor and calls the adapter exactly when that says so. |
| `GateObject.ExecutionGate.ApproveAndExecute` | crates/aios-runtime/src/execution.rs:146-176 | The same for `approve_and_execute`: the entry leaves before the grant is consumed. |
| `GateObject.ExecutionGate.Deny` | crates/aios-runtime/src/execution.rs:179-192 | The same for `deny`. |
| `GateObject.ExecutionGate.Expire` | crates/aios-runtime/src/execution.rs:195-202 | The same for `expire`, with its purge. |
| `GateObject.ExecutionGate.Cancel` | crates/aios-runtime/src/execution.rs:205-213 | The same for `cancel`. |
| `GateObject.ExecutionGate.RemoveTask` | crates/aios-runtime/src/execution.rs:229-242 | The removal loop drops exactly the Task's operations. |
| `GateObject.ExecutionGate.PurgeTerminal` | crates/aios-runtime/src/execution.rs:244-258 | The two loops drop exactly the operations of ended Tasks. |
| `Agent.AgentRuntime.New` | crates/aios-agent/src/lib.rs:40-52 | Accepts exactly the configurations within the limits. |
| `Agent.AgentRuntime.Drive` | crates/aios-agent/src/lib.rs:553-718 | Terminates on the remaining steps; `decide` is called with 1, 2, 3 and so on, at most `max_steps` times a session. Every round but the last was within wall time and steps, before and after the decision, and its operation was done by the adapter; the last round determines the result: BudgetExceeded, StepLimitExceeded, ModelFailed, InvalidDecision, the adapter's error, denial, approval wait or completion. Completed means Succeeded, Denied means Failed, waiting means WaitingApproval with that approval pending and its operation retained; reported failures mean Failed with the session dropped; the whole call is a gated run. |
| `Agent.AgentRuntime.Consult` | crates/aios-agent/src/lib.rs:558-606 | Asks for a decision exactly within the wall time and the steps, and goes on exactly if there is one and the wall time has not run out meanwhile; otherwise the Task is failed and the error is that of the first condition missed. |
| `Agent.AgentRuntime.Submit` | crates/aios-agent/src/lib.rs:622-627 | Hands the prepared value to the gate under the Task; the adapter is called at most once, its answer is the outcome, and executing, denying and asking for approval are what the Task's specification says of the request. |
| `Agent.AgentRuntime.Perform` | crates/aios-agent/src/lib.rs:622-661 | Goes on exactly if the adapter did the operation; LimitReached ends with BudgetExceeded and another failure with that adapter's error, the Task failed and the session dropped; without an adapter call it is a denial, an approval wait or a supervisor error. |
| `Agent.AgentRuntime.Start` | crates/aios-agent/src/lib.rs:363-417 | The same for a new session, also of a Task that was waiting, whose restart then precedes the gated run; a session that cannot be created is ModelFailed; a busy runtime refuses and changes nothing. |
| `Decisions.GrantedIff` | crates/aios-runtime/src/supervisor.rs:605-660 | `approve_operation` succeeds if and only if, in the state before the call, the backend takes every batch of the sweep, which does not include the approval, the Task waits, the deadline has not come and the backend takes the grant. |
| `Decisions.ApprovalOutcome` | crates/aios-runtime/src/execution.rs:146-176 | For every clock and backend, of a retained operation: it is executed exactly if the approval goes through and the deadline and the backend, as they were before the call, allow the use; the approval is pending afterwards exactly if it was, the sweep did not close it and it was not granted; the gate drops the operation exactly if it was granted; the Task has ended exactly if it had or the sweep closed it. |
| `Decisions.DeniedIff` | crates/aios-runtime/src/supervisor.rs:663-708 | `deny_operation` succeeds if and only if the state before the call says that it closes the operation; the other approvals are as the sweep left them. |
| `Decisions.DenialOutcome` | crates/aios-runtime/src/execution.rs:179-192 | The same for a gate denial: when it succeeds, when the approval is still pending, when the gate has dropped the operation and when the Task has ended. |
| `Decisions.LateDecision` | crates/aios-runtime/src/execution.rs:146-192 | Approving or denying an expired approval, every batch of the sweep being taken, answers NotFound; the gate keeps the operation, the approval is gone and the Task has ended. |
| `LateSessions.LateDecisionStrands` | crates/aios-agent/src/lib.rs:420-490 | A run of three accepted calls, its clock never going back, after which a decision at the deadline leaves an ended Task, no pending approval and the operation in the gate: the session that asked is kept. |
| `LateSessions.LateUseStrands` | crates/aios-agent/src/lib.rs:437-490 | The same run and an approval in time whose grant expires before it is used: the Task runs, nothing is pending, the gate has dropped the operation, and denying it then answers OperationNotFound without effect. |
| `Agent.AgentRuntime.ApproveAndResume` | crates/aios-agent/src/lib.rs:420-466 | The same for a resumed session, whose step count goes on if the adapter did the operation; an adapter that did not ends it with BudgetExceeded or its own error. The session is kept as it was exactly if the operation was retained and the approval does not go through or its grant is not used, said of the state before the call; then its approval is live exactly if it was, the sweep did not close it and it was not granted. A session whose operation is not retained is dropped; any other approval is InvalidState without effect. |
| `Agent.AgentRuntime.Deny` | crates/aios-agent/src/lib.rs:469-490 | The error is the adapter's if and only if the gate no longer retains the operation, and then nothing changes. For a retained one: success, with the Task failed and the session dropped, exactly if the denial closes the operation in the state before the call; otherwise the session is kept, with a live approval exactly if it was live and the sweep did not close it. |
| `Agent.AgentRuntime.Expire` | crates/aios-agent/src/lib.rs:493-515 | A session over its wall time is dropped with an error, BudgetExceeded meaning Failed, and that error has no other cause; a successful call answers the number of approvals swept and drops the session exactly if its Task has ended; the session of an ended Task is kept if and only if the Task had ended before the call, or the wall time is not exceeded and the call's own sweep closes its operation and is refused later. A live approval of a kept session stays live exactly if the Task has not ended. |
| `Agent.AgentRuntime.CancelBehindTheRuntime` | crates/aios-agent/src/lib.rs:497-499 | From every suspended session: cancelling the Task at the supervisor and then expiring keeps the session of an ended Task. |
| `Disorder.SweepFailsMidway` | crates/aios-agent/src/lib.rs:505-506 | A run of six accepted calls from the empty supervisor to a supervisor state in which the sweep ends one Task and is then refused, which is the second condition of `Expire`. |
| `Agent.AgentRuntime.Cancel` | crates/aios-agent/src/lib.rs:518-546 | Succeeds exactly if the supervisor cancels, and then the runtime is idle and the gate retains nothing of the Task. |
| `Agent.AgentRuntime.FailActive` | crates/aios-agent/src/lib.rs:767-785 | Drops the session first; fails the Task at the supervisor, as over budget or plainly, and reports its answer. |
| `AgentCalls.CancelAcceptedIff` | crates/aios-runtime/src/supervisor.rs:826-836 | The supervisor cancels a known Task exactly if it has ended already or the backend takes the batch. |
| `AgentCalls.RequestLeaves` | crates/aios-runtime/src/execution.rs:106-143 | After a gate request for a started Task, an executed operation leaves it running, an approval wait leaves it waiting and retained. |
| `Seccomp.FilterMeansPolicy` | crates/aios-adapter-process/src/seccomp.rs:141-195 | For every table of blocked numbers, every highest reviewed number, either byte order and all 32-bit architectures and numbers, the interpreted bytes stay within the program and allow exactly x86_64 numbers below the x32 bit, up to the highest reviewed one and outside the table; everything else is killed. |
| `Seccomp.DecodeAt` | crates/aios-adapter-process/src/seccomp.rs:275-288 | Decoding any index of an encoded program gives back its instruction. |
| `Seccomp.KnownInstruction` | crates/aios-adapter-process/src/seccomp.rs:123-129 | The eight bytes of one instruction in either byte order. |
| `Seccomp.FilterBytes` | crates/aios-adapter-process/src/seccomp.rs:141-195 | The pushing loops emit the encoded program. |
| `Seccomp.Evaluate` | crates/aios-adapter-process/src/seccomp.rs:290-332 | The interpreter terminates on every byte stream and computes the meaning of the decoded program. |
| `Seccomp.DefaultVerdict` | crates/aios-adapter-process/src/seccomp.rs:32-93 | Compiling and interpreting the reviewed table decides its policy. |
| `RootfsWalk.CollectRelativePaths` | crates/aios-adapter-process/src/rootfs.rs:382-411 | The worklist terminates, accepts exactly trees within the limits that hold only directories and regular files, and lists every entry exactly once for every order of directory listings. |
| `RootfsStream.MeasureTree` | crates/aios-adapter-process/src/rootfs.rs:278-375 | Succeeds exactly on acceptable trees and then hashes their stream, which does not depend on listing order or read sizes. |
| `RootfsStream.OrderIsCanonical` | crates/aios-adapter-process/src/rootfs.rs:286-291 | Sorting any enumeration of a tree's entries gives the same list. |
| `RootfsDigest.StreamsDetermineTrees` | crates/aios-adapter-process/src/rootfs.rs:278-375 | Two acceptable trees have equal streams if and only if they have the same entries with the same kinds, contents and permission bits. |
| `RootfsDigest.ParseEntryBytes` | crates/aios-adapter-process/src/rootfs.rs:311-352 | An entry can be read back from the stream whatever follows it. |
| `RootfsDigest.SpecialBitsAreInvisible` | crates/aios-adapter-process/src/rootfs.rs:316-316 | Two different trees, one file set-user-id, with equal streams: the bits above 0o777 are not recorded. |
| `RootfsStream.ModesAreOctal` | crates/aios-adapter-process/src/rootfs.rs:298-327 | In octal digits: the recorded mode is the last three, and an entry is read-only exactly if none of them has its write bit. |
| `RootfsDigest.KnownStream` | crates/aios-adapter-process/src/rootfs.rs:300-352 | The exact bytes hashed for a tree with one file: domain, root and entry, numbers with the most significant byte first. |
| `RootfsDigest.KnownDigest` | crates/aios-adapter-process/src/rootfs.rs:128-135 | Digits print in lower case, the high half first. |
| `RootfsDigest.FromStr` | crates/aios-adapter-process/src/rootfs.rs:137-152 | Accepts exactly the texts that printing yields and gives back the digest printed. |
| `RootfsDigest.PrintIsInjective` | crates/aios-adapter-process/src/rootfs.rs:128-135 | Different digests print differently. |
| `RootfsTree.JoinIsInjective` | crates/aios-adapter-process/src/rootfs.rs:390-390 | Joined relative paths determine their components. |
| `RootfsTree.SortedIsUnique` | crates/aios-adapter-process/src/rootfs.rs:286-291 | Lists sorted by bytes with the same elements are equal. |
| `Paths.AcceptedPathsAreComponentLists` | crates/aios-core/src/task.rs:295-304 | The accepted path strings are exactly the slash-joins, within the length limit, of non-empty lists of plain components. |
| `Paths.WithinIsComponentPrefix` | crates/aios-core/src/policy.rs:147-152 | On accepted paths the string check holds if and only if one component list is a prefix of the other. |
| `Paths.FileDecisionIsByComponents` | crates/aios-core/src/policy.rs:72-85 | Under a valid specification a file request is invalid exactly if its path is not accepted, and granted exactly if some capability with that access is a component prefix, and then needs approval exactly if its action is listed. |
| `Policy.ToolDecision` | crates/aios-core/src/policy.rs:106-139 | Under a valid specification a tool call is invalid exactly if tool or action is not an identifier within 64 bytes, granted exactly if the tool is listed, and needs approval exactly if granted with a listed action. |
| `Policy.NetworkDecision` | crates/aios-core/src/policy.rs:87-139 | An exchange is invalid exactly if the host is not accepted or the port is 0, granted exactly if some destination has that host, transport and port, and needs approval exactly if granted with network.egress listed. |
| `Policy.PolicyFollowsCapabilities` | crates/aios-core/src/policy.rs:60-139 | For every request the policy's decision is what the specification's lists say: refused as invalid, refused as not granted, permitted, or subject to approval. |
| `Policy.AcceptedHostsAreLabelLists` | crates/aios-core/src/task.rs:306-329 | The accepted hosts are exactly, within the length limit and without capital letters, the IP addresses and the dot-joins of labels. |
| `Capability.ValidationIsExact` | crates/aios-core/src/task.rs:30-50 | Validation reports no error if and only if all conditions hold and no list repeats an entry. |
| `Capability.ErrorsAreCounted` | crates/aios-core/src/task.rs:64-146 | Every invalid item and every repetition of a list is reported exactly once, wherever it stands. |
| `Capability.CountItemErrors` | crates/aios-core/src/task.rs:64-146 | The seen-set loop counts invalid entries and repetitions. |

## Left out

- SQLite itself (connections, WAL, file permissions, schema version) and the JSON form of events: the table is a map with a transaction that either commits or leaves it unchanged.
- Process spawning, Bubblewrap, cgroups, descriptor passing, memfd sealing and TCP sockets: adapters answer success, failure or limit reached.
- The local API server, framing, command line and daemon options: plumbing that adds only easy members.
- `Display`, `Debug`, redaction and the absence of `Clone`: nothing to prove in this language. Operations carry an identity in place of move-only ownership.
- IP address parsing: which texts parse is an unspecified set; Unicode is limited to UTF-8 lengths and the White_Space property.
- SHA-256 (FIPS 180-4): the measurement is modelled up to the bytes that are hashed.
- Changes to the root filesystem while it is measured, hard errors of the file system, canonical paths and mount points: the tree is a fixed value and `measure` starts from a real directory.
- The text of operation outputs and of model prompts, and the validation of model decisions (crates/aios-agent/src/lib.rs:140-214): decisions and prepared operations are arbitrary.
- `events`, `recovered_task_ids` and `start_execution`'s copies of specification fields: simple reads.
- Agent.AgentRuntime.New: the network gate always exists and a flag says whether it is enabled; the source holds an optional gate.
- Stores.InMemoryEventStore.New: requires a limit in the 64-bit range, which is the source's integer type.
- Stores.DriveBoth: limits and times are within the signed 64-bit range; beyond it the table refuses what the vector would accept, as the contract of `Stores.SqliteEventStore.AppendBatch` states.
- RootfsStream.MeasureTree: requires a tree in which every entry lies in a directory, which file systems guarantee.
