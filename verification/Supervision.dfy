/** The Task supervisor's operations as functions on its whole state:
    crates/aios-runtime/src/supervisor.rs. `SupervisorObject` holds the mutable form. */
module Supervision {
  import opened Basics
  import opened Lifecycle
  import opened Capability
  import opened Audit
  import opened Approval

  datatype TaskRecord = TaskRecord(spec: TaskSpec, state: TaskState, startedAt: Option<nat>)
  datatype PendingOperation = PendingOperation(task: TaskId, operation: OperationId, request: CapabilityRequest)
  datatype ApprovedOperation = ApprovedOperation(task: TaskId, request: CapabilityRequest, grant: ApprovalGrant)
  datatype TaskSnapshot = TaskSnapshot(task: TaskId, state: TaskState)

  datatype SubmitResult =
    | Accepted(snapshot: TaskSnapshot)
    | Existing(snapshot: TaskSnapshot)
    | SubmitRejected(snapshot: TaskSnapshot, errorCount: nat)

  datatype OperationAuthorization =
    | OperationPermitted
    | OperationRefused(reason: DenialReason)
    | NeedsApproval(approval: ApprovalRequest)

  /** `Panicked` stands for a failed `expect`. */
  datatype SupervisorError =
    | TaskNotFound
    | TaskNotRunning
    | IdempotencyConflict
    | TaskCapacityExceeded
    | InvalidStateTransition(from: TaskState, to: TaskState)
    | EventStore(store: EventStoreError)
    | ApprovalFailed(approval: ApprovalError)
    | Panicked

  /** The supervisor's fields. `used` holds every identifier drawn so far: identifiers are UUIDv7
      values (section 5.7 of RFC 9562), which are drawn fresh. */
  datatype Supervisor = Supervisor(
    tasks: map<TaskId, TaskRecord>,
    recovered: map<TaskId, TaskState>,
    idempotency: map<string, TaskId>,
    store: AuditLog,
    authority: Authority,
    pending: map<ApprovalId, PendingOperation>,
    approved: map<OperationId, ApprovedOperation>,
    maxTasks: nat,
    used: set<nat>)
  {
    function StateOf(t: TaskId): Option<TaskState> {
      if t in tasks then Some(tasks[t].state)
      else if t in recovered then Some(recovered[t])
      else None
    }

    function WithState(t: TaskId, next: TaskState): Supervisor
      requires t in tasks
    {
      this.(tasks := tasks[t := tasks[t].(state := next)])
    }

    /******* submit *******/

    function SubmissionBatch(spec: TaskSpec): Log {
      if ErrorCount(spec) == 0 then
        [TaskSubmitted, StateTransitioned(TaskState.Submitted, Validating), StateTransitioned(Validating, Queued)]
      else
        [TaskSubmitted, StateTransitioned(TaskState.Submitted, Validating),
         ValidationFailed(ErrorCount(spec)), StateTransitioned(Validating, Rejected)]
    }

    function Enroll(spec: TaskSpec, id: TaskId, log: AuditLog): Supervisor {
      this.(store := log,
            tasks := tasks[id := TaskRecord(spec, if ErrorCount(spec) == 0 then Queued else Rejected, None)],
            idempotency := idempotency[spec.idempotencyKey := id],
            used := used + {id})
    }

    function Submit(spec: TaskSpec, id: TaskId): (Supervisor, Result<SubmitResult, SupervisorError>) {
      if spec.idempotencyKey in idempotency then
        var known := idempotency[spec.idempotencyKey];
        if known !in tasks then (this, Err(TaskNotFound))
        else if tasks[known].spec != spec then (this, Err(SupervisorError.IdempotencyConflict))
        else (this, Ok(Existing(TaskSnapshot(known, tasks[known].state))))
      else if |tasks| + |recovered| >= maxTasks then (this, Err(TaskCapacityExceeded))
      else
        var (log, refusal) := store.Append(id, SubmissionBatch(spec));
        if refusal.Some? then (this.(store := log), Err(EventStore(refusal.value)))
        else
          (Enroll(spec, id, log),
           Ok(if ErrorCount(spec) == 0 then Accepted(TaskSnapshot(id, Queued))
              else SubmitRejected(TaskSnapshot(id, Rejected), ErrorCount(spec))))
    }

    /******* transitions *******/

    function PendingOf(t: TaskId): set<ApprovalId> { set a | a in pending && pending[a].task == t }

    function ApprovedOf(t: TaskId): set<OperationId> { set o | o in approved && approved[o].task == t }

    function RevokePending(ids: seq<ApprovalId>): Log
      requires forall id :: id in ids ==> id in pending
    {
      seq(|ids|, i requires 0 <= i < |ids| => ApprovalRevoked(ids[i], pending[ids[i]].operation))
    }

    function RevokeApproved(ids: seq<OperationId>): Log
      requires forall id :: id in ids ==> id in approved
    {
      seq(|ids|, i requires 0 <= i < |ids| => ApprovalRevoked(approved[ids[i]].grant.approval, ids[i]))
    }

    /** `revocation_events`. */
    function Revocations(t: TaskId): Log {
      RevokePending(Ascending(PendingOf(t))) + RevokeApproved(Ascending(ApprovedOf(t)))
    }

    /** `invalidate_approvals`. */
    function Invalidate(t: TaskId): Supervisor {
      this.(authority := authority.RemoveAll(Ascending(PendingOf(t))),
            pending := map a | a in pending && pending[a].task != t :: pending[a],
            approved := map o | o in approved && approved[o].task != t :: approved[o])
    }

    function TransitionBatch(t: TaskId, current: TaskState, next: TaskState, failure: Option<ErrorCode>): Log {
      (if next.IsTerminal() then Revocations(t) else []) + TransitionEvents(current, next, failure)
    }

    /** `apply_transition_with_failure`. */
    function ApplyTransition(t: TaskId, current: TaskState, next: TaskState, failure: Option<ErrorCode>)
      : (Supervisor, Result<(), SupervisorError>)
    {
      var (log, refusal) := store.Append(t, TransitionBatch(t, current, next, failure));
      var written := this.(store := log);
      if refusal.Some? then (written, Err(EventStore(refusal.value)))
      else
        var s := if next.IsTerminal() then written.Invalidate(t) else written;
        if t in s.tasks then (s.WithState(t, next), Ok(()))
        else if t in s.recovered then (s.(recovered := s.recovered[t := next]), Ok(()))
        else (s, Err(TaskNotFound))
    }

    function Transition(t: TaskId, next: TaskState, failure: Option<ErrorCode>)
      : (Supervisor, Result<(), SupervisorError>)
    {
      var current := StateOf(t);
      if current.None? then (this, Err(TaskNotFound))
      else if !current.value.CanTransitionTo(next) then (this, Err(InvalidStateTransition(current.value, next)))
      else ApplyTransition(t, current.value, next, failure)
    }

    function Start(t: TaskId, now: nat): (Supervisor, Result<(), SupervisorError>) {
      var (s, r) := Transition(t, Running, None);
      if r.Err? then (s, r)
      else if t !in s.tasks then (s, Err(TaskNotFound))
      else (s.(tasks := s.tasks[t := s.tasks[t].(startedAt := Some(now))]), Ok(()))
    }

    function Succeed(t: TaskId): (Supervisor, Result<(), SupervisorError>) { Transition(t, Succeeded, None) }

    function Fail(t: TaskId): (Supervisor, Result<(), SupervisorError>) { Transition(t, Failed, None) }

    function FailBudgetExceeded(t: TaskId): (Supervisor, Result<(), SupervisorError>) {
      Transition(t, Failed, Some(ErrorCode.BudgetExceeded))
    }

    function Cancel(t: TaskId): (Supervisor, Result<bool, SupervisorError>) {
      var current := StateOf(t);
      if current.None? then (this, Err(TaskNotFound))
      else if current.value.IsTerminal() then (this, Ok(false))
      else
        var (s, r) := ApplyTransition(t, current.value, Cancelled, None);
        (s, if r.Err? then Err(r.error) else Ok(true))
    }

    /******* expiry *******/

    /** Removes pending approval `a` and fails its Task. */
    function CloseFailed(a: ApprovalId, log: AuditLog): Supervisor
      requires a in pending && pending[a].task in tasks
    {
      this.(store := log, authority := authority.Remove(a), pending := pending - {a})
          .WithState(pending[a].task, Failed)
    }

    /** One iteration of `expire_approvals`. */
    function ExpireOne(a: ApprovalId): (Supervisor, Option<SupervisorError>) {
      if a !in pending then (this, None) else
      var p := pending[a];
      if p.task !in tasks then (this, Some(TaskNotFound)) else
      var current := tasks[p.task].state;
      if !current.CanTransitionTo(Failed) then (this, Some(InvalidStateTransition(current, Failed))) else
      var (log, refusal) := store.Append(
        p.task, [TaskEventKind.ApprovalExpired(a, p.operation), StateTransitioned(current, Failed)]);
      if refusal.Some? then (this.(store := log), Some(EventStore(refusal.value)))
      else (CloseFailed(a, log), None)
    }

    function Sweep(ids: seq<ApprovalId>, count: nat): (Supervisor, Result<nat, SupervisorError>)
      decreases ids
    {
      if ids == [] then (this, Ok(count)) else
      var (s, failure) := ExpireOne(ids[0]);
      if failure.Some? then (s, Err(failure.value))
      else s.Sweep(ids[1..], if ids[0] in pending then count + 1 else count)
    }

    function ExpireApprovals(now: nat): (Supervisor, Result<nat, SupervisorError>) {
      Sweep(authority.ExpiredIds(now), 0)
    }

    /******* approvals *******/

    function Opened(t: TaskId, request: CapabilityRequest, a: ApprovalId, o: OperationId,
                    log: AuditLog, authority: Authority): Supervisor
      requires t in tasks
    {
      this.(store := log, authority := authority, pending := pending[a := PendingOperation(t, o, request)],
            used := used + {a, o})
          .WithState(t, WaitingApproval)
    }

    /** `request_operation` for an operation that the policy wants approved. */
    function OpenApproval(t: TaskId, request: CapabilityRequest, ttl: nat, now: nat, o: OperationId, a: ApprovalId)
      : (Supervisor, Result<OperationAuthorization, SupervisorError>)
      requires t in tasks
    {
      if PendingOf(t) != {} then (this, Err(ApprovalFailed(DuplicateOperation))) else
      var (wider, approval) := authority.Request(t, o, ActionOf(request), ttl, now, a);
      if approval.Err? then (this.(authority := wider), Err(ApprovalFailed(approval.error))) else
      var (log, refusal) := store.Append(
        t, [ApprovalRequested(approval.value.approval, o), StateTransitioned(tasks[t].state, WaitingApproval)]);
      if refusal.Some? then
        (this.(store := log, authority := wider.Remove(approval.value.approval)), Err(EventStore(refusal.value)))
      else
        (Opened(t, request, approval.value.approval, o, log, wider), Ok(NeedsApproval(approval.value)))
    }

    /** `request_operation` once the sweep has succeeded. */
    function RequestSwept(t: TaskId, request: CapabilityRequest, ttl: nat, now: nat, o: OperationId, a: ApprovalId)
      : (Supervisor, Result<OperationAuthorization, SupervisorError>)
    {
      if t !in tasks then (this, Err(TaskNotFound)) else
      var current := tasks[t].state;
      if !current.CanTransitionTo(WaitingApproval) then
        (this, Err(InvalidStateTransition(current, WaitingApproval)))
      else if ErrorCount(tasks[t].spec) != 0 then (this, Err(Panicked)) else
      match Evaluate(tasks[t].spec, request)
      case Permit =>
        var (log, refusal) := store.Append(t, [OperationAllowed]);
        (this.(store := log), if refusal.Some? then Err(EventStore(refusal.value)) else Ok(OperationPermitted))
      case Refuse(reason) =>
        var (log, refusal) := store.Append(t, [OperationDenied(reason)]);
        (this.(store := log), if refusal.Some? then Err(EventStore(refusal.value)) else Ok(OperationRefused(reason)))
      case ApprovalRequired =>
        OpenApproval(t, request, ttl, now, o, a)
    }

    /** `request_operation`: the sweep reads the clock at `sweptAt`, the deadline at `now`. */
    function RequestOperation(t: TaskId, request: CapabilityRequest, ttl: nat, sweptAt: nat, now: nat,
                              o: OperationId, a: ApprovalId)
      : (Supervisor, Result<OperationAuthorization, SupervisorError>)
    {
      var (s, swept) := ExpireApprovals(sweptAt);
      if swept.Err? then (s, Err(swept.error)) else s.RequestSwept(t, request, ttl, now, o, a)
    }

    function Promoted(a: ApprovalId, grant: ApprovalGrant, log: AuditLog, authority: Authority): Supervisor
      requires a in pending && pending[a].task in tasks
    {
      var p := pending[a];
      this.(store := log, authority := authority, pending := pending - {a},
            approved := approved[p.operation := ApprovedOperation(p.task, p.request, grant)])
          .WithState(p.task, Running)
    }

    /** `approve_operation` once the sweep has succeeded. */
    function ApproveSwept(a: ApprovalId, now: nat): (Supervisor, Result<TaskSnapshot, SupervisorError>) {
      if a !in pending then (this, Err(ApprovalFailed(NotFound))) else
      var p := pending[a];
      if p.task !in tasks then (this, Err(TaskNotFound)) else
      var current := tasks[p.task].state;
      if !current.CanTransitionTo(Running) then (this, Err(InvalidStateTransition(current, Running))) else
      var (removed, grant) := authority.Approve(a, now);
      if grant.Err? then (this.(authority := removed), Err(ApprovalFailed(grant.error))) else
      var (log, refusal) := store.Append(
        p.task, [ApprovalGranted(a, p.operation), StateTransitioned(current, Running)]);
      if refusal.Some? then
        (this.(store := log, authority := removed.Restore(grant.value)), Err(EventStore(refusal.value)))
      else
        (Promoted(a, grant.value, log, removed), Ok(TaskSnapshot(p.task, Running)))
    }

    function ApproveOperation(a: ApprovalId, sweptAt: nat, now: nat)
      : (Supervisor, Result<TaskSnapshot, SupervisorError>)
    {
      var (s, swept) := ExpireApprovals(sweptAt);
      if swept.Err? then (s, Err(swept.error)) else s.ApproveSwept(a, now)
    }

    /** `deny_operation` once the sweep has succeeded. */
    function DenySwept(a: ApprovalId): (Supervisor, Result<TaskSnapshot, SupervisorError>) {
      if a !in pending then (this, Err(ApprovalFailed(NotFound))) else
      var p := pending[a];
      if a !in authority.pending then (this, Err(ApprovalFailed(NotFound)))
      else if p.task !in tasks then (this, Err(TaskNotFound)) else
      var current := tasks[p.task].state;
      if !current.CanTransitionTo(Failed) then (this, Err(InvalidStateTransition(current, Failed))) else
      var (log, refusal) := store.Append(
        p.task, [ApprovalDenied(a, p.operation), StateTransitioned(current, Failed)]);
      if refusal.Some? then (this.(store := log), Err(EventStore(refusal.value)))
      else (CloseFailed(a, log), Ok(TaskSnapshot(p.task, Failed)))
    }

    function DenyOperation(a: ApprovalId, sweptAt: nat): (Supervisor, Result<TaskSnapshot, SupervisorError>) {
      var (s, swept) := ExpireApprovals(sweptAt);
      if swept.Err? then (s, Err(swept.error)) else s.DenySwept(a)
    }

    /** `authorize_operation`: the approved entry is gone whatever the outcome. */
    function AuthorizeOperation(t: TaskId, o: OperationId, request: CapabilityRequest, now: nat)
      : (Supervisor, Result<ApprovalId, SupervisorError>)
    {
      if t !in tasks then (this, Err(TaskNotFound))
      else if tasks[t].state != Running then (this, Err(TaskNotRunning))
      else if o !in approved then (this, Err(ApprovalFailed(NotFound))) else
      var entry := approved[o];
      var spent := this.(approved := approved - {o});
      if entry.task != t || entry.request != request then (spent, Err(ApprovalFailed(ScopeMismatch)))
      else if ErrorCount(tasks[t].spec) != 0 then (spent, Err(Panicked))
      else if Evaluate(tasks[t].spec, request) != ApprovalRequired then (spent, Err(ApprovalFailed(ScopeMismatch)))
      else
        var receipt := entry.grant.Authorize(t, o, ActionOf(request), now);
        if receipt.Err? then (spent, Err(ApprovalFailed(receipt.error))) else
        var (log, refusal) := store.Append(t, [ApprovalConsumed(entry.grant.approval, o)]);
        (spent.(store := log), if refusal.Some? then Err(EventStore(refusal.value)) else Ok(receipt.value))
    }

    /******* wall time *******/

    /** `TaskExecutionContext::remaining_wall_time` of the context handed out for a running Task. */
    function RemainingWallTime(t: TaskId, now: nat): Result<nat, SupervisorError> {
      if t !in tasks then Err(TaskNotFound)
      else if tasks[t].state != Running || tasks[t].startedAt.None? then Err(TaskNotRunning)
      else Ok(Remaining(tasks[t].spec.budget, tasks[t].startedAt.value, now))
    }

    function WallTimeExceeded(t: TaskId, now: nat): Result<bool, SupervisorError> {
      if t !in tasks then Err(TaskNotFound)
      else if (tasks[t].state != Running && tasks[t].state != WaitingApproval) || tasks[t].startedAt.None? then
        Err(TaskNotRunning)
      else Ok(Elapsed(tasks[t].startedAt.value, now) >= tasks[t].spec.budget.wallTimeSeconds * SECOND)
    }
  }

  function TransitionEvents(current: TaskState, next: TaskState, failure: Option<ErrorCode>): Log {
    (if failure.Some? then [TaskFailed(failure.value)] else []) + [StateTransitioned(current, next)]
  }

  function Elapsed(startedAt: nat, now: nat): nat { if now < startedAt then 0 else now - startedAt }

  function Remaining(budget: Budget, startedAt: nat, now: nat): nat {
    var limit := budget.wallTimeSeconds * SECOND;
    if Elapsed(startedAt, now) >= limit then 0 else limit - Elapsed(startedAt, now)
  }

  /** A supervisor over an empty store. */
  function Empty(maxTasks: nat, capacity: nat, plan: seq<Option<EventStoreError>>): Supervisor {
    Supervisor(map[], map[], map[], AuditLog(map[], capacity, plan),
               Fresh(DEFAULT_MAX_PENDING_APPROVALS, DEFAULT_MAX_TTL), map[], map[], maxTasks, {})
  }

  /******* Runs *******/

  /** One call of the public interface with its clock readings and drawn identifiers. */
  datatype Command =
    | CallSubmit(spec: TaskSpec, id: TaskId)
    | CallStart(task: TaskId, now: nat)
    | CallRequest(task: TaskId, request: CapabilityRequest, ttl: nat, sweptAt: nat, now: nat,
                  operation: OperationId, approval: ApprovalId)
    | CallApprove(approval: ApprovalId, sweptAt: nat, now: nat)
    | CallDeny(approval: ApprovalId, sweptAt: nat)
    | CallAuthorize(task: TaskId, operation: OperationId, request: CapabilityRequest, now: nat)
    | CallExpire(now: nat)
    | CallSucceed(task: TaskId)
    | CallFail(task: TaskId)
    | CallFailBudget(task: TaskId)
    | CallCancel(task: TaskId)

  function Step(s: Supervisor, c: Command): Supervisor {
    match c
    case CallSubmit(spec, id) => s.Submit(spec, id).0
    case CallStart(t, now) => s.Start(t, now).0
    case CallRequest(t, request, ttl, sweptAt, now, o, a) =>
      s.RequestOperation(t, request, ttl, sweptAt, now, o, a).0
    case CallApprove(a, sweptAt, now) => s.ApproveOperation(a, sweptAt, now).0
    case CallDeny(a, sweptAt) => s.DenyOperation(a, sweptAt).0
    case CallAuthorize(t, o, request, now) => s.AuthorizeOperation(t, o, request, now).0
    case CallExpire(now) => s.ExpireApprovals(now).0
    case CallSucceed(t) => s.Succeed(t).0
    case CallFail(t) => s.Fail(t).0
    case CallFailBudget(t) => s.FailBudgetExceeded(t).0
    case CallCancel(t) => s.Cancel(t).0
  }

  /** The clock readings of a call, in the order in which it makes them. */
  function Readings(c: Command): seq<nat> {
    match c
    case CallSubmit(_, _) => []
    case CallStart(_, now) => [now]
    case CallRequest(_, _, _, sweptAt, now, _, _) => [sweptAt, now]
    case CallApprove(_, sweptAt, now) => [sweptAt, now]
    case CallDeny(_, sweptAt) => [sweptAt]
    case CallAuthorize(_, _, _, now) => [now]
    case CallExpire(now) => [now]
    case CallSucceed(_) => []
    case CallFail(_) => []
    case CallFailBudget(_) => []
    case CallCancel(_) => []
  }

  /** Identifiers drawn by a call have not been drawn before. */
  predicate DrawsFresh(s: Supervisor, c: Command) {
    && (c.CallSubmit? ==> c.id !in s.used)
    && (c.CallRequest? ==> c.operation !in s.used && c.approval !in s.used && c.operation != c.approval)
  }

  function Run(s: Supervisor, cs: seq<Command>): Supervisor
    decreases cs
  {
    if cs == [] then s else Run(Step(s, cs[0]), cs[1..])
  }

  predicate Drawn(s: Supervisor, cs: seq<Command>)
    decreases cs
  {
    cs == [] || (DrawsFresh(s, cs[0]) && Drawn(Step(s, cs[0]), cs[1..]))
  }
}
