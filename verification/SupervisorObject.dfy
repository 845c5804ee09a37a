/** The mutable Task supervisor: crates/aios-runtime/src/supervisor.rs. Every method is proved equal to
    the function of the same name in `Supervision`, about which the properties of runs are proved. */
module SupervisorObject {
  import opened Basics
  import opened Lifecycle
  import opened Capability
  import opened Audit
  import opened Approval
  import opened Supervision
  import opened Recovery

  const DEFAULT_MAX_TASKS: nat := 10_000

  class TaskSupervisor {
    var tasks: map<TaskId, TaskRecord>
    var recovered: map<TaskId, TaskState>
    var idempotency: map<string, TaskId>
    var store: AuditLog
    const authority: ApprovalAuthority
    var pending: map<ApprovalId, PendingOperation>
    var approved: map<OperationId, ApprovedOperation>
    const maxTasks: nat
    /** Every identifier drawn so far, which the source leaves to the uniqueness of UUIDs. */
    var used: set<nat>

    ghost function State(): Supervisor
      reads this, authority
    {
      Supervisor(tasks, recovered, idempotency, store, authority.View(), pending, approved, maxTasks, used)
    }

    constructor (store: AuditLog, maxTasks: nat)
      ensures State() == Supervisor(map[], map[], map[], store, Fresh(DEFAULT_MAX_PENDING_APPROVALS, DEFAULT_MAX_TTL),
                                    map[], map[], maxTasks, store.logs.Keys)
      ensures fresh(authority)
    {
      tasks, recovered, idempotency, pending, approved := map[], map[], map[], map[], map[];
      this.store, this.maxTasks, used := store, maxTasks, store.logs.Keys;
      authority := new ApprovalAuthority();
    }

    /** `new`, with the default limit. */
    constructor Default(store: AuditLog)
      ensures State() == Recovered(store, map[], DEFAULT_MAX_TASKS, store.logs.Keys) && fresh(authority)
    {
      tasks, recovered, idempotency, pending, approved := map[], map[], map[], map[], map[];
      this.store, maxTasks, used := store, DEFAULT_MAX_TASKS, store.logs.Keys;
      authority := new ApprovalAuthority();
    }

    /** `with_max_tasks`. */
    static method WithMaxTasks(store: AuditLog, maxTasks: nat) returns (r: Result<TaskSupervisor, SupervisorError>)
      ensures if maxTasks == 0 then r == Err(TaskCapacityExceeded)
              else r.Ok? && fresh(r.value) && r.value.State() == Recovered(store, map[], maxTasks, store.logs.Keys)
    {
      if maxTasks == 0 {
        return Err(TaskCapacityExceeded);
      }
      var supervisor := new TaskSupervisor(store, maxTasks);
      return Ok(supervisor);
    }

    /** `recover`. The store outlives a failed recovery, so it is returned in every case. */
    static method Recover(log: AuditLog, maxTasks: nat, drawn: set<nat>, fault: Option<EventStoreError>)
      returns (next: AuditLog, r: Result<TaskSupervisor, SupervisorError>)
      ensures var (after, outcome) := Recovery.Recover(log, maxTasks, drawn, fault);
              && next == after
              && (if r.Ok? then outcome.Ok? && fresh(r.value) && r.value.State() == outcome.value
                  else outcome == Err(r.error))
    {
      hide FailInterrupted, AllReplay;
      next := log;
      if maxTasks == 0 {
        return next, Err(TaskCapacityExceeded);
      }
      if fault.Some? {
        return next, Err(EventStore(fault.value));
      }
      if !AllReplay(log.logs) {
        return next, Err(EventStore(Corrupt));
      }
      if |log.logs| > maxTasks {
        return next, Err(TaskCapacityExceeded);
      }
      var supervisor, refusal := Adopt(log, maxTasks, drawn);
      next := supervisor.store;
      if refusal.Some? {
        return next, Err(EventStore(refusal.value));
      }
      return next, Ok(supervisor);
    }

    /** A supervisor over a store that replays, with its interrupted Tasks failed. */
    static method Adopt(log: AuditLog, maxTasks: nat, drawn: set<nat>)
      returns (supervisor: TaskSupervisor, refusal: Option<EventStoreError>)
      requires AllReplay(log.logs)
      ensures fresh(supervisor)
      ensures (supervisor.store, supervisor.recovered, refusal) == FailInterrupted(log)
      ensures supervisor.State() == Recovered(supervisor.store, supervisor.recovered, maxTasks, drawn)
    {
      hide AllReplay, Snapshots, Interrupted, Replay;
      supervisor := new TaskSupervisor(log, maxTasks);
      supervisor.recovered := Snapshots(log.logs);
      supervisor.used := drawn;
      InterruptedAreKnown(supervisor.recovered);
      refusal := supervisor.FailRecovered(Ascending(Interrupted(supervisor.recovered)));
    }

    static lemma InterruptedAreKnown(states: map<TaskId, TaskState>)
      ensures forall t :: t in Interrupted(states) ==> t in states
    {
    }

    /** The loop of `recover`. */
    method FailRecovered(ids: seq<TaskId>) returns (refusal: Option<EventStoreError>)
      requires forall t :: t in ids ==> t in recovered
      modifies this`store, this`recovered
      ensures (store, recovered, refusal) == FailEach(old(store), old(recovered), ids)
    {
      for i := 0 to |ids|
        invariant forall t :: t in ids ==> t in recovered
        invariant FailEach(store, recovered, ids[i..]) == FailEach(old(store), old(recovered), ids)
      {
        assert ids[i..][1..] == ids[i + 1..];
        var t := ids[i];
        var (appended, refused) := store.Append(t, RestartBatch(recovered[t]));
        store := appended;
        if refused.Some? {
          return refused;
        }
        recovered := recovered[t := Failed];
      }
      return None;
    }

    method TaskStateOf(t: TaskId) returns (state: Option<TaskState>)
      ensures state == State().StateOf(t)
    {
      if t in tasks {
        return Some(tasks[t].state);
      }
      if t in recovered {
        return Some(recovered[t]);
      }
      return None;
    }

    method Submit(spec: TaskSpec, id: TaskId) returns (r: Result<SubmitResult, SupervisorError>)
      modifies this
      ensures (State(), r) == old(State()).Submit(spec, id)
    {
      if spec.idempotencyKey in idempotency {
        var known := idempotency[spec.idempotencyKey];
        if known !in tasks {
          return Err(TaskNotFound);
        }
        if tasks[known].spec != spec {
          return Err(SupervisorError.IdempotencyConflict);
        }
        return Ok(Existing(TaskSnapshot(known, tasks[known].state)));
      }
      if |tasks| + |recovered| >= maxTasks {
        return Err(TaskCapacityExceeded);
      }
      var errors := ErrorCount(spec);
      var state, kinds := Queued,
                          [TaskSubmitted, StateTransitioned(TaskState.Submitted, Validating),
                            StateTransitioned(Validating, Queued)];
      if errors != 0 {
        state := Rejected;
        kinds := [TaskSubmitted, StateTransitioned(TaskState.Submitted, Validating),
                  ValidationFailed(errors), StateTransitioned(Validating, Rejected)];
      }
      hide ErrorCount;
      var (log, refusal) := store.Append(id, kinds);
      store := log;
      if refusal.Some? {
        return Err(EventStore(refusal.value));
      }
      tasks := tasks[id := TaskRecord(spec, state, None)];
      idempotency := idempotency[spec.idempotencyKey := id];
      used := used + {id};
      return Ok(if errors == 0 then Accepted(TaskSnapshot(id, state))
        else SubmitRejected(TaskSnapshot(id, state), errors));
    }

    /******* transitions *******/

    method PendingRevocations(ids: seq<ApprovalId>) returns (events: Log)
      requires forall a :: a in ids ==> a in pending
      ensures events == State().RevokePending(ids)
    {
      events := [];
      for i := 0 to |ids|
        invariant |events| == i
        invariant forall k :: 0 <= k < i ==> events[k] == ApprovalRevoked(ids[k], pending[ids[k]].operation)
      {
        events := events + [ApprovalRevoked(ids[i], pending[ids[i]].operation)];
      }
    }

    method ApprovedRevocations(ids: seq<OperationId>) returns (events: Log)
      requires forall o :: o in ids ==> o in approved
      ensures events == State().RevokeApproved(ids)
    {
      events := [];
      for i := 0 to |ids|
        invariant |events| == i
        invariant forall k :: 0 <= k < i ==> events[k] == ApprovalRevoked(approved[ids[k]].grant.approval, ids[k])
      {
        events := events + [ApprovalRevoked(approved[ids[i]].grant.approval, ids[i])];
      }
    }

    method RevocationEvents(t: TaskId) returns (events: Log)
      ensures events == State().Revocations(t)
    {
      var revoked := PendingRevocations(Ascending(set a | a in pending && pending[a].task == t));
      var unspent := ApprovedRevocations(Ascending(set o | o in approved && approved[o].task == t));
      return revoked + unspent;
    }

    method RemovePending(ids: seq<ApprovalId>)
      modifies this`pending, authority`pending, authority`index
      ensures authority.View() == old(authority.View()).RemoveAll(ids)
      ensures pending == old(pending) - (set a | a in ids)
    {
      hide Authority.Remove;
      for i := 0 to |ids|
        invariant authority.View().RemoveAll(ids[i..]) == old(authority.View()).RemoveAll(ids)
        invariant pending == old(pending) - (set a | a in ids[..i])
      {
        assert ids[i..][1..] == ids[i + 1..];
        ghost var done := ids[..i + 1];
        assert (set a | a in done) == (set a | a in ids[..i]) + {ids[i]};
        var _ := authority.Remove(ids[i]);
        pending := pending - {ids[i]};
      }
      assert ids[..|ids|] == ids;
    }

    method InvalidateApprovals(t: TaskId)
      modifies this`pending, this`approved, authority`pending, authority`index
      ensures State() == old(State()).Invalidate(t)
    {
      hide Authority.RemoveAll, Ascending, Authority.Remove;
      ghost var before := State();
      var ids := Ascending(set a | a in pending && pending[a].task == t);
      assert ids == Ascending(before.PendingOf(t));
      RemovePending(ids);
      assert pending == before.Invalidate(t).pending;
      approved := map o | o in approved && approved[o].task != t :: approved[o];
    }

    method ApplyTransition(t: TaskId, current: TaskState, next: TaskState, failure: Option<ErrorCode>)
      returns (r: Result<(), SupervisorError>)
      modifies this, authority`pending, authority`index
      ensures (State(), r) == old(State()).ApplyTransition(t, current, next, failure)
    {
      var kinds: Log := [];
      if next.IsTerminal() {
        kinds := RevocationEvents(t);
      }
      if failure.Some? {
        kinds := kinds + [TaskFailed(failure.value)];
      }
      kinds := kinds + [StateTransitioned(current, next)];
      assert kinds == State().TransitionBatch(t, current, next, failure);
      var (log, refusal) := store.Append(t, kinds);
      store := log;
      if refusal.Some? {
        return Err(EventStore(refusal.value));
      }
      if next.IsTerminal() {
        InvalidateApprovals(t);
      }
      if t in tasks {
        tasks := tasks[t := tasks[t].(state := next)];
      } else if t in recovered {
        recovered := recovered[t := next];
      } else {
        return Err(TaskNotFound);
      }
      return Ok(());
    }

    method Transition(t: TaskId, next: TaskState, failure: Option<ErrorCode>) returns (r: Result<(), SupervisorError>)
      modifies this, authority`pending, authority`index
      ensures (State(), r) == old(State()).Transition(t, next, failure)
    {
      var current := TaskStateOf(t);
      if current.None? {
        return Err(TaskNotFound);
      }
      if !current.value.CanTransitionTo(next) {
        return Err(InvalidStateTransition(current.value, next));
      }
      r := ApplyTransition(t, current.value, next, failure);
    }

    method Start(t: TaskId, now: nat) returns (r: Result<(), SupervisorError>)
      modifies this, authority`pending, authority`index
      ensures (State(), r) == old(State()).Start(t, now)
    {
      hide Supervisor.Transition;
      r := Transition(t, Running, None);
      if r.Err? {
        return;
      }
      if t !in tasks {
        return Err(TaskNotFound);
      }
      tasks := tasks[t := tasks[t].(startedAt := Some(now))];
      return Ok(());
    }

    method Succeed(t: TaskId) returns (r: Result<(), SupervisorError>)
      modifies this, authority`pending, authority`index
      ensures (State(), r) == old(State()).Succeed(t)
    {
      r := Transition(t, Succeeded, None);
    }

    method Fail(t: TaskId) returns (r: Result<(), SupervisorError>)
      modifies this, authority`pending, authority`index
      ensures (State(), r) == old(State()).Fail(t)
    {
      r := Transition(t, Failed, None);
    }

    method FailBudgetExceeded(t: TaskId) returns (r: Result<(), SupervisorError>)
      modifies this, authority`pending, authority`index
      ensures (State(), r) == old(State()).FailBudgetExceeded(t)
    {
      r := Transition(t, Failed, Some(ErrorCode.BudgetExceeded));
    }

    method Cancel(t: TaskId) returns (r: Result<bool, SupervisorError>)
      modifies this, authority`pending, authority`index
      ensures (State(), r) == old(State()).Cancel(t)
    {
      var current := TaskStateOf(t);
      if current.None? {
        return Err(TaskNotFound);
      }
      if current.value.IsTerminal() {
        return Ok(false);
      }
      hide Supervisor.ApplyTransition;
      var applied := ApplyTransition(t, current.value, Cancelled, None);
      if applied.Err? {
        return Err(applied.error);
      }
      return Ok(true);
    }

    /******* expiry *******/

    /** Removes pending approval `a`, whose Task fails. */
    method Close(a: ApprovalId)
      requires a in pending && pending[a].task in tasks
      modifies this`tasks, this`pending, authority`pending, authority`index
      ensures State() == old(State()).CloseFailed(a, store)
    {
      var t := pending[a].task;
      var _ := authority.Remove(a);
      pending := pending - {a};
      tasks := tasks[t := tasks[t].(state := Failed)];
    }

    method ExpireOne(a: ApprovalId) returns (failure: Option<SupervisorError>)
      modifies this, authority`pending, authority`index
      ensures (State(), failure) == old(State()).ExpireOne(a)
    {
      if a !in pending {
        return None;
      }
      var p := pending[a];
      if p.task !in tasks {
        return Some(TaskNotFound);
      }
      var current := tasks[p.task].state;
      if !current.CanTransitionTo(Failed) {
        return Some(InvalidStateTransition(current, Failed));
      }
      var (log, refusal) := store.Append(
        p.task, [TaskEventKind.ApprovalExpired(a, p.operation), StateTransitioned(current, Failed)]);
      store := log;
      if refusal.Some? {
        return Some(EventStore(refusal.value));
      }
      Close(a);
      return None;
    }

    method ExpireApprovals(now: nat) returns (r: Result<nat, SupervisorError>)
      modifies this, authority`pending, authority`index
      ensures (State(), r) == old(State()).ExpireApprovals(now)
    {
      hide Supervisor.ExpireOne;
      var expired := Ascending(set a | a in authority.pending && now >= authority.pending[a].deadline);
      var count := 0;
      for i := 0 to |expired|
        invariant State().Sweep(expired[i..], count) == old(State()).Sweep(expired, 0)
      {
        assert expired[i..][1..] == expired[i + 1..];
        var known := expired[i] in pending;
        var failure := ExpireOne(expired[i]);
        if failure.Some? {
          return Err(failure.value);
        }
        count := if known then count + 1 else count;
      }
      return Ok(count);
    }

    /******* approvals *******/

    method OpenApproval(t: TaskId, request: CapabilityRequest, ttl: nat, now: nat, o: OperationId, a: ApprovalId)
      returns (r: Result<OperationAuthorization, SupervisorError>)
      requires t in tasks
      modifies this, authority`pending, authority`index
      ensures (State(), r) == old(State()).OpenApproval(t, request, ttl, now, o, a)
    {
      hide Authority.Request, Authority.Remove, AuditLog.Append, ActionOf;
      if (set b | b in pending && pending[b].task == t) != {} {
        return Err(ApprovalFailed(DuplicateOperation));
      }
      var approval := authority.Request(t, o, ActionOf(request), ttl, now, a);
      if approval.Err? {
        return Err(ApprovalFailed(approval.error));
      }
      var id := approval.value.approval;
      var (log, refusal) := store.Append(t, [ApprovalRequested(id, o),
        StateTransitioned(tasks[t].state, WaitingApproval)]);
      store := log;
      if refusal.Some? {
        var _ := authority.Remove(id);
        return Err(EventStore(refusal.value));
      }
      pending := pending[id := PendingOperation(t, o, request)];
      used := used + {id, o};
      tasks := tasks[t := tasks[t].(state := WaitingApproval)];
      return Ok(NeedsApproval(approval.value));
    }

    method RequestOperation(t: TaskId, request: CapabilityRequest, ttl: nat, sweptAt: nat, now: nat,
                            o: OperationId, a: ApprovalId)
      returns (r: Result<OperationAuthorization, SupervisorError>)
      modifies this, authority`pending, authority`index
      ensures (State(), r) == old(State()).RequestOperation(t, request, ttl, sweptAt, now, o, a)
    {
      hide Supervisor.ExpireApprovals, Supervisor.OpenApproval, ErrorCount, Evaluate, AuditLog.Append;
      var swept := ExpireApprovals(sweptAt);
      if swept.Err? {
        return Err(swept.error);
      }
      if t !in tasks {
        return Err(TaskNotFound);
      }
      var current := tasks[t].state;
      if !current.CanTransitionTo(WaitingApproval) {
        return Err(InvalidStateTransition(current, WaitingApproval));
      }
      if ErrorCount(tasks[t].spec) != 0 {
        return Err(Panicked);
      }
      match Evaluate(tasks[t].spec, request)
      case Permit =>
        var (log, refusal) := store.Append(t, [OperationAllowed]);
        store := log;
        if refusal.Some? {
          return Err(EventStore(refusal.value));
        }
        return Ok(OperationPermitted);
      case Refuse(reason) =>
        var (log, refusal) := store.Append(t, [OperationDenied(reason)]);
        store := log;
        if refusal.Some? {
          return Err(EventStore(refusal.value));
        }
        return Ok(OperationRefused(reason));
      case ApprovalRequired =>
        r := OpenApproval(t, request, ttl, now, o, a);
    }

    method ApproveOperation(a: ApprovalId, sweptAt: nat, now: nat) returns (r: Result<TaskSnapshot, SupervisorError>)
      modifies this, authority`pending, authority`index
      ensures (State(), r) == old(State()).ApproveOperation(a, sweptAt, now)
    {
      hide Supervisor.ExpireApprovals, Authority.Approve, Authority.Restore, AuditLog.Append;
      var swept := ExpireApprovals(sweptAt);
      if swept.Err? {
        return Err(swept.error);
      }
      if a !in pending {
        return Err(ApprovalFailed(NotFound));
      }
      var p := pending[a];
      if p.task !in tasks {
        return Err(TaskNotFound);
      }
      var current := tasks[p.task].state;
      if !current.CanTransitionTo(Running) {
        return Err(InvalidStateTransition(current, Running));
      }
      var grant := authority.Approve(a, now);
      if grant.Err? {
        return Err(ApprovalFailed(grant.error));
      }
      var (log, refusal) := store.Append(p.task, [ApprovalGranted(a, p.operation),
        StateTransitioned(current, Running)]);
      store := log;
      if refusal.Some? {
        authority.Restore(grant.value);
        return Err(EventStore(refusal.value));
      }
      pending := pending - {a};
      approved := approved[p.operation := ApprovedOperation(p.task, p.request, grant.value)];
      tasks := tasks[p.task := tasks[p.task].(state := Running)];
      return Ok(TaskSnapshot(p.task, Running));
    }

    method DenyOperation(a: ApprovalId, sweptAt: nat) returns (r: Result<TaskSnapshot, SupervisorError>)
      modifies this, authority`pending, authority`index
      ensures (State(), r) == old(State()).DenyOperation(a, sweptAt)
    {
      hide Supervisor.ExpireApprovals, AuditLog.Append, Authority.Remove;
      var swept := ExpireApprovals(sweptAt);
      if swept.Err? {
        return Err(swept.error);
      }
      if a !in pending {
        return Err(ApprovalFailed(NotFound));
      }
      var p := pending[a];
      if a !in authority.pending {
        return Err(ApprovalFailed(NotFound));
      }
      if p.task !in tasks {
        return Err(TaskNotFound);
      }
      var current := tasks[p.task].state;
      if !current.CanTransitionTo(Failed) {
        return Err(InvalidStateTransition(current, Failed));
      }
      var (log, refusal) := store.Append(p.task, [ApprovalDenied(a, p.operation), StateTransitioned(current, Failed)]);
      store := log;
      if refusal.Some? {
        return Err(EventStore(refusal.value));
      }
      Close(a);
      return Ok(TaskSnapshot(p.task, Failed));
    }

    method AuthorizeOperation(t: TaskId, o: OperationId, request: CapabilityRequest, now: nat)
      returns (r: Result<ApprovalId, SupervisorError>)
      modifies this
      ensures (State(), r) == old(State()).AuthorizeOperation(t, o, request, now)
    {
      hide ErrorCount, Evaluate, AuditLog.Append, ApprovalGrant.Authorize, ActionOf;
      if t !in tasks {
        return Err(TaskNotFound);
      }
      if tasks[t].state != Running {
        return Err(TaskNotRunning);
      }
      if o !in approved {
        return Err(ApprovalFailed(NotFound));
      }
      var entry := approved[o];
      approved := approved - {o};
      if entry.task != t || entry.request != request {
        return Err(ApprovalFailed(ScopeMismatch));
      }
      if ErrorCount(tasks[t].spec) != 0 {
        return Err(Panicked);
      }
      if Evaluate(tasks[t].spec, request) != ApprovalRequired {
        return Err(ApprovalFailed(ScopeMismatch));
      }
      var receipt := entry.grant.Authorize(t, o, ActionOf(request), now);
      if receipt.Err? {
        return Err(ApprovalFailed(receipt.error));
      }
      var (log, refusal) := store.Append(t, [ApprovalConsumed(entry.grant.approval, o)]);
      store := log;
      if refusal.Some? {
        return Err(EventStore(refusal.value));
      }
      return Ok(receipt.value);
    }

    /** `execution_context` and its `remaining_wall_time`. */
    method RemainingWallTime(t: TaskId, now: nat) returns (r: Result<nat, SupervisorError>)
      ensures r == State().RemainingWallTime(t, now)
    {
      if t !in tasks {
        return Err(TaskNotFound);
      }
      var record := tasks[t];
      if record.state != Running || record.startedAt.None? {
        return Err(TaskNotRunning);
      }
      return Ok(Remaining(record.spec.budget, record.startedAt.value, now));
    }

    method WallTimeExceeded(t: TaskId, now: nat) returns (r: Result<bool, SupervisorError>)
      ensures r == State().WallTimeExceeded(t, now)
    {
      if t !in tasks {
        return Err(TaskNotFound);
      }
      var record := tasks[t];
      if (record.state != Running && record.state != WaitingApproval) || record.startedAt.None? {
        return Err(TaskNotRunning);
      }
      return Ok(Elapsed(record.startedAt.value, now) >= record.spec.budget.wallTimeSeconds * SECOND);
    }
  }
}
