/** Every public call is a chain of moves. */
module Calls {
  import opened Basics
  import opened Lifecycle
  import opened Capability
  import opened Audit
  import opened Approval
  import opened Supervision
  import opened Soundness
  import opened SoundSteps
  import opened Moves

  /** A refused batch is an idle move. */
  lemma RefusalIsIdle(s: Supervisor, t: TaskId, kinds: Log)
    requires kinds != [] && s.store.Append(t, kinds).1.Some?
    ensures var n := s.(store := s.store.Append(t, kinds).0); Reaches(s, [Hop(Idle, n)], n)
  {
    var n := s.(store := s.store.Append(t, kinds).0);
    OneMove(s, Idle, n);
  }

  lemma AcceptedLogs(s: Supervisor, t: TaskId, kinds: Log)
    requires kinds != [] && s.store.Append(t, kinds).1.None? && t in s.store.logs
    ensures s.store.Append(t, kinds).0.logs == s.store.logs[t := s.store.logs[t] + kinds]
  {
  }

  /******* Transitions *******/

  lemma FinishShape(s: Supervisor, n: Supervisor, t: TaskId, next: TaskState, failure: Option<ErrorCode>, batch: Log)
    requires t in s.tasks && t in s.store.logs && next.IsTerminal() && next != Rejected
    requires batch == s.TransitionBatch(t, s.tasks[t].state, next, failure) && s.store.Append(t, batch).1.None?
    requires n == s.ApplyTransition(t, s.tasks[t].state, next, failure).0
    ensures Finishes(s, n, t, s.tasks[t].(state := next), batch) && n.maxTasks == s.maxTasks
  {
    hide AuditLog.Append, Supervisor.TransitionBatch, Authority.RemoveAll, Ascending;
    TransitionIsLogged(s, t, s.tasks[t].state, next, failure);
    AcceptedLogs(s, t, batch);
    var log := s.store.Append(t, batch).0;
    assert s.(store := log).PendingOf(t) == s.PendingOf(t);
    assert n == s.(store := log).Invalidate(t).WithState(t, next);
  }

  lemma TransitionIsLogged(s: Supervisor, t: TaskId, current: TaskState, next: TaskState, failure: Option<ErrorCode>)
    ensures s.TransitionBatch(t, current, next, failure) != []
  {
  }

  /** An accepted transition of a live Task to a final state. */
  lemma FinishIsMove(s: Supervisor, t: TaskId, next: TaskState, failure: Option<ErrorCode>)
    requires TasksSound(s) && t in s.tasks && next.IsTerminal() && next != Rejected
    requires !s.tasks[t].state.IsTerminal() && (next.Cancelled? || s.tasks[t].state.CanTransitionTo(next))
    requires failure.Some? ==> next == Failed
    requires s.store.Append(t, s.TransitionBatch(t, s.tasks[t].state, next, failure)).1.None?
    ensures Does(s, Finish(t, next, failure), s.ApplyTransition(t, s.tasks[t].state, next, failure).0)
  {
    assert TaskSound(s, t);
    FinishShape(s, s.ApplyTransition(t, s.tasks[t].state, next, failure).0, t, next, failure,
                s.TransitionBatch(t, s.tasks[t].state, next, failure));
  }

  lemma ApplyReaches(s: Supervisor, t: TaskId, next: TaskState, failure: Option<ErrorCode>) returns (path: Path)
    requires TasksSound(s) && t in s.tasks && next.IsTerminal() && next != Rejected
    requires !s.tasks[t].state.IsTerminal() && (next.Cancelled? || s.tasks[t].state.CanTransitionTo(next))
    requires failure.Some? ==> next == Failed
    ensures Reaches(s, path, s.ApplyTransition(t, s.tasks[t].state, next, failure).0)
    ensures StartsNothing(path) && ClosesNothing(path) && Receding(path)
  {
    hide Does;
    var n := s.ApplyTransition(t, s.tasks[t].state, next, failure).0;
    var batch := s.TransitionBatch(t, s.tasks[t].state, next, failure);
    if s.store.Append(t, batch).1.Some? {
      RefusalIsIdle(s, t, batch);
      path := [Hop(Idle, n)];
    } else {
      FinishIsMove(s, t, next, failure);
      OneMove(s, Finish(t, next, failure), n);
      path := [Hop(Finish(t, next, failure), n)];
    }
  }

  /** `succeed`, `fail` and `fail_budget_exceeded`. */
  lemma TransitionReaches(s: Supervisor, t: TaskId, next: TaskState, failure: Option<ErrorCode>) returns (path: Path)
    requires TasksSound(s) && (next.Succeeded? || next.Failed?) && (failure.Some? ==> next == Failed)
    ensures Reaches(s, path, s.Transition(t, next, failure).0)
    ensures StartsNothing(path) && ClosesNothing(path) && Receding(path)
  {
    path := [];
    if t in s.tasks {
      if s.tasks[t].state.CanTransitionTo(next) {
        path := ApplyReaches(s, t, next, failure);
      }
    } else if t in s.recovered {
      assert RecoveredSound(s, t);
    }
  }

  lemma CancelReaches(s: Supervisor, t: TaskId) returns (path: Path)
    requires TasksSound(s)
    ensures Reaches(s, path, s.Cancel(t).0)
    ensures StartsNothing(path) && ClosesNothing(path) && Receding(path)
  {
    path := [];
    if t in s.tasks {
      if !s.tasks[t].state.IsTerminal() {
        path := ApplyReaches(s, t, Cancelled, None);
      }
    } else if t in s.recovered {
      assert RecoveredSound(s, t);
    }
  }

  lemma StartIsMove(s: Supervisor, t: TaskId, now: nat)
    requires TasksSound(s) && t in s.tasks && s.tasks[t].state.CanTransitionTo(Running)
    requires s.store.Append(t, [StateTransitioned(s.tasks[t].state, Running)]).1.None?
    ensures Does(s, Begin(t, now), s.Start(t, now).0)
  {
    assert TaskSound(s, t);
    var batch := s.TransitionBatch(t, s.tasks[t].state, Running, None);
    assert batch == [StateTransitioned(s.tasks[t].state, Running)];
    AcceptedLogs(s, t, batch);
  }

  lemma StartReaches(s: Supervisor, t: TaskId, now: nat) returns (path: Path)
    requires TasksSound(s)
    ensures Reaches(s, path, s.Start(t, now).0)
    ensures path == [] || path == [Hop(Idle, s.Start(t, now).0)] || path == [Hop(Begin(t, now), s.Start(t, now).0)]
  {
    hide Does;
    path := [];
    var n := s.Start(t, now).0;
    if t in s.tasks {
      if s.tasks[t].state.CanTransitionTo(Running) {
        var batch := s.TransitionBatch(t, s.tasks[t].state, Running, None);
        assert batch == [StateTransitioned(s.tasks[t].state, Running)];
        if s.store.Append(t, batch).1.Some? {
          RefusalIsIdle(s, t, batch);
          path := [Hop(Idle, n)];
        } else {
          StartIsMove(s, t, now);
          OneMove(s, Begin(t, now), n);
          path := [Hop(Begin(t, now), n)];
        }
      }
    } else if t in s.recovered {
      assert RecoveredSound(s, t);
    }
  }

  /******* Expiry *******/

  lemma CloseIsMove(s: Supervisor, a: ApprovalId, e: TaskEventKind, log: AuditLog)
    requires TasksSound(s) && PendingsSound(s) && a in s.pending && s.pending[a].task in s.tasks
    requires Closing(e, a, s.pending[a].operation)
    requires var p := s.pending[a];
             s.store.Append(p.task, [e, StateTransitioned(s.tasks[p.task].state, Failed)]) == (log, None)
    ensures Does(s, Close(s.pending[a].task, e, a, s.pending[a].operation), s.CloseFailed(a, log))
  {
    hide AuditLog.Append, ActionOf, Authority.Remove, InScope, ErrorCount, OpensAs, KeepsApprovals, Grants, Consumes,
         Finishes, Enrolls;
    var p := s.pending[a];
    assert PendingSound(s, a) && TaskSound(s, p.task);
    hide AuditLog.Append, ActionOf, TasksSound, TaskSound, PendingsSound;
    AcceptedLogs(s, p.task, [e, StateTransitioned(s.tasks[p.task].state, Failed)]);
  }

  /** One expiry never fails except by a refused batch. */
  lemma ExpireOneReaches(s: Supervisor, a: ApprovalId) returns (path: Path)
    requires TasksSound(s) && PendingsSound(s)
    ensures Reaches(s, path, s.ExpireOne(a).0)
    ensures StartsNothing(path) && Receding(path)
    ensures s.ExpireOne(a).1.Some? ==> s.ExpireOne(a).1.value.EventStore?
    ensures s.ExpireOne(a).1.None? ==> a !in s.ExpireOne(a).0.pending
  {
    hide Authority.Remove, AuditLog.Append, TasksSound, ActionOf;
    hide Does;
    path := [];
    if a in s.pending {
      assert PendingSound(s, a);
      var p := s.pending[a];
      var e := TaskEventKind.ApprovalExpired(a, p.operation);
      var batch := [e, StateTransitioned(s.tasks[p.task].state, Failed)];
      var (log, refusal) := s.store.Append(p.task, batch);
      var n := s.ExpireOne(a).0;
      if refusal.Some? {
        RefusalIsIdle(s, p.task, batch);
        path := [Hop(Idle, n)];
      } else {
        CloseIsMove(s, a, e, log);
        OneMove(s, Close(p.task, e, a, p.operation), n);
        path := [Hop(Close(p.task, e, a, p.operation), n)];
      }
    }
  }

  lemma {:induction false} SweepReaches(s: Supervisor, ids: seq<ApprovalId>, count: nat) returns (path: Path)
    requires Sound(s)
    ensures Reaches(s, path, s.Sweep(ids, count).0)
    ensures StartsNothing(path) && Receding(path)
    ensures s.Sweep(ids, count).1.Err? ==> s.Sweep(ids, count).1.error.EventStore?
    decreases ids
  {
    hide Does;
    path := [];
    if ids != [] {
      var (s1, failure) := s.ExpireOne(ids[0]);
      path := ExpireOneReaches(s, ids[0]);
      ChainSound(s, path, s1);
      if failure.None? {
        var next := if ids[0] in s.pending then count + 1 else count;
        var more := SweepReaches(s1, ids[1..], next);
        ReachesOn(s, path, s1, more, s1.Sweep(ids[1..], next).0);
        path := path + more;
      }
    }
  }

  /******* Requests *******/

  lemma NoteReaches(s: Supervisor, t: TaskId, e: TaskEventKind) returns (path: Path)
    requires TasksSound(s) && t in s.tasks && s.tasks[t].state.Running? && (e.OperationAllowed? || e.OperationDenied?)
    ensures Reaches(s, path, s.(store := s.store.Append(t, [e]).0))
    ensures StartsNothing(path) && ClosesNothing(path)
  {
    assert TaskSound(s, t);
    var n := s.(store := s.store.Append(t, [e]).0);
    if s.store.Append(t, [e]).1.Some? {
      RefusalIsIdle(s, t, [e]);
      path := [Hop(Idle, n)];
    } else {
      AcceptedLogs(s, t, [e]);
      assert n.tasks == s.tasks[t := s.tasks[t]];
      OneMove(s, Note(t, e), n);
      path := [Hop(Note(t, e), n)];
    }
  }

  lemma OpenShape(s: Supervisor, n: Supervisor, t: TaskId, request: CapabilityRequest, a: ApprovalId, o: OperationId,
                  deadline: nat, log: AuditLog, authority: Authority)
    requires t in s.tasks && t in s.store.logs && s.tasks[t].state.Running?
    requires a !in s.used && o !in s.used && a != o && s.PendingOf(t) == {}
    requires |s.authority.pending| < s.authority.maxPending
    requires authority == s.authority.Insert(a, PendingApproval(t, o, ActionOf(request), deadline))
    requires log.logs == s.store.logs[t := s.store.logs[t] + OpenBatch(a, o)]
    requires n == s.Opened(t, request, a, o, log, authority)
    ensures Advanced(s, n, t, s.tasks[t].(state := WaitingApproval), OpenBatch(a, o))
    ensures OpensAs(s, n, t, request, a, o, deadline)
  {
    hide Authority.Insert, ActionOf;
    forall b | b in s.pending ensures s.pending[b].task != t {
      assert b !in s.PendingOf(t);
    }
  }

  lemma OpenIsMove(s: Supervisor, n: Supervisor, t: TaskId, request: CapabilityRequest, a: ApprovalId, o: OperationId,
                   deadline: nat, log: AuditLog)
    requires TasksSound(s) && t in s.tasks && s.tasks[t].state.Running?
    requires a !in s.used && o !in s.used && a != o && s.PendingOf(t) == {}
    requires |s.authority.pending| < s.authority.maxPending
    requires s.store.Append(t, OpenBatch(a, o)) == (log, None) && InScope(s, t, request)
    requires n == s.Opened(t, request, a, o, log, s.authority.Insert(a,
             PendingApproval(t, o, ActionOf(request), deadline)))
    ensures Does(s, Open(t, request, a, o, deadline), n)
  {
    hide Authority.Insert, ActionOf, ErrorCount, Evaluate, KeepsApprovals, Grants, Consumes, Finishes, Enrolls, Closes,
         Authority.Remove;
    assert TaskSound(s, t);
    AcceptedLogs(s, t, OpenBatch(a, o));
    OpenShape(s, n, t, request, a, o, deadline, log, n.authority);
    hide Advanced, OpensAs, AuditLog.Append, Authority.Insert, TasksSound, TaskSound, Supervisor.PendingOf, ActionOf;
  }

  function OpenBatch(a: ApprovalId, o: OperationId): Log {
    [ApprovalRequested(a, o), StateTransitioned(Running, WaitingApproval)]
  }

  /** The approval branch of `request_operation`, when it fails, leaves the state as it was apart
      from the backend having been asked: a refused batch rolls the authority back exactly. */
  lemma {:induction false} RequestRollsBack(s: Supervisor, t: TaskId, request: CapabilityRequest, ttl: nat, now: nat,
                                            o: OperationId, a: ApprovalId)
    requires AuthoritySound(s) && a !in s.pending && t in s.tasks && s.tasks[t].state.Running?
    requires s.OpenApproval(t, request, ttl, now, o, a).1.Err?
    ensures var n := s.OpenApproval(t, request, ttl, now, o, a).0;
            var (log, refusal) := s.store.Append(t, OpenBatch(a, o));
            n == s || (refusal.Some? && n == s.(store := log))
  {
    RequestIsAllOrNothing(s.authority, t, o, ActionOf(request), ttl, now, a);
    RevokeUndoesRequest(s.authority, t, o, ActionOf(request), ttl, now, a);
  }

  /** When it succeeds, it opens exactly one approval. */
  lemma {:induction false} RequestOpens(s: Supervisor, t: TaskId, request: CapabilityRequest, ttl: nat, now: nat,
                                        o: OperationId, a: ApprovalId)
    requires IsValidConfig(s.authority.maxPending, s.authority.maxTtl) && t in s.tasks && s.tasks[t].state.Running?
    requires s.OpenApproval(t, request, ttl, now, o, a).1.Ok?
    ensures s.store.Append(t, OpenBatch(a, o)).1.None?
    ensures s.OpenApproval(t, request, ttl, now, o, a).0
            == s.Opened(t, request, a, o, s.store.Append(t, OpenBatch(a, o)).0,
                        s.authority.Insert(a, PendingApproval(t, o, ActionOf(request), now + ttl)))
  {
    hide IsValidAction, ActionOf, IsValidConfig;
    RequestIsAllOrNothing(s.authority, t, o, ActionOf(request), ttl, now, a);
  }

  /** It succeeds only for a Task without pending approval, within the authority's limit. */
  lemma RequestWithinLimits(s: Supervisor, t: TaskId, request: CapabilityRequest, ttl: nat, now: nat, o: OperationId,
                            a: ApprovalId)
    requires IsValidConfig(s.authority.maxPending, s.authority.maxTtl) && t in s.tasks
    requires s.OpenApproval(t, request, ttl, now, o, a).1.Ok?
    ensures s.PendingOf(t) == {} && |s.authority.pending| < s.authority.maxPending
  {
    RequestIsAllOrNothing(s.authority, t, o, ActionOf(request), ttl, now, a);
    hide Authority.Request, Supervisor.Opened, AuditLog.Append, Authority.Insert, Authority.Remove;
  }

  lemma OpenAnswers(s: Supervisor, t: TaskId, request: CapabilityRequest, ttl: nat, now: nat, o: OperationId,
                    a: ApprovalId)
    requires IsValidConfig(s.authority.maxPending, s.authority.maxTtl) && t in s.tasks
    requires s.OpenApproval(t, request, ttl, now, o, a).1.Ok?
    ensures var r := s.OpenApproval(t, request, ttl, now, o, a).1;
            r.value.NeedsApproval? && r.value.approval.operation == o && r.value.approval.approval == a
  {
    hide IsValidConfig, Authority.Request, AuditLog.Append, Authority.Remove, Supervisor.Opened, ActionOf,
         IsValidAction,
         Authority.Insert;
    RequestIsAllOrNothing(s.authority, t, o, ActionOf(request), ttl, now, a);
  }

  lemma OpenedReaches(s: Supervisor, t: TaskId, request: CapabilityRequest, ttl: nat, now: nat, o: OperationId,
                      a: ApprovalId)
    requires TasksSound(s) && IsValidConfig(s.authority.maxPending, s.authority.maxTtl)
    requires t in s.tasks && s.tasks[t].state.Running? && a !in s.used && o !in s.used && a != o
    requires InScope(s, t, request) && s.OpenApproval(t, request, ttl, now, o, a).1.Ok?
    ensures var n := s.OpenApproval(t, request, ttl, now, o, a).0;
            Reaches(s, [Hop(Open(t, request, a, o, now + ttl), n)], n)
  {
    hide Does, IsValidConfig, Supervisor.OpenApproval, Supervisor.Opened, Authority.Insert, AuditLog.Append,
         Supervisor.PendingOf, TasksSound;
    RequestOpens(s, t, request, ttl, now, o, a);
    RequestWithinLimits(s, t, request, ttl, now, o, a);
    var n := s.OpenApproval(t, request, ttl, now, o, a).0;
    OpenIsMove(s, n, t, request, a, o, now + ttl, s.store.Append(t, OpenBatch(a, o)).0);
    OneMove(s, Open(t, request, a, o, now + ttl), n);
  }

  lemma OpenReaches(s: Supervisor, t: TaskId, request: CapabilityRequest, ttl: nat, now: nat, o: OperationId,
                    a: ApprovalId)
    returns (path: Path)
    requires TasksSound(s) && AuthoritySound(s) && t in s.tasks && s.tasks[t].state.Running?
    requires a !in s.used && o !in s.used && a != o && a !in s.pending && InScope(s, t, request)
    ensures Reaches(s, path, s.OpenApproval(t, request, ttl, now, o, a).0)
    ensures StartsNothing(path) && ClosesNothing(path)
  {
    hide Does, IsValidConfig, Supervisor.OpenApproval, AuditLog.Append, TasksSound, InScope, Supervisor.Opened;
    assert IsValidConfig(s.authority.maxPending, s.authority.maxTtl);
    hide Authority.Consistent;
    var (n, r) := s.OpenApproval(t, request, ttl, now, o, a);
    path := [];
    if r.Ok? {
      OpenedReaches(s, t, request, ttl, now, o, a);
      path := [Hop(Open(t, request, a, o, now + ttl), n)];
    } else if n != s {
      RequestRollsBack(s, t, request, ttl, now, o, a);
      RefusalIsIdle(s, t, OpenBatch(a, o));
      path := [Hop(Idle, n)];
    }
  }

  lemma RequestSweptReaches(s: Supervisor, t: TaskId, request: CapabilityRequest, ttl: nat, now: nat, o: OperationId,
                            a: ApprovalId)
    returns (path: Path)
    requires Sound(s) && a !in s.used && o !in s.used && a != o
    ensures Reaches(s, path, s.RequestSwept(t, request, ttl, now, o, a).0)
    ensures StartsNothing(path) && ClosesNothing(path)
  {
    hide Does;
    path := [];
    if t in s.tasks && s.tasks[t].state.CanTransitionTo(WaitingApproval) && ErrorCount(s.tasks[t].spec) == 0 {
      match Evaluate(s.tasks[t].spec, request)
      case Permit => path := NoteReaches(s, t, OperationAllowed);
      case Refuse(reason) => path := NoteReaches(s, t, OperationDenied(reason));
      case ApprovalRequired =>
        FreshIsAbsent(s, a);
        path := OpenReaches(s, t, request, ttl, now, o, a);
    }
  }

  /******* Decisions *******/

  lemma GrantIsMove(s: Supervisor, a: ApprovalId, now: nat, batch: Log, log: AuditLog)
    requires TasksSound(s) && PendingsSound(s) && a in s.pending && s.pending[a].task in s.tasks
    requires s.tasks[s.pending[a].task].state.WaitingApproval? && s.authority.Approve(a, now).1.Ok?
    requires batch == [ApprovalGranted(a, s.pending[a].operation), StateTransitioned(WaitingApproval, Running)]
    requires s.store.Append(s.pending[a].task, batch) == (log, None)
    ensures var p, r := s.pending[a], s.authority.Approve(a, now);
            Does(s, Grant(p.task, a, p.operation, ApprovedOperation(p.task, p.request, r.1.value)),
                 s.Promoted(a, r.1.value, log, r.0))
  {
    hide AuditLog.Append, ActionOf, Authority.Remove, InScope, ErrorCount, OpensAs, KeepsApprovals, Closes, Consumes,
         Finishes, Enrolls;
    assert PendingSound(s, a) && TaskSound(s, s.pending[a].task);
    AcceptedLogs(s, s.pending[a].task, batch);
    hide AuditLog.Append, ActionOf, TasksSound, TaskSound, PendingsSound;
  }

  function GrantBatch(a: ApprovalId, o: OperationId): Log {
    [ApprovalGranted(a, o), StateTransitioned(WaitingApproval, Running)]
  }

  /** `approve_operation`, when it fails, leaves the state as it was apart from the backend having
      been asked: a refused batch restores the grant exactly. */
  lemma {:induction false} ApproveRollsBack(s: Supervisor, a: ApprovalId, now: nat)
    requires s.authority.Consistent() && (a in s.pending ==> PendingSound(s, a)) && s.ApproveSwept(a, now).1.Err?
    ensures var n := s.ApproveSwept(a, now).0;
            n == s || (a in s.pending
                       && var (log, refusal) := s.store.Append(s.pending[a].task,
                          GrantBatch(a, s.pending[a].operation));
                          refusal.Some? && n == s.(store := log))
  {
    RestoreUndoesApprove(s.authority, a, now);
    hide Authority.Consistent;
  }

  lemma {:induction false} ApprovePromotes(s: Supervisor, a: ApprovalId, now: nat)
    requires (a in s.pending ==> PendingSound(s, a)) && s.ApproveSwept(a, now).1.Ok?
    ensures var (n, r) := s.ApproveSwept(a, now);
            && a in s.pending && s.authority.Approve(a, now).1.Ok?
            && var p, g := s.pending[a], s.authority.Approve(a, now);
            && var (log, refusal) := s.store.Append(p.task, GrantBatch(a, p.operation));
            && p.task in s.tasks && s.tasks[p.task].state.WaitingApproval? && refusal.None?
            && n == s.Promoted(a, g.1.value, log, g.0) && r.value.task == p.task
  {
  }

  lemma ApproveSweptReaches(s: Supervisor, a: ApprovalId, now: nat) returns (path: Path)
    requires TasksSound(s) && PendingsSound(s) && AuthoritySound(s)
    ensures Reaches(s, path, s.ApproveSwept(a, now).0)
    ensures StartsNothing(path) && ClosesNothing(path)
  {
    hide Does, Supervisor.ApproveSwept, Supervisor.Promoted, Authority.Approve, Authority.Consistent, AuditLog.Append;
    var (n, r) := s.ApproveSwept(a, now);
    path := [];
    if r.Ok? {
      ApprovePromotes(s, a, now);
      var p, g := s.pending[a], s.authority.Approve(a, now);
      var log := s.store.Append(p.task, GrantBatch(a, p.operation)).0;
      GrantIsMove(s, a, now, GrantBatch(a, p.operation), log);
      var m := Grant(p.task, a, p.operation, ApprovedOperation(p.task, p.request, g.1.value));
      OneMove(s, m, n);
      path := [Hop(m, n)];
    } else if n != s {
      ApproveRollsBack(s, a, now);
      RefusalIsIdle(s, s.pending[a].task, GrantBatch(a, s.pending[a].operation));
      path := [Hop(Idle, n)];
    }
  }

  lemma DenySweptReaches(s: Supervisor, a: ApprovalId) returns (path: Path)
    requires TasksSound(s) && PendingsSound(s)
    ensures Reaches(s, path, s.DenySwept(a).0)
    ensures StartsNothing(path) && Receding(path)
  {
    hide Authority.Remove, AuditLog.Append, TasksSound, ActionOf, Supervisor.CloseFailed;
    hide Does;
    path := [];
    if a in s.pending {
      assert PendingSound(s, a);
      var p := s.pending[a];
      var e := ApprovalDenied(a, p.operation);
      var batch := [e, StateTransitioned(s.tasks[p.task].state, Failed)];
      var (log, refusal) := s.store.Append(p.task, batch);
      var n := s.DenySwept(a).0;
      if refusal.Some? {
        RefusalIsIdle(s, p.task, batch);
        path := [Hop(Idle, n)];
      } else {
        CloseIsMove(s, a, e, log);
        OneMove(s, Close(p.task, e, a, p.operation), n);
        path := [Hop(Close(p.task, e, a, p.operation), n)];
      }
    }
  }

  lemma ConsumeIsMove(s: Supervisor, t: TaskId, o: OperationId, log: AuditLog)
    requires TasksSound(s) && t in s.tasks && s.tasks[t].state.Running?
    requires o in s.approved && s.approved[o].task == t
    requires s.store.Append(t, [ApprovalConsumed(s.approved[o].grant.approval, o)]) == (log, None)
    ensures Does(s, Consume(t, s.approved[o].grant.approval, o), s.(approved := s.approved - {o}, store := log))
  {
    assert TaskSound(s, t);
    AcceptedLogs(s, t, [ApprovalConsumed(s.approved[o].grant.approval, o)]);
    assert s.tasks == s.tasks[t := s.tasks[t]];
  }

  lemma ForgetIsMove(s: Supervisor, o: OperationId)
    ensures Does(s, Forget(o), s.(approved := s.approved - {o}))
  {
  }

  lemma AuthorizeReaches(s: Supervisor, t: TaskId, o: OperationId, request: CapabilityRequest, now: nat)
    returns (path: Path)
    requires TasksSound(s)
    ensures Reaches(s, path, s.AuthorizeOperation(t, o, request, now).0)
    ensures StartsNothing(path) && ClosesNothing(path)
  {
    hide Does, TasksSound, ErrorCount, Evaluate;
    path := [];
    var n := s.AuthorizeOperation(t, o, request, now).0;
    if n != s && o in s.approved {
      var spent := s.(approved := s.approved - {o});
      ForgetIsMove(s, o);
      OneMove(s, Forget(o), spent);
      path := [Hop(Forget(o), spent)];
      if n != spent {
        var batch := [ApprovalConsumed(s.approved[o].grant.approval, o)];
        var (log, refusal) := s.store.Append(t, batch);
        assert spent.store.Append(t, batch) == (log, refusal);
        if refusal.Some? {
          RefusalIsIdle(spent, t, batch);
          ReachesOn(s, path, spent, [Hop(Idle, n)], n);
          path := path + [Hop(Idle, n)];
        } else {
          ConsumeIsMove(s, t, o, log);
          OneMove(s, Consume(t, s.approved[o].grant.approval, o), n);
          path := [Hop(Consume(t, s.approved[o].grant.approval, o), n)];
        }
      }
    }
  }

  /******* Submission *******/

  lemma SubmissionEnds(s: Supervisor, spec: TaskSpec)
    ensures var batch := s.SubmissionBatch(spec);
            && batch != []
            && LastState(batch) == Some(if ErrorCount(spec) == 0 then Queued else Rejected)
            && forall i, a :: 0 <= i < |batch| ==> !Concerns(batch[i], a)
  {
  }

  lemma SubmitReaches(s: Supervisor, spec: TaskSpec, id: TaskId) returns (path: Path)
    requires TasksSound(s) && id !in s.used
    ensures Reaches(s, path, s.Submit(spec, id).0)
    ensures StartsNothing(path) && ClosesNothing(path) && Receding(path)
  {
    hide Does;
    path := [];
    var n := s.Submit(spec, id).0;
    if spec.idempotencyKey !in s.idempotency && |s.tasks| + |s.recovered| < s.maxTasks {
      SubmissionEnds(s, spec);
      if s.store.Append(id, s.SubmissionBatch(spec)).1.Some? {
        RefusalIsIdle(s, id, s.SubmissionBatch(spec));
        path := [Hop(Idle, n)];
      } else {
        EnrollIsMove(s, spec, id);
        OneMove(s, Move.Enroll(id, spec), n);
        path := [Hop(Move.Enroll(id, spec), n)];
      }
    }
  }

  lemma EnrollIsMove(s: Supervisor, spec: TaskSpec, id: TaskId)
    requires TasksSound(s) && id !in s.used && spec.idempotencyKey !in s.idempotency
    requires s.store.Append(id, s.SubmissionBatch(spec)).1.None?
    ensures Does(s, Move.Enroll(id, spec), s.Enroll(spec, id, s.store.Append(id, s.SubmissionBatch(spec)).0))
  {
    var batch := s.SubmissionBatch(spec);
    SubmissionEnds(s, spec);
    assert s.store.LogOf(id) == [];
    assert [] + batch == batch;
  }

  /******* All calls *******/

  lemma AfterSweep(s: Supervisor, now: nat) returns (path: Path)
    requires Sound(s)
    ensures Reaches(s, path, s.ExpireApprovals(now).0) && Sound(s.ExpireApprovals(now).0)
    ensures StartsNothing(path) && Receding(path)
  {
    hide Does;
    path := SweepReaches(s, s.authority.ExpiredIds(now), 0);
    ChainSound(s, path, s.ExpireApprovals(now).0);
  }

  lemma {:induction false} SweepDrawsNothing(s: Supervisor, ids: seq<ApprovalId>, count: nat)
    ensures s.Sweep(ids, count).0.used == s.used
    decreases ids
  {
    if ids != [] {
      var (s1, _) := s.ExpireOne(ids[0]);
      SweepDrawsNothing(s1, ids[1..], if ids[0] in s.pending then count + 1 else count);
    }
  }

  lemma RequestReaches(s: Supervisor, c: Command) returns (path: Path)
    requires Sound(s) && c.CallRequest? && DrawsFresh(s, c)
    ensures Reaches(s, path, Step(s, c))
    ensures StartsNothing(path)
  {
    hide Does;
    path := AfterSweep(s, c.sweptAt);
    var (swept, r) := s.ExpireApprovals(c.sweptAt);
    SweepDrawsNothing(s, s.authority.ExpiredIds(c.sweptAt), 0);
    if r.Ok? {
      var more := RequestSweptReaches(swept, c.task, c.request, c.ttl, c.now, c.operation, c.approval);
      ReachesOn(s, path, swept, more, Step(s, c));
      path := path + more;
    }
  }

  lemma ApproveReaches(s: Supervisor, c: Command) returns (path: Path)
    requires Sound(s) && c.CallApprove?
    ensures Reaches(s, path, Step(s, c))
    ensures StartsNothing(path)
  {
    hide Does;
    path := AfterSweep(s, c.sweptAt);
    var (swept, r) := s.ExpireApprovals(c.sweptAt);
    if r.Ok? {
      var more := ApproveSweptReaches(swept, c.approval, c.now);
      ReachesOn(s, path, swept, more, Step(s, c));
      path := path + more;
    }
  }

  lemma DenyReaches(s: Supervisor, c: Command) returns (path: Path)
    requires Sound(s) && c.CallDeny?
    ensures Reaches(s, path, Step(s, c))
    ensures StartsNothing(path) && Receding(path)
  {
    hide Does;
    path := AfterSweep(s, c.sweptAt);
    var (swept, r) := s.ExpireApprovals(c.sweptAt);
    if r.Ok? {
      var more := DenySweptReaches(swept, c.approval);
      ReachesOn(s, path, swept, more, Step(s, c));
      path := path + more;
    }
  }

  /** Every call, in every sound state and against every backend, is a chain of moves. */
  lemma {:induction false} StepReaches(s: Supervisor, c: Command) returns (path: Path)
    requires Sound(s) && DrawsFresh(s, c)
    ensures Reaches(s, path, Step(s, c))
    ensures !c.CallStart? ==> StartsNothing(path)
    ensures !c.CallRequest? && !c.CallApprove? && !c.CallAuthorize? ==> Receding(path)
    ensures !c.CallRequest? && !c.CallApprove? && !c.CallDeny? && !c.CallExpire? ==> ClosesNothing(path)
    ensures c.CallStart? ==> |path| <= 1 && forall i :: 0 <= i < |path| && path[i].move.Begin? ==>
            path[i].move.task == c.task
  {
    hide Does;
    match c
    case CallSubmit(spec, id) => path := SubmitReaches(s, spec, id);
    case CallStart(t, now) => path := StartReaches(s, t, now);
    case CallRequest(_, _, _, _, _, _, _) => path := RequestReaches(s, c);
    case CallApprove(_, _, _) => path := ApproveReaches(s, c);
    case CallDeny(_, _) => path := DenyReaches(s, c);
    case CallAuthorize(t, o, request, now) => path := AuthorizeReaches(s, t, o, request, now);
    case CallExpire(now) => path := AfterSweep(s, now);
    case CallSucceed(t) => path := TransitionReaches(s, t, Succeeded, None);
    case CallFail(t) => path := TransitionReaches(s, t, Failed, None);
    case CallFailBudget(t) => path := TransitionReaches(s, t, Failed, Some(ErrorCode.BudgetExceeded));
    case CallCancel(t) => path := CancelReaches(s, t);
  }
}
