/** Every call of the supervisor is a chain of primitive moves, each changing one Task. Properties
    of whole runs are proved move by move. */
module Moves {
  import opened Basics
  import opened Lifecycle
  import opened Capability
  import opened Audit
  import opened Supervision
  import opened Soundness
  import opened SoundSteps

  datatype Move =
    | Idle
    | Begin(task: TaskId, now: nat)
    | Note(task: TaskId, event: TaskEventKind)
    | Open(task: TaskId, request: CapabilityRequest, approval: ApprovalId, operation: OperationId, deadline: nat)
    | Close(task: TaskId, event: TaskEventKind, approval: ApprovalId, operation: OperationId)
    | Grant(task: TaskId, approval: ApprovalId, operation: OperationId, entry: ApprovedOperation)
    | Consume(task: TaskId, approval: ApprovalId, operation: OperationId)
    | Forget(operation: OperationId)
    | Finish(task: TaskId, next: TaskState, failure: Option<ErrorCode>)
    | Enroll(task: TaskId, spec: TaskSpec)

  /** The events a move adds to its Task's log. */
  function Batch(s: Supervisor, m: Move): Log
    requires m.Idle? || m.Forget? || m.Enroll? || m.task in s.tasks
  {
    match m
    case Idle => []
    case Begin(t, _) => [StateTransitioned(s.tasks[t].state, Running)]
    case Note(_, e) => [e]
    case Open(t, _, a, o, _) => [ApprovalRequested(a, o), StateTransitioned(s.tasks[t].state, WaitingApproval)]
    case Close(t, e, _, _) => [e, StateTransitioned(s.tasks[t].state, Failed)]
    case Grant(t, a, o, _) => [ApprovalGranted(a, o), StateTransitioned(s.tasks[t].state, Running)]
    case Consume(_, a, o) => [ApprovalConsumed(a, o)]
    case Forget(_) => []
    case Finish(t, next, failure) => s.TransitionBatch(t, s.tasks[t].state, next, failure)
    case Enroll(_, spec) => s.SubmissionBatch(spec)
  }

  /** The record a move gives to its Task. */
  function RecordAfter(s: Supervisor, m: Move): TaskRecord
    requires !m.Idle? && !m.Forget? && !m.Enroll? && m.task in s.tasks
  {
    var r := s.tasks[m.task];
    match m
    case Begin(_, now) => r.(state := Running, startedAt := Some(now))
    case Note(_, _) => r
    case Open(_, _, _, _, _) => r.(state := WaitingApproval)
    case Close(_, _, _, _) => r.(state := Failed)
    case Grant(_, _, _, _) => r.(state := Running)
    case Consume(_, _, _) => r
    case Finish(_, next, _) => r.(state := next)
  }

  predicate KeepsApprovals(s: Supervisor, n: Supervisor) {
    n.pending == s.pending && n.approved == s.approved && n.authority == s.authority && n.used == s.used
  }

  /** `n` is `s` after the move. */
  ghost predicate Does(s: Supervisor, m: Move, n: Supervisor) {
    && n.maxTasks == s.maxTasks
    && match m
       case Idle => SameButPlan(s, n)
       case Forget(o) => n == s.(approved := s.approved - {o})
       case Enroll(t, spec) =>
         Enrolls(s, n, t, TaskRecord(spec, if ErrorCount(spec) == 0 then Queued else Rejected, None), Batch(s, m))
       case Begin(t, now) =>
         && t in s.tasks && Advanced(s, n, t, RecordAfter(s, m), Batch(s, m)) && KeepsApprovals(s, n)
         && (s.tasks[t].state.Queued? || s.tasks[t].state.WaitingApproval?)
       case Note(t, e) =>
         && t in s.tasks && Advanced(s, n, t, RecordAfter(s, m), Batch(s, m)) && KeepsApprovals(s, n)
         && s.tasks[t].state.Running? && (e.OperationAllowed? || e.OperationDenied?)
       case Open(t, request, a, o, deadline) =>
         && t in s.tasks && Advanced(s, n, t, RecordAfter(s, m), Batch(s, m))
         && OpensAs(s, n, t, request, a, o, deadline) && s.tasks[t].state.Running? && InScope(s, t, request)
       case Close(t, e, a, o) =>
         && t in s.tasks && Closes(s, n, t, RecordAfter(s, m), Batch(s, m), a, o) && Active(s.tasks[t].state)
       case Grant(t, a, o, entry) =>
         && t in s.tasks && Grants(s, n, t, RecordAfter(s, m), Batch(s, m), a, o, entry)
         && s.tasks[t].state.WaitingApproval? && entry.request == s.pending[a].request
       case Consume(t, a, o) =>
         t in s.tasks && Consumes(s, n, t, Batch(s, m), a, o)
       case Finish(t, next, failure) =>
         && t in s.tasks && Finishes(s, n, t, RecordAfter(s, m), Batch(s, m))
         && (next.Cancelled? || s.tasks[t].state.CanTransitionTo(next)) && !s.tasks[t].state.IsTerminal()
         && next != Rejected && (failure.Some? ==> next == Failed)
  }

  /******* Each move keeps the invariant *******/

  lemma BeginSound(s: Supervisor, m: Move, n: Supervisor)
    requires Sound(s) && m.Begin? && Does(s, m, n)
    ensures Sound(n)
  {
    hide InScope, ErrorCount, OpensAs, Closes, Grants, Consumes, Finishes, Enrolls, AuthoritySound, PendingsSound,
         ApprovedsSound, LivesSound, WaitersHavePending, Supervisor.TransitionBatch, Supervisor.SubmissionBatch;
    LastState1(s.store.logs[m.task], Batch(s, m)[0]);
    PlainAdvance(s, n, m.task, RecordAfter(s, m), Batch(s, m));
  }

  lemma NoteSound(s: Supervisor, m: Move, n: Supervisor)
    requires Sound(s) && m.Note? && Does(s, m, n)
    ensures Sound(n)
  {
    hide InScope, ErrorCount, OpensAs, Closes, Grants, Consumes, Finishes, Enrolls, AuthoritySound, PendingsSound,
         ApprovedsSound, LivesSound, WaitersHavePending, Supervisor.TransitionBatch, Supervisor.SubmissionBatch;
    assert TaskSound(s, m.task);
    LastState1(s.store.logs[m.task], Batch(s, m)[0]);
    PlainAdvance(s, n, m.task, RecordAfter(s, m), Batch(s, m));
  }

  lemma IdleSound(s: Supervisor, m: Move, n: Supervisor)
    requires Sound(s) && m.Idle? && Does(s, m, n)
    ensures Sound(n)
  {
    PlanIsIrrelevant(s, n, n.store);
  }

  lemma OpenMoveSound(s: Supervisor, m: Move, n: Supervisor)
    requires Sound(s) && m.Open? && Does(s, m, n)
    ensures Sound(n)
  {
    OpenSound(s, n, m.task, RecordAfter(s, m), m.request, m.approval, m.operation, m.deadline);
  }

  lemma CloseMoveSound(s: Supervisor, m: Move, n: Supervisor)
    requires Sound(s) && m.Close? && Does(s, m, n)
    ensures Sound(n)
  {
    CloseSound(s, n, m.task, RecordAfter(s, m), Batch(s, m), m.approval, m.operation);
  }

  lemma GrantMoveSound(s: Supervisor, m: Move, n: Supervisor)
    requires Sound(s) && m.Grant? && Does(s, m, n)
    ensures Sound(n)
  {
    GrantSound(s, n, m.task, RecordAfter(s, m), Batch(s, m), m.approval, m.operation, m.entry);
  }

  lemma ConsumeMoveSound(s: Supervisor, m: Move, n: Supervisor)
    requires Sound(s) && m.Consume? && Does(s, m, n)
    ensures Sound(n)
  {
    ConsumeSound(s, n, m.task, Batch(s, m), m.approval, m.operation);
  }

  lemma FinishMoveSound(s: Supervisor, m: Move, n: Supervisor)
    requires Sound(s) && m.Finish? && Does(s, m, n)
    ensures Sound(n)
  {
    FinishSound(s, n, m.task, RecordAfter(s, m), Batch(s, m));
  }

  lemma EnrollMoveSound(s: Supervisor, m: Move, n: Supervisor)
    requires Sound(s) && m.Enroll? && Does(s, m, n)
    ensures Sound(n)
  {
    var r := TaskRecord(m.spec, if ErrorCount(m.spec) == 0 then Queued else Rejected, None);
    EnrollSound(s, n, m.task, r, Batch(s, m));
  }

  lemma ForgetSound(s: Supervisor, m: Move, n: Supervisor)
    requires Sound(s) && m.Forget? && Does(s, m, n)
    ensures Sound(n)
  {
    SpendQuietly(s, n, m.operation);
  }

  /** Every move keeps the invariant of all runs. */
  lemma {:induction false} MoveSound(s: Supervisor, m: Move, n: Supervisor)
    requires Sound(s) && Does(s, m, n)
    ensures Sound(n)
  {
    hide *;
    match m
    case Idle => IdleSound(s, m, n);
    case Begin(_, _) => BeginSound(s, m, n);
    case Note(_, _) => NoteSound(s, m, n);
    case Open(_, _, _, _, _) => OpenMoveSound(s, m, n);
    case Close(_, _, _, _) => CloseMoveSound(s, m, n);
    case Grant(_, _, _, _) => GrantMoveSound(s, m, n);
    case Consume(_, _, _) => ConsumeMoveSound(s, m, n);
    case Forget(_) => ForgetSound(s, m, n);
    case Finish(_, _, _) => FinishMoveSound(s, m, n);
    case Enroll(_, _) => EnrollMoveSound(s, m, n);
  }

  /** Moves that advance one known Task. */
  predicate Advances(m: Move) { !m.Idle? && !m.Forget? && !m.Enroll? }

  /** Such a move finds its Task in a live state, gives it one record and extends its log by one batch. */
  lemma MoveAdvances(s: Supervisor, m: Move, n: Supervisor)
    requires Does(s, m, n) && Advances(m)
    ensures m.task in s.tasks && !s.tasks[m.task].state.IsTerminal()
    ensures Advanced(s, n, m.task, RecordAfter(s, m), Batch(s, m))
  {
    hide Advanced, OpensAs, KeepsApprovals, Batch;
  }

  /******* Chains of moves *******/

  datatype Hop = Hop(move: Move, to: Supervisor)
  type Path = seq<Hop>

  /** The moves of `path` lead from `s` to `n`. */
  ghost predicate Reaches(s: Supervisor, path: Path, n: Supervisor)
    decreases path
  {
    if path == [] then s == n else Does(s, path[0].move, path[0].to) && Reaches(path[0].to, path[1..], n)
  }

  /** Moves that open, grant and release nothing. */
  predicate Recedes(m: Move) { !m.Open? && !m.Grant? && !m.Consume? && !(m.Note? && m.event.OperationAllowed?) }

  predicate Receding(path: Path) { forall i :: 0 <= i < |path| ==> Recedes(path[i].move) }

  predicate ClosesNothing(path: Path) { forall i :: 0 <= i < |path| ==> !path[i].move.Close? }

  predicate StartsNothing(path: Path) { forall i :: 0 <= i < |path| ==> !path[i].move.Begin? }

  lemma OneMove(s: Supervisor, m: Move, n: Supervisor)
    requires Does(s, m, n)
    ensures Reaches(s, [Hop(m, n)], n)
  {
    hide Does;
    assert [Hop(m, n)][1..] == [];
  }

  lemma {:induction false} ReachesOn(s: Supervisor, path: Path, n: Supervisor, more: Path, k: Supervisor)
    requires Reaches(s, path, n) && Reaches(n, more, k)
    ensures Reaches(s, path + more, k)
    decreases path
  {
    hide Does;
    if path == [] {
      assert path + more == more;
    } else {
      ReachesOn(path[0].to, path[1..], n, more, k);
      assert (path + more)[1..] == path[1..] + more;
    }
  }

  lemma {:induction false} ChainSound(s: Supervisor, path: Path, n: Supervisor)
    requires Sound(s) && Reaches(s, path, n)
    ensures Sound(n)
    decreases path
  {
    hide Does, Sound;
    if path != [] {
      MoveSound(s, path[0].move, path[0].to);
      ChainSound(path[0].to, path[1..], n);
    }
  }
}
