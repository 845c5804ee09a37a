/** Replaying logs, move by move: when every Task's log replays to the state held in memory, and exactly
    which move breaks that. */
module Replaying {
  import opened Basics
  import opened Lifecycle
  import opened Capability
  import opened Audit
  import opened Approval
  import opened Supervision
  import opened Soundness
  import opened SoundSteps
  import opened Moves

  ghost predicate TaskSynced(s: Supervisor, t: TaskId) {
    && (t in s.tasks ==> t in s.store.logs && Replay(s.store.logs[t]) == At(s.tasks[t].state))
    && (t in s.recovered ==> t in s.store.logs && Replay(s.store.logs[t]) == At(s.recovered[t]))
  }

  /** Every Task's log replays to the state held in memory. */
  ghost predicate LogsReplay(s: Supervisor) { forall t :: TaskSynced(s, t) }

  /** Some Task's log is rejected by replay. */
  ghost predicate SomeLogBroken(s: Supervisor) {
    exists t :: t in s.tasks && t in s.store.logs && Replay(s.store.logs[t]) == Broken
  }

  lemma BrokenIsNotReplayed(s: Supervisor)
    requires SomeLogBroken(s)
    ensures !LogsReplay(s)
  {
    var t :| t in s.tasks && t in s.store.logs && Replay(s.store.logs[t]) == Broken;
    assert !TaskSynced(s, t);
  }

  /******* The final batch *******/

  lemma {:induction false} ReplayRevocations(state: TaskState, rs: Log)
    requires forall i :: 0 <= i < |rs| ==> rs[i].ApprovalRevoked?
    requires Active(state) || rs == []
    ensures ReplayFrom(At(state), rs) == At(state)
    decreases rs
  {
    if rs != [] {
      ReplayRevocations(state, rs[1..]);
    }
  }

  lemma ReplayTransitionEvents(state: TaskState, next: TaskState, failure: Option<ErrorCode>)
    requires !state.IsTerminal() && (next.Cancelled? || state.CanTransitionTo(next))
    requires failure.Some? ==> next == Failed
    ensures ReplayFrom(At(state), TransitionEvents(state, next, failure)) == At(next)
  {
    var events := TransitionEvents(state, next, failure);
    if failure.Some? {
      assert events == [TaskFailed(failure.value), StateTransitioned(state, next)];
      assert events[1..] == [StateTransitioned(state, next)];
      assert events[1..][1..] == [];
      assert ReplayFrom(At(state), events) == ReplayFrom(Failing(state), events[1..]);
      assert ReplayFrom(Failing(state), events[1..]) == ReplayFrom(At(next), []);
    } else {
      assert events == [StateTransitioned(state, next)];
      assert events[1..] == [];
    }
  }

  /** A Task with standing approvals is active, so its revocations replay. */
  lemma RevokedTasksAreActive(s: Supervisor, t: TaskId)
    requires PendingsSound(s) && ApprovedsSound(s) && t in s.tasks && !s.tasks[t].state.IsTerminal()
    ensures Active(s.tasks[t].state) || s.Revocations(t) == []
    ensures forall i :: 0 <= i < |s.Revocations(t)| ==> s.Revocations(t)[i].ApprovalRevoked?
  {
    forall a | a in s.PendingOf(t) ensures Active(s.tasks[t].state) {
      assert PendingSound(s, a);
    }
    forall o | o in s.ApprovedOf(t) ensures Active(s.tasks[t].state) {
      assert ApprovedSound(s, o);
    }
    if !Active(s.tasks[t].state) {
      assert s.PendingOf(t) == {} && s.ApprovedOf(t) == {};
    }
  }

  lemma FinishReplays(s: Supervisor, t: TaskId, next: TaskState, failure: Option<ErrorCode>, log: Log)
    requires PendingsSound(s) && ApprovedsSound(s) && t in s.tasks && !s.tasks[t].state.IsTerminal()
    requires next.IsTerminal() && (next.Cancelled? || s.tasks[t].state.CanTransitionTo(next))
    requires failure.Some? ==> next == Failed
    requires Replay(log) == At(s.tasks[t].state)
    ensures Replay(log + s.TransitionBatch(t, s.tasks[t].state, next, failure)) == At(next)
  {
    var state := s.tasks[t].state;
    var rs, events := s.Revocations(t), TransitionEvents(state, next, failure);
    RevokedTasksAreActive(s, t);
    ReplayRevocations(state, rs);
    ReplayTransitionEvents(state, next, failure);
    ReplayConcat(Blank, log, rs + events);
    ReplayConcat(At(state), rs, events);
  }

  lemma SubmissionReplays(s: Supervisor, spec: TaskSpec)
    ensures Replay(s.SubmissionBatch(spec)) == At(if ErrorCount(spec) == 0 then Queued else Rejected)
  {
    hide ErrorCount;
    var batch := s.SubmissionBatch(spec);
    var two := [TaskSubmitted, StateTransitioned(TaskState.Submitted, Validating)];
    assert [] + two == two;
    Replay2([], two[0], two[1]);
    if ErrorCount(spec) == 0 {
      assert batch == two + [StateTransitioned(Validating, Queued)];
      Replay1(two, batch[2]);
    } else {
      assert batch == two + [ValidationFailed(ErrorCount(spec)), StateTransitioned(Validating, Rejected)];
      Replay2(two, batch[2], batch[3]);
    }
  }

  lemma NewTaskIsUnknown(s: Supervisor, t: TaskId)
    requires TasksSound(s) && t !in s.used
    ensures t !in s.tasks && t !in s.recovered
  {
    forall u | u in s.tasks ensures u != t {
      assert TaskSound(s, u);
    }
    forall u | u in s.recovered ensures u != t {
      assert RecoveredSound(s, u);
    }
  }

  /******* Wall time *******/

  lemma OtherMovesKeepTasks(s: Supervisor, m: Move, n: Supervisor, t: TaskId)
    requires TasksSound(s) && Does(s, m, n) && !Advances(m) && t in s.tasks
    ensures t in n.tasks && n.tasks[t] == s.tasks[t]
    ensures t in s.store.logs ==> t in n.store.logs && n.store.logs[t] == s.store.logs[t]
  {
    hide TasksSound, ErrorCount, Batch;
    if m.Enroll? {
      NewTaskIsUnknown(s, m.task);
    }
  }

  /******* Moves *******/

  lemma AdvanceReplays(s: Supervisor, n: Supervisor, t: TaskId, r: TaskRecord, batch: Log)
    requires LogsReplay(s) && t !in s.recovered && Advanced(s, n, t, r, batch)
    requires Replay(s.store.logs[t] + batch) == At(r.state)
    ensures LogsReplay(n)
  {
    forall u ensures TaskSynced(n, u) {
      assert TaskSynced(s, u);
    }
  }

  /** Moves that add one event, restarts of waiting Tasks included. */
  lemma OneEventReplays(s: Supervisor, m: Move, n: Supervisor)
    requires TasksSound(s) && LogsReplay(s) && Does(s, m, n) && (m.Begin? || m.Note? || m.Consume?)
    ensures LogsReplay(n)
  {
    hide ErrorCount, InScope, OpensAs, Closes, Grants, Finishes, Enrolls, Replay, KeepsApprovals, LastState,
         Supervisor.TransitionBatch, Supervisor.SubmissionBatch;
    assert TaskSound(s, m.task) && TaskSynced(s, m.task);
    var batch := Batch(s, m);
    assert batch == [batch[0]];
    Replay1(s.store.logs[m.task], batch[0]);
    AdvanceReplays(s, n, m.task, RecordAfter(s, m), batch);
  }

  lemma TwoEventsReplay(s: Supervisor, m: Move, n: Supervisor)
    requires TasksSound(s) && LogsReplay(s) && Does(s, m, n) && (m.Open? || m.Grant?)
    ensures LogsReplay(n)
  {
    hide ErrorCount, InScope, Closes, Consumes, Finishes, Enrolls, Replay, KeepsApprovals, OpensAs, LastState,
         Supervisor.TransitionBatch, Supervisor.SubmissionBatch, Authority.Remove;
    assert TaskSound(s, m.task) && TaskSynced(s, m.task);
    var batch := Batch(s, m);
    assert batch == [batch[0], batch[1]];
    Replay2(s.store.logs[m.task], batch[0], batch[1]);
    AdvanceReplays(s, n, m.task, RecordAfter(s, m), batch);
  }

  lemma FinishKeepsReplay(s: Supervisor, m: Move, n: Supervisor)
    requires TasksSound(s) && PendingsSound(s) && ApprovedsSound(s) && LogsReplay(s) && Does(s, m, n) && m.Finish?
    ensures LogsReplay(n)
  {
    hide ErrorCount, PendingsSound, ApprovedsSound, Replay;
    assert TaskSound(s, m.task) && TaskSynced(s, m.task);
    FinishReplays(s, m.task, m.next, m.failure, s.store.logs[m.task]);
    AdvanceReplays(s, n, m.task, RecordAfter(s, m), Batch(s, m));
  }

  lemma EnrollReplays(s: Supervisor, m: Move, n: Supervisor)
    requires TasksSound(s) && LogsReplay(s) && Does(s, m, n) && m.Enroll?
    ensures LogsReplay(n)
  {
    hide ErrorCount, TasksSound, Replay;
    SubmissionReplays(s, m.spec);
    NewTaskIsUnknown(s, m.task);
    forall u ensures TaskSynced(n, u) {
      assert TaskSynced(s, u);
    }
  }

  lemma QuietReplays(s: Supervisor, m: Move, n: Supervisor)
    requires LogsReplay(s) && Does(s, m, n) && (m.Idle? || m.Forget?)
    ensures LogsReplay(n)
  {
    forall u ensures TaskSynced(n, u) {
      assert TaskSynced(s, u);
    }
  }

  /** Denial and expiry: the one move that can break a log, and exactly when. */
  lemma CloseReplaysIffWaiting(s: Supervisor, m: Move, n: Supervisor)
    requires TasksSound(s) && LogsReplay(s) && Does(s, m, n) && m.Close?
    ensures m.task in s.tasks
    ensures if s.tasks[m.task].state.WaitingApproval? then LogsReplay(n) else SomeLogBroken(n)
  {
    hide ErrorCount, InScope, OpensAs, Grants, Finishes, Enrolls, Consumes, KeepsApprovals, Replay;
    assert m.task in s.tasks;
    assert TaskSound(s, m.task) && TaskSynced(s, m.task);
    var batch := Batch(s, m);
    assert batch == [batch[0], batch[1]];
    Replay2(s.store.logs[m.task], batch[0], batch[1]);
    if s.tasks[m.task].state.WaitingApproval? {
      AdvanceReplays(s, n, m.task, RecordAfter(s, m), batch);
    } else {
      assert m.task in n.tasks && m.task in n.store.logs && Replay(n.store.logs[m.task]) == Broken;
    }
  }

  predicate ClosesWaiting(s: Supervisor, m: Move) {
    m.Close? ==> m.task in s.tasks && s.tasks[m.task].state.WaitingApproval?
  }

  /** A move from a state whose logs replay keeps them replaying if and only if it does not close the
      pending operation of a running Task; if it does, a log is broken. */
  lemma MoveReplaysIff(s: Supervisor, m: Move, n: Supervisor)
    requires Sound(s) && LogsReplay(s) && Does(s, m, n)
    ensures LogsReplay(n) <==> ClosesWaiting(s, m)
    ensures !ClosesWaiting(s, m) ==> SomeLogBroken(n)
  {
    hide Does, LogsReplay, SomeLogBroken, AuthoritySound, LivesSound, WaitersHavePending, TasksSound, PendingsSound,
         ApprovedsSound;
    match m
    case Idle => QuietReplays(s, m, n);
    case Begin(_, _) => OneEventReplays(s, m, n);
    case Note(_, _) => OneEventReplays(s, m, n);
    case Open(_, _, _, _, _) => TwoEventsReplay(s, m, n);
    case Close(_, _, _, _) =>
      CloseReplaysIffWaiting(s, m, n);
      if !ClosesWaiting(s, m) {
        BrokenIsNotReplayed(n);
      }
    case Grant(_, _, _, _) => TwoEventsReplay(s, m, n);
    case Consume(_, _, _) => OneEventReplays(s, m, n);
    case Forget(_) => QuietReplays(s, m, n);
    case Finish(_, _, _) => FinishKeepsReplay(s, m, n);
    case Enroll(_, _) => EnrollReplays(s, m, n);
  }

  /** Once a log is broken no later event mends it. */
  lemma CorruptionIsPermanent(log: Log, more: Log)
    requires Replay(log) == Broken
    ensures Replay(log + more) == Broken
  {
    ReplayConcat(Blank, log, more);
    BrokenForever(more);
  }

  lemma MoveKeepsBroken(s: Supervisor, m: Move, n: Supervisor)
    requires TasksSound(s) && SomeLogBroken(s) && Does(s, m, n)
    ensures SomeLogBroken(n)
  {
    hide Does, Batch, RecordAfter, ErrorCount, TasksSound;
    var t :| t in s.tasks && t in s.store.logs && Replay(s.store.logs[t]) == Broken;
    if Advances(m) {
      MoveAdvances(s, m, n);
      CorruptionIsPermanent(s.store.logs[t], Batch(s, m));
    } else {
      OtherMovesKeepTasks(s, m, n, t);
    }
    assert t in n.tasks && t in n.store.logs && Replay(n.store.logs[t]) == Broken;
  }

  lemma {:induction false} ChainKeepsBroken(s: Supervisor, path: Path, n: Supervisor)
    requires Sound(s) && SomeLogBroken(s) && Reaches(s, path, n)
    ensures SomeLogBroken(n)
    decreases path
  {
    hide Does, SomeLogBroken, TasksSound, AuthoritySound, PendingsSound, ApprovedsSound, LivesSound, WaitersHavePending;
    if path != [] {
      MoveSound(s, path[0].move, path[0].to);
      MoveKeepsBroken(s, path[0].move, path[0].to);
      ChainKeepsBroken(path[0].to, path[1..], n);
    }
  }

  lemma {:induction false} ChainReplays(s: Supervisor, path: Path, n: Supervisor)
    requires Sound(s) && LogsReplay(s) && Reaches(s, path, n) && ClosesNothing(path)
    ensures LogsReplay(n)
    decreases path
  {
    hide Does, LogsReplay, Sound;
    if path != [] {
      MoveSound(s, path[0].move, path[0].to);
      MoveReplaysIff(s, path[0].move, path[0].to);
      ChainReplays(path[0].to, path[1..], n);
    }
  }
}
