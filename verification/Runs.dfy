/** What holds in every run of the supervisor, whatever the interleaving of calls and whatever the
    backend refuses. */
module Runs {
  import opened Basics
  import opened Lifecycle
  import opened Capability
  import opened Audit
  import opened Supervision
  import opened Soundness
  import opened SoundSteps
  import opened Moves
  import opened Calls
  import opened Replaying
  import opened Synchrony

  lemma {:induction false} StepSound(s: Supervisor, c: Command)
    requires Sound(s) && DrawsFresh(s, c)
    ensures Sound(Step(s, c))
  {
    hide Sound, Step, DrawsFresh;
    var path := StepReaches(s, c);
    ChainSound(s, path, Step(s, c));
  }

  lemma {:induction false} RunSound(s: Supervisor, cs: seq<Command>)
    requires Sound(s) && Drawn(s, cs)
    ensures Sound(Run(s, cs))
    decreases cs
  {
    hide Sound, Step, DrawsFresh;
    if cs != [] {
      StepSound(s, cs[0]);
      RunSound(Step(s, cs[0]), cs[1..]);
    }
  }

  /******* Replay refines live state *******/

  /** No call of the run restarts a Task that waits for approval. */
  ghost predicate OrderlyRun(s: Supervisor, cs: seq<Command>)
    decreases cs
  {
    cs == [] || (Orderly(s, cs[0]) && OrderlyRun(Step(s, cs[0]), cs[1..]))
  }

  lemma {:induction false} RunSynced(s: Supervisor, cs: seq<Command>)
    requires Sound(s) && Synced(s) && Drawn(s, cs) && OrderlyRun(s, cs)
    ensures Sound(Run(s, cs)) && Synced(Run(s, cs))
    decreases cs
  {
    hide Sound, Synced, Step, DrawsFresh, Orderly;
    if cs != [] {
      StepSynced(s, cs[0]);
      RunSynced(Step(s, cs[0]), cs[1..]);
    }
  }

  /** After every orderly run from an empty store, replaying a Task's log gives exactly the state held
      in memory, and is never broken. */
  lemma {:induction false} ReplayRefinesLiveState(maxTasks: nat, capacity: nat, plan: seq<Option<EventStoreError>>,
                                                  cs: seq<Command>)
    requires var s := Empty(maxTasks, capacity, plan); Drawn(s, cs) && OrderlyRun(s, cs)
    ensures var n := Run(Empty(maxTasks, capacity, plan), cs);
            forall t :: t in n.tasks ==> t in n.store.logs && Replay(n.store.logs[t]) == At(n.tasks[t].state)
  {
    var s := Empty(maxTasks, capacity, plan);
    EmptyIsSound(maxTasks, capacity, plan);
    assert Synced(s);
    hide Sound, Step, DrawsFresh, Orderly, Empty;
    RunSynced(s, cs);
    forall t | t in Run(s, cs).tasks
      ensures t in Run(s, cs).store.logs && Replay(Run(s, cs).store.logs[t]) == At(Run(s, cs).tasks[t].state)
    {
      assert TaskSynced(Run(s, cs), t);
    }
  }

  /******* Approval maps stay in step *******/

  /** A Task waits for approval exactly when one pending operation belongs to it, and then only one;
      supervisor and authority hold the same approvals for the same Tasks and operations; the
      authority's index is the exact inverse of its pending map, within the limit. */
  ghost predicate MapsInStep(s: Supervisor) {
    && (forall t :: t in s.tasks ==> (s.tasks[t].state.WaitingApproval? <==> HasPending(s, t)))
    && (forall a, b :: a in s.pending && b in s.pending && s.pending[a].task == s.pending[b].task ==> a == b)
    && s.authority.pending.Keys == s.pending.Keys
    && (forall a :: a in s.pending ==> s.authority.KeyOf(a) == (s.pending[a].task, s.pending[a].operation))
    && (forall a :: a in s.authority.pending ==>
                      s.authority.KeyOf(a) in s.authority.index && s.authority.index[s.authority.KeyOf(a)] == a)
    && (forall k :: k in s.authority.index ==>
                      s.authority.index[k] in s.authority.pending && s.authority.KeyOf(s.authority.index[k]) == k)
    && |s.pending| <= s.authority.maxPending
  }

  lemma SoundMapsInStep(s: Supervisor)
    requires AuthoritySound(s) && PendingsSound(s) && WaitersHavePending(s) && NoOrphans(s)
    ensures MapsInStep(s)
  {
    forall a | a in s.pending
      ensures a in s.authority.pending && s.authority.KeyOf(a) == (s.pending[a].task, s.pending[a].operation)
    {
      assert PendingSound(s, a);
    }
    assert |s.authority.pending.Keys| == |s.pending.Keys|;
  }

  lemma {:induction false} ApprovalMapsStayInStep(maxTasks: nat, capacity: nat, plan: seq<Option<EventStoreError>>,
                                                  cs: seq<Command>)
    requires var s := Empty(maxTasks, capacity, plan); Drawn(s, cs) && OrderlyRun(s, cs)
    ensures MapsInStep(Run(Empty(maxTasks, capacity, plan), cs))
  {
    var s := Empty(maxTasks, capacity, plan);
    EmptyIsSound(maxTasks, capacity, plan);
    assert Synced(s);
    hide TasksSound, ApprovedsSound, LivesSound, Step, DrawsFresh, Orderly, Empty, MapsInStep, NoOrphans;
    hide AuthoritySound, PendingsSound, WaitersHavePending;
    RunSynced(s, cs);
    SoundMapsInStep(Run(s, cs));
  }

  /******* Terminal is final *******/

  /** The Task, live or recovered, is in a final state. */
  predicate Over(s: Supervisor, t: TaskId) { s.StateOf(t).Some? && s.StateOf(t).value.IsTerminal() }

  /** Nothing about the Task or its log has changed. */
  ghost predicate Unchanged(s: Supervisor, n: Supervisor, t: TaskId) {
    && n.StateOf(t) == s.StateOf(t) && n.store.LogOf(t) == s.store.LogOf(t)
    && (t in s.tasks <==> t in n.tasks) && (t in s.tasks ==> n.tasks[t] == s.tasks[t])
  }

  lemma MoveSparesTerminal(s: Supervisor, m: Move, n: Supervisor, t: TaskId)
    requires TasksSound(s) && Does(s, m, n) && Over(s, t)
    ensures Unchanged(s, n, t)
  {
    hide ErrorCount, Batch, RecordAfter;
    assert if t in s.tasks then TaskSound(s, t) else RecoveredSound(s, t);
    if Advances(m) {
      hide Does;
      MoveAdvances(s, m, n);
      assert TaskSound(s, m.task);
    } else if m.Enroll? {
      NewTaskIsUnknown(s, m.task);
    }
  }

  lemma {:induction false} ChainSparesTerminal(s: Supervisor, path: Path, n: Supervisor, t: TaskId)
    requires Sound(s) && Reaches(s, path, n) && Over(s, t)
    ensures Unchanged(s, n, t)
    decreases path
  {
    hide Does, TasksSound, AuthoritySound, PendingsSound, ApprovedsSound, LivesSound, WaitersHavePending;
    if path != [] {
      MoveSound(s, path[0].move, path[0].to);
      MoveSparesTerminal(s, path[0].move, path[0].to, t);
      ChainSparesTerminal(path[0].to, path[1..], n, t);
    }
  }

  lemma {:induction false} RunSparesTerminal(s: Supervisor, cs: seq<Command>, t: TaskId)
    requires Sound(s) && Drawn(s, cs) && Over(s, t)
    ensures Unchanged(s, Run(s, cs), t)
    decreases cs
  {
    hide Sound, Step, DrawsFresh;
    if cs != [] {
      var path := StepReaches(s, cs[0]);
      ChainSparesTerminal(s, path, Step(s, cs[0]), t);
      StepSound(s, cs[0]);
      RunSparesTerminal(Step(s, cs[0]), cs[1..], t);
    }
  }

  /** Once a Task is in a final state, live or recovered, no continuation of the run changes its record
      or adds to its log, it has no pending operation, and no receipt is ever issued for it, even if an
      approved entry lingers. */
  lemma {:induction false} TerminalIsFinal(s: Supervisor, cs: seq<Command>, t: TaskId)
    requires Sound(s) && Drawn(s, cs) && Over(s, t)
    ensures var n := Run(s, cs);
            && Unchanged(s, n, t) && !HasPending(n, t)
            && forall o, request, now ::
                 n.AuthorizeOperation(t, o, request, now) ==
                   (n, Err(if t in s.tasks then TaskNotRunning else TaskNotFound))
  {
    hide Step, DrawsFresh, TasksSound, AuthoritySound, ApprovedsSound, LivesSound, WaitersHavePending;
    RunSparesTerminal(s, cs, t);
    RunSound(s, cs);
    var n := Run(s, cs);
    forall a | a in n.pending ensures n.pending[a].task != t {
      assert PendingSound(n, a);
    }
  }

  /** A terminal transition can only stand at the end of a log. */
  ghost predicate EndsOnce(log: Log) {
    forall i :: 0 <= i < |log| - 1 ==> !(log[i].StateTransitioned? && log[i].to.IsTerminal())
  }

  ghost predicate LogsEndOnce(s: Supervisor) {
    forall t :: t in s.store.logs ==> EndsOnce(s.store.logs[t])
  }

  lemma LastEventOfOpenLog(log: Log, state: TaskState)
    requires EndsOnce(log) && LastState(log) == Some(state) && !state.IsTerminal()
    ensures forall i :: 0 <= i < |log| ==> !(log[i].StateTransitioned? && log[i].to.IsTerminal())
  {
  }

  lemma RevocationsAreRevocations(s: Supervisor, t: TaskId, i: nat)
    requires i < |s.Revocations(t)|
    ensures s.Revocations(t)[i].ApprovalRevoked?
  {
  }

  lemma TransitionBatchEndsOnce(s: Supervisor, t: TaskId, current: TaskState, next: TaskState,
                                failure: Option<ErrorCode>)
    ensures EndsOnce(s.TransitionBatch(t, current, next, failure))
  {
    var rs := if next.IsTerminal() then s.Revocations(t) else [];
    var batch := s.TransitionBatch(t, current, next, failure);
    forall i | 0 <= i < |batch| - 1 ensures !batch[i].StateTransitioned? {
      if i < |rs| {
        assert batch[i] == rs[i];
        RevocationsAreRevocations(s, t, i);
      }
    }
  }

  lemma BatchEndsOnce(s: Supervisor, m: Move)
    requires Advances(m) && m.task in s.tasks
    requires m.Note? ==> m.event.OperationAllowed? || m.event.OperationDenied?
    requires m.Close? ==> Closing(m.event, m.approval, m.operation)
    ensures EndsOnce(Batch(s, m))
  {
    if m.Finish? {
      TransitionBatchEndsOnce(s, m.task, s.tasks[m.task].state, m.next, m.failure);
    }
  }

  lemma NotableMove(s: Supervisor, m: Move, n: Supervisor)
    requires Does(s, m, n)
    ensures m.Note? ==> m.event.OperationAllowed? || m.event.OperationDenied?
    ensures m.Close? ==> Closing(m.event, m.approval, m.operation)
  {
    hide Advanced, ErrorCount;
  }

  lemma MoveEndsLogsOnce(s: Supervisor, m: Move, n: Supervisor)
    requires TasksSound(s) && LogsEndOnce(s) && Does(s, m, n)
    ensures LogsEndOnce(n)
  {
    hide Batch, RecordAfter, ErrorCount;
    if Advances(m) {
      NotableMove(s, m, n);
      hide Does;
      MoveAdvances(s, m, n);
      BatchEndsOnce(s, m);
      assert TaskSound(s, m.task);
      LastEventOfOpenLog(s.store.logs[m.task], s.tasks[m.task].state);
      assert EndsOnce(s.store.logs[m.task] + Batch(s, m));
    } else if m.Enroll? {
      EnrollEndsLogsOnce(s, m, n);
    }
  }

  lemma EnrollEndsLogsOnce(s: Supervisor, m: Move, n: Supervisor)
    requires TasksSound(s) && LogsEndOnce(s) && Does(s, m, n) && m.Enroll?
    ensures LogsEndOnce(n)
  {
    hide ErrorCount, TasksSound;
    NewTaskIsUnknown(s, m.task);
  }

  lemma {:induction false} ChainEndsLogsOnce(s: Supervisor, path: Path, n: Supervisor)
    requires Sound(s) && LogsEndOnce(s) && Reaches(s, path, n)
    ensures LogsEndOnce(n)
    decreases path
  {
    hide Does, LogsEndOnce, TasksSound, AuthoritySound, PendingsSound, ApprovedsSound, LivesSound, WaitersHavePending;
    if path != [] {
      MoveSound(s, path[0].move, path[0].to);
      MoveEndsLogsOnce(s, path[0].move, path[0].to);
      ChainEndsLogsOnce(path[0].to, path[1..], n);
    }
  }

  lemma {:induction false} RunEndsLogsOnce(s: Supervisor, cs: seq<Command>)
    requires Sound(s) && LogsEndOnce(s) && Drawn(s, cs)
    ensures LogsEndOnce(Run(s, cs))
    decreases cs
  {
    hide Sound, LogsEndOnce, Step, DrawsFresh;
    if cs != [] {
      var path := StepReaches(s, cs[0]);
      ChainEndsLogsOnce(s, path, Step(s, cs[0]));
      StepSound(s, cs[0]);
      RunEndsLogsOnce(Step(s, cs[0]), cs[1..]);
    }
  }

  /** In every run a log that holds a terminal transition ends with it. */
  lemma {:induction false} TerminalTransitionEndsLog(maxTasks: nat, capacity: nat, plan: seq<Option<EventStoreError>>,
                                                     cs: seq<Command>)
    requires Drawn(Empty(maxTasks, capacity, plan), cs)
    ensures LogsEndOnce(Run(Empty(maxTasks, capacity, plan), cs))
  {
    EmptyIsSound(maxTasks, capacity, plan);
    RunEndsLogsOnce(Empty(maxTasks, capacity, plan), cs);
  }

  /******* Approval life cycles *******/

  /** In every run, every log shows every approval identifier on the path Requested, then Denied,
      Expired, Revoked or Granted, then Consumed or Revoked; and in one log only. */
  lemma {:induction false} LifeCyclesHold(maxTasks: nat, capacity: nat, plan: seq<Option<EventStoreError>>,
                                          cs: seq<Command>)
    requires Drawn(Empty(maxTasks, capacity, plan), cs)
    ensures var n := Run(Empty(maxTasks, capacity, plan), cs);
            && (forall t, a :: t in n.store.logs ==> LifeIn(n.store.logs[t], a) != Misused)
            && OneHome(n)
  {
    EmptyIsSound(maxTasks, capacity, plan);
    hide Step, DrawsFresh, Empty, TasksSound, AuthoritySound, ApprovedsSound, PendingsSound, WaitersHavePending;
    var n := Run(Empty(maxTasks, capacity, plan), cs);
    RunSound(Empty(maxTasks, capacity, plan), cs);
    forall t, a | t in n.store.logs ensures LifeIn(n.store.logs[t], a) != Misused {
      assert LifeSound(n, t, a);
    }
  }

  /** What the life cycle means event by event: a consumption follows a request and a grant of the
      same operation, and is the only one of its approval. */
  lemma {:induction false} ConsumedMeansGranted(log: Log, a: ApprovalId, o: OperationId)
    requires LifeIn(log, a) != Misused
    ensures LifeIn(log, a) == Requested(o) ==> ApprovalRequested(a, o) in log
    ensures LifeIn(log, a) == Granted(o) ==> ApprovalRequested(a, o) in log && ApprovalGranted(a, o) in log
    ensures !LifeIn(log, a).Consumed? ==> forall p :: ApprovalConsumed(a, p) !in log
    ensures LifeIn(log, a) == Life.Consumed(o) ==>
              && ApprovalRequested(a, o) in log && ApprovalGranted(a, o) in log
              && multiset(log)[ApprovalConsumed(a, o)] == 1
              && forall p :: ApprovalConsumed(a, p) in log ==> p == o
  {
    if log != [] {
      var k := |log| - 1;
      var before := log[..k];
      assert log == before + [log[k]];
      ConsumedMeansGranted(before, a, o);
    }
  }

  /******* Idempotent submission *******/

  /** A key that was used before is answered without effect, in every sound state: with the Task it
      belongs to if the specification is the same, as a conflict otherwise. */
  lemma {:induction false} ResubmissionIsIdempotent(s: Supervisor, spec: TaskSpec, id: TaskId)
    requires Sound(s)
    ensures var known := exists t :: t in s.tasks && s.tasks[t].spec.idempotencyKey == spec.idempotencyKey;
            known ==>
              exists t ::
                && t in s.tasks && s.tasks[t].spec.idempotencyKey == spec.idempotencyKey
                && s.Submit(spec, id) == (s, if s.tasks[t].spec == spec
                   then Ok(Existing(TaskSnapshot(t, s.tasks[t].state)))
                                             else Err(SupervisorError.IdempotencyConflict))
  {
    hide AuthoritySound, PendingsSound, ApprovedsSound, LivesSound, WaitersHavePending, ErrorCount, AuditLog.Append;
    if t :| t in s.tasks && s.tasks[t].spec.idempotencyKey == spec.idempotencyKey {
      assert TaskSound(s, t);
    }
  }

  lemma BeginsOnlyQueued(s: Supervisor, m: Move, n: Supervisor)
    requires TasksSound(s) && Does(s, m, n) && m.Begin? && OrderlyMove(s, m)
    ensures m.task in s.tasks && s.tasks[m.task].startedAt.None?
  {
    assert m.task in s.tasks;
    assert TaskSound(s, m.task);
  }

  /** Along an orderly run the start of a Task is written once. */
  lemma MoveKeepsStart(s: Supervisor, m: Move, n: Supervisor, t: TaskId)
    requires TasksSound(s) && Does(s, m, n) && OrderlyMove(s, m) && t in s.tasks && s.tasks[t].startedAt.Some?
    ensures t in n.tasks && n.tasks[t].startedAt == s.tasks[t].startedAt && n.tasks[t].spec == s.tasks[t].spec
  {
    hide Does, Batch, TasksSound, OrderlyMove;
    if Advances(m) {
      MoveAdvances(s, m, n);
      if m.Begin? {
        BeginsOnlyQueued(s, m, n);
      }
    } else {
      OtherMovesKeepTasks(s, m, n, t);
    }
  }

  lemma {:induction false} ChainKeepsStart(s: Supervisor, path: Path, n: Supervisor, t: TaskId)
    requires Sound(s) && Reaches(s, path, n) && StartsNothing(path) && t in s.tasks && s.tasks[t].startedAt.Some?
    ensures t in n.tasks && n.tasks[t].startedAt == s.tasks[t].startedAt && n.tasks[t].spec == s.tasks[t].spec
    decreases path
  {
    hide Does, TasksSound, AuthoritySound, PendingsSound, ApprovedsSound, LivesSound, WaitersHavePending;
    if path != [] {
      MoveSound(s, path[0].move, path[0].to);
      MoveKeepsStart(s, path[0].move, path[0].to, t);
      ChainKeepsStart(path[0].to, path[1..], n, t);
    }
  }

  lemma StepKeepsStart(s: Supervisor, c: Command, t: TaskId)
    requires Sound(s) && DrawsFresh(s, c) && Orderly(s, c) && t in s.tasks && s.tasks[t].startedAt.Some?
    ensures var n := Step(s, c);
            t in n.tasks && n.tasks[t].startedAt == s.tasks[t].startedAt && n.tasks[t].spec == s.tasks[t].spec
  {
    hide Does, Step, DrawsFresh, TasksSound, AuthoritySound, PendingsSound, ApprovedsSound, LivesSound,
         WaitersHavePending;
    var path := StepReaches(s, c);
    if !c.CallStart? {
      ChainKeepsStart(s, path, Step(s, c), t);
    } else if path != [] {
      MoveKeepsStart(s, path[0].move, path[0].to, t);
    }
  }

  lemma {:induction false} RunKeepsStart(s: Supervisor, cs: seq<Command>, t: TaskId)
    requires Sound(s) && Drawn(s, cs) && OrderlyRun(s, cs) && t in s.tasks && s.tasks[t].startedAt.Some?
    ensures var n := Run(s, cs);
            t in n.tasks && n.tasks[t].startedAt == s.tasks[t].startedAt && n.tasks[t].spec == s.tasks[t].spec
    decreases cs
  {
    hide Sound, Step, DrawsFresh, Orderly;
    if cs != [] {
      StepSound(s, cs[0]);
      StepKeepsStart(s, cs[0], t);
      RunKeepsStart(Step(s, cs[0]), cs[1..], t);
    }
  }

  /** The instant at which the wall time of a started Task is used up. */
  function WallTimeEnd(s: Supervisor, t: TaskId): nat
    requires t in s.tasks && s.tasks[t].startedAt.Some?
  {
    s.tasks[t].startedAt.value + s.tasks[t].spec.budget.wallTimeSeconds * 1_000_000_000
  }

  /** The wall time of a running or waiting Task is exceeded from the instant on that lies its budget after
      its start, and always if it has none; a running one has the time until then left, and never more than
      the budget. */
  lemma {:induction false} WallTimeIsExact(s: Supervisor, t: TaskId, now: nat)
    requires t in s.tasks && s.tasks[t].startedAt.Some?
    ensures var budget := s.tasks[t].spec.budget.wallTimeSeconds * 1_000_000_000;
            var start, end := s.tasks[t].startedAt.value, WallTimeEnd(s, t);
            && s.WallTimeExceeded(t, now) == (if Active(s.tasks[t].state) then Ok(now >= end || budget == 0)
                                           else Err(TaskNotRunning))
            && (!s.tasks[t].state.Running? ==> s.RemainingWallTime(t, now) == Err(TaskNotRunning))
            && (s.tasks[t].state.Running? ==>
                  && s.RemainingWallTime(t, now).Ok?
                  && var remaining := s.RemainingWallTime(t, now).value;
                     && (start <= now < end ==> remaining + (now - start) == budget)
                     && (end <= now ==> remaining == 0) && (now < start ==> remaining == budget))
  {
  }

  /** However an orderly run goes on, once the wall time of a Task is exceeded it is exceeded at every later
      instant at which the Task is active. */
  lemma {:induction false} WallTimeStaysExceeded(s: Supervisor, cs: seq<Command>, t: TaskId, earlier: nat, later: nat)
    requires Sound(s) && Drawn(s, cs) && OrderlyRun(s, cs) && earlier <= later
    requires t in s.tasks && s.tasks[t].startedAt.Some? && WallTimeEnd(s, t) <= earlier
    ensures var n := Run(s, cs);
            && t in n.tasks && (Active(n.tasks[t].state) ==> n.WallTimeExceeded(t, later) == Ok(true))
            && (n.RemainingWallTime(t, later).Ok? ==> n.RemainingWallTime(t, later).value == 0)
  {
    hide Sound, Step, DrawsFresh, Orderly, Run;
    RunKeepsStart(s, cs, t);
    WallTimeIsExact(Run(s, cs), t, later);
  }

  /** The wall-time allowance never grows: however the run continues, and whatever approval waits it
      goes through, a later reading leaves what an earlier one left less the time between, or nothing. */
  lemma {:induction false} WallTimeNeverResets(s: Supervisor, cs: seq<Command>, t: TaskId, earlier: nat, later: nat)
    requires Sound(s) && Drawn(s, cs) && OrderlyRun(s, cs) && earlier <= later
    requires s.RemainingWallTime(t, earlier).Ok? && Run(s, cs).RemainingWallTime(t, later).Ok?
    ensures var left, before := Run(s, cs).RemainingWallTime(t, later).value, s.RemainingWallTime(t, earlier).value;
            && left <= before
            && (s.tasks[t].startedAt.value <= earlier ==>
                  left == if before <= later - earlier then 0 else before - (later - earlier))
  {
    hide Sound, Step, DrawsFresh, Orderly, Run;
    RunKeepsStart(s, cs, t);
  }

  /** At any instant the two wall-time checks agree. */
  lemma {:induction false} WallTimeChecksAgree(s: Supervisor, t: TaskId, now: nat)
    requires s.RemainingWallTime(t, now).Ok?
    ensures s.WallTimeExceeded(t, now).Ok?
    ensures s.WallTimeExceeded(t, now).value <==> s.RemainingWallTime(t, now).value == 0
  {
  }
}
