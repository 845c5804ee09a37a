/** Exactly when a call leaves a log that does not replay. Restarting a waiting Task does not by itself:
    it leaves its pending operation behind, and what breaks the log is the later denial or expiry of that
    operation, if the backend takes it. */
module Corruption {
  import opened Basics
  import opened Lifecycle
  import opened Audit
  import opened Approval
  import opened Supervision
  import opened Soundness
  import opened SoundSteps
  import opened Moves
  import opened Calls
  import opened Sweeps
  import opened Replaying
  import opened Synchrony
  import opened Runs

  /** A pending operation whose Task is running again. */
  predicate Orphan(s: Supervisor, a: ApprovalId) {
    a in s.pending && s.pending[a].task in s.tasks && s.tasks[s.pending[a].task].state.Running?
  }

  /** Sweeping these approvals closes an orphan: the backend takes its batch and all before it. */
  predicate SweepCorrupts(s: Supervisor, ids: seq<ApprovalId>) {
    exists i :: 0 <= i < |ids| && Orphan(s, ids[i]) && TakesTo(s, ids, i)
  }

  /** Denying `a` after sweeping these approvals closes an orphan. */
  predicate DenialCorrupts(s: Supervisor, ids: seq<ApprovalId>, a: ApprovalId) {
    TakesAll(s, ids) && a !in ids && Orphan(s, a) && Takes(s, a, |ids|)
  }

  /** The call breaks a log: said of the state before it, from the states of Tasks with pending
      operations, deadlines, the sweep's clock reading, log lengths and the backend's plan. */
  predicate Corrupts(s: Supervisor, c: Command) {
    SweepCorrupts(s, Swept(s, c)) || (c.CallDeny? && DenialCorrupts(s, Swept(s, c), c.approval))
  }

  lemma CloseOutcome(s: Supervisor, a: ApprovalId, e: TaskEventKind, log: AuditLog)
    requires Sound(s) && LogsReplay(s) && a in s.pending && s.pending[a].task in s.tasks
    requires Closing(e, a, s.pending[a].operation)
    requires s.store.Append(s.pending[a].task, [e, StateTransitioned(s.tasks[s.pending[a].task].state, Failed)])
             == (log, None)
    ensures Sound(s.CloseFailed(a, log))
    ensures if Orphan(s, a) then SomeLogBroken(s.CloseFailed(a, log)) else LogsReplay(s.CloseFailed(a, log))
  {
    hide Does, LogsReplay, SomeLogBroken, TasksSound, AuthoritySound, ApprovedsSound, LivesSound, WaitersHavePending,
         AuditLog.Append, Supervisor.CloseFailed;
    assert PendingSound(s, a);
    hide PendingsSound;
    var m := Close(s.pending[a].task, e, a, s.pending[a].operation);
    CloseIsMove(s, a, e, log);
    MoveSound(s, m, s.CloseFailed(a, log));
    CloseReplaysIffWaiting(s, m, s.CloseFailed(a, log));
  }

  lemma StandingOrphan(s: Supervisor, n: Supervisor, b: ApprovalId)
    requires Stands(s, n, b)
    ensures Orphan(n, b) <==> Orphan(s, b)
  {
  }

  lemma ShiftedCorrupts(s: Supervisor, n: Supervisor, a: ApprovalId, rest: seq<ApprovalId>)
    requires Takes(s, a, 0) && !Orphan(s, a) && Shifted(s, n, rest)
    ensures SweepCorrupts(s, [a] + rest) <==> SweepCorrupts(n, rest)
  {
    hide Takes, Orphan, TakesTo, Stands;
    var ids := [a] + rest;
    if SweepCorrupts(s, ids) {
      var i :| 0 <= i < |ids| && Orphan(s, ids[i]) && TakesTo(s, ids, i);
      ShiftedTakes(s, n, a, rest, i);
      assert rest[i - 1] in rest && Stands(s, n, rest[i - 1]);
      StandingOrphan(s, n, rest[i - 1]);
    }
    if SweepCorrupts(n, rest) {
      var i :| 0 <= i < |rest| && Orphan(n, rest[i]) && TakesTo(n, rest, i);
      ShiftedTakes(s, n, a, rest, i + 1);
      assert rest[i] in rest && ids[i + 1] == rest[i] && Stands(s, n, rest[i]);
      StandingOrphan(s, n, rest[i]);
    }
  }

  lemma RefusedFirst(s: Supervisor, ids: seq<ApprovalId>)
    requires ids != [] && !Takes(s, ids[0], 0)
    ensures !SweepCorrupts(s, ids) && !TakesAll(s, ids)
  {
    hide Takes, Orphan;
  }

  lemma OrphanFirst(s: Supervisor, ids: seq<ApprovalId>)
    requires ids != [] && Takes(s, ids[0], 0) && Orphan(s, ids[0])
    ensures SweepCorrupts(s, ids)
  {
    hide Takes, Orphan;
    assert TakesTo(s, ids, 0);
  }

  lemma NothingSwept(s: Supervisor)
    ensures !SweepCorrupts(s, []) && TakesAll(s, [])
  {
  }

  lemma RefusalKeeps(s: Supervisor, n: Supervisor)
    requires Sound(s) && SameButPlan(s, n)
    ensures Sound(n) && (LogsReplay(s) ==> LogsReplay(n))
  {
    hide Sound, Replay;
    PlanIsIrrelevant(s, n, n.store);
    forall t | LogsReplay(s) ensures TaskSynced(n, t) {
      assert TaskSynced(s, t);
    }
  }

  lemma SweepKeepsBroken(s: Supervisor, ids: seq<ApprovalId>, count: nat)
    requires Sound(s) && SomeLogBroken(s)
    ensures Sound(s.Sweep(ids, count).0) && SomeLogBroken(s.Sweep(ids, count).0)
  {
    hide Does, Sound, SomeLogBroken;
    var path := SweepReaches(s, ids, count);
    ChainSound(s, path, s.Sweep(ids, count).0);
    ChainKeepsBroken(s, path, s.Sweep(ids, count).0);
  }

  /** What a sweep does to replay. */
  lemma {:induction false} SweepOutcome(s: Supervisor, ids: seq<ApprovalId>, count: nat)
    requires Sound(s) && LogsReplay(s) && Increasing(ids) && forall a :: a in ids ==> a in s.pending
    ensures var n := s.Sweep(ids, count).0;
            Sound(n) && if SweepCorrupts(s, ids) then SomeLogBroken(n) else LogsReplay(n)
    decreases ids
  {
    hide Sound, LogsReplay, SomeLogBroken, SweepCorrupts, Takes, Orphan, AuditLog.Append,
         Supervisor.CloseFailed, Supervisor.ExpireOne, PendingsSound;
    if ids == [] {
      NothingSwept(s);
    } else {
      var a, rest := ids[0], ids[1..];
      assert ids == [a] + rest && a !in rest;
      SoundPendings(s);
      ExpireOneOutcome(s, a);
      var p := s.pending[a];
      var e, f := TaskEventKind.ApprovalExpired(a, p.operation), StateTransitioned(s.tasks[p.task].state, Failed);
      var log := s.store.Append(p.task, [e, f]).0;
      if !Takes(s, a, 0) {
        RefusedFirst(s, ids);
        RefusalKeeps(s, s.ExpireOne(a).0);
      } else {
        var n := s.CloseFailed(a, log);
        CloseOutcome(s, a, e, log);
        if Orphan(s, a) {
          OrphanFirst(s, ids);
          SweepKeepsBroken(n, rest, count + 1);
        } else {
          CloseShifts(s, a, e, log, rest);
          ShiftedCorrupts(s, n, a, rest);
          SweepOutcome(n, rest, count + 1);
        }
      }
    }
  }

  /******* Calls *******/

  lemma DenyOutcome(k: Supervisor, a: ApprovalId)
    requires Sound(k) && LogsReplay(k)
    ensures if Orphan(k, a) && Takes(k, a, 0) then SomeLogBroken(k.DenySwept(a).0) else LogsReplay(k.DenySwept(a).0)
  {
    hide TasksSound, ApprovedsSound, LivesSound, WaitersHavePending, Authority.Consistent, AuditLog.Append, LogsReplay,
         SomeLogBroken, Supervisor.CloseFailed, Takes;
    if a in k.pending {
      assert PendingSound(k, a);
      var p := k.pending[a];
      var e, f := ApprovalDenied(a, p.operation), StateTransitioned(k.tasks[p.task].state, Failed);
      TakenIffAccepted(k, a, e, f);
      if Takes(k, a, 0) {
        CloseOutcome(k, a, e, k.store.Append(p.task, [e, f]).0);
      } else {
        RefusedIsSame(k, p.task, [e, f]);
        RefusalKeeps(k, k.DenySwept(a).0);
      }
    }
  }

  lemma RefusedIsSame(k: Supervisor, t: TaskId, batch: Log)
    requires k.store.Append(t, batch).1.Some?
    ensures SameButPlan(k, k.(store := k.store.Append(t, batch).0))
  {
  }

  lemma RequestReplays(k: Supervisor, c: Command)
    requires Sound(k) && LogsReplay(k) && c.CallRequest? && DrawsFresh(k, c)
    ensures LogsReplay(k.RequestSwept(c.task, c.request, c.ttl, c.now, c.operation, c.approval).0)
  {
    hide Does, Sound, LogsReplay;
    var n := k.RequestSwept(c.task, c.request, c.ttl, c.now, c.operation, c.approval).0;
    var path := RequestSweptReaches(k, c.task, c.request, c.ttl, c.now, c.operation, c.approval);
    ChainReplays(k, path, n);
  }

  lemma ApproveReplays(k: Supervisor, a: ApprovalId, now: nat)
    requires Sound(k) && LogsReplay(k)
    ensures LogsReplay(k.ApproveSwept(a, now).0)
  {
    hide Does, LogsReplay, TasksSound, AuthoritySound, PendingsSound, ApprovedsSound, LivesSound, WaitersHavePending;
    var path := ApproveSweptReaches(k, a, now);
    ChainReplays(k, path, k.ApproveSwept(a, now).0);
  }

  /** Calls without a sweep. */
  lemma PlainReplays(s: Supervisor, c: Command)
    requires Sound(s) && LogsReplay(s) && DrawsFresh(s, c) && !SweepsFirst(c)
    ensures LogsReplay(Step(s, c))
  {
    hide Does, Sound, LogsReplay, Step, DrawsFresh;
    var path := StepReaches(s, c);
    ChainReplays(s, path, Step(s, c));
  }

  /** Whatever follows a sweep that broke a log leaves it broken. */
  lemma RestKeepsBroken(k: Supervisor, c: Command)
    requires Sound(k) && SomeLogBroken(k) && SweepsFirst(c) && DrawsFresh(k, c)
    ensures SomeLogBroken(Rest(k, c))
  {
    hide Does, SomeLogBroken, TasksSound, AuthoritySound, PendingsSound, ApprovedsSound, LivesSound, WaitersHavePending;
    var path: Path := [];
    match c {
      case CallRequest(t, request, ttl, _, now, o, a) => path := RequestSweptReaches(k, t, request, ttl, now, o, a);
      case CallApprove(a, _, now) => path := ApproveSweptReaches(k, a, now);
      case CallDeny(a, _) => path := DenySweptReaches(k, a);
      case CallExpire(_) =>
    }
    ChainKeepsBroken(k, path, Rest(k, c));
  }

  /** The rest of a sweeping call, from a state whose logs replay. */
  lemma RestOutcome(k: Supervisor, c: Command)
    requires Sound(k) && LogsReplay(k) && SweepsFirst(c) && DrawsFresh(k, c)
    ensures if c.CallDeny? && Orphan(k, c.approval) && Takes(k, c.approval, 0) then SomeLogBroken(Rest(k, c))
            else LogsReplay(Rest(k, c))
  {
    hide Sound, LogsReplay, SomeLogBroken, Orphan, Takes, Supervisor.RequestSwept, Supervisor.ApproveSwept,
         Supervisor.DenySwept;
    match c
    case CallRequest(_, _, _, _, _, _, _) => RequestReplays(k, c);
    case CallApprove(a, _, now) => ApproveReplays(k, a, now);
    case CallDeny(a, _) => DenyOutcome(k, a);
    case CallExpire(_) =>
  }

  lemma DenialAfterSweep(s: Supervisor, ids: seq<ApprovalId>, k: Supervisor, a: ApprovalId)
    requires SweptTo(s, ids, k) && TakesAll(s, ids)
    ensures Orphan(k, a) && Takes(k, a, 0) <==> DenialCorrupts(s, ids, a)
  {
    if a in k.pending {
      StandingOrphan(s, k, a);
      assert Takes(k, a, 0) <==> Takes(s, a, 0 + |ids|);
    }
  }

  lemma SweepingCallReplaysIff(s: Supervisor, c: Command)
    requires Sound(s) && LogsReplay(s) && DrawsFresh(s, c) && SweepsFirst(c)
    ensures if Corrupts(s, c) then SomeLogBroken(Step(s, c)) else LogsReplay(Step(s, c))
  {
    hide Sound, LogsReplay, SomeLogBroken, SweepCorrupts, TakesAll, Takes, Orphan, SweptTo, Step, Rest, Swept,
         DenialCorrupts, Supervisor.Sweep;
    var ids := Swept(s, c);
    var (k, r) := s.Sweep(ids, 0);
    SweptArePending(s, c);
    SweepOutcome(s, ids, 0);
    SweepSucceedsIff(s, ids, 0);
    StepIsSweepThenRest(s, c);
    if r.Err? {
      NotTaken(s, ids, c);
    } else if SweepCorrupts(s, ids) {
      RestKeepsBroken(k, c);
    } else {
      RestOutcome(k, c);
      if c.CallDeny? {
        DenialAfterSweep(s, ids, k, c.approval);
      }
    }
  }

  lemma NotTaken(s: Supervisor, ids: seq<ApprovalId>, c: Command)
    requires !TakesAll(s, ids)
    ensures forall a :: !DenialCorrupts(s, ids, a)
  {
  }

  /** Exactly when a call breaks replay: from a sound state in which every log replays to the state in
      memory, that is so after the call if and only if the call does not close, by a denial or a sweep
      that the backend takes, the pending operation of a running Task; otherwise a log is broken. */
  lemma {:induction false} StepReplaysIff(s: Supervisor, c: Command)
    requires Sound(s) && LogsReplay(s) && DrawsFresh(s, c)
    ensures LogsReplay(Step(s, c)) <==> !Corrupts(s, c)
    ensures Corrupts(s, c) ==> SomeLogBroken(Step(s, c))
  {
    hide Sound, LogsReplay, SomeLogBroken, SweepCorrupts, TakesAll, Takes, Orphan, Step, DenialCorrupts, DrawsFresh;
    if SweepsFirst(c) {
      SweepingCallReplaysIff(s, c);
      if Corrupts(s, c) {
        BrokenIsNotReplayed(Step(s, c));
      }
    } else {
      PlainReplays(s, c);
      NothingSwept(s);
    }
  }

  /******* Runs *******/

  /** No call of the run breaks a log. */
  predicate Uncorrupted(s: Supervisor, cs: seq<Command>)
    decreases cs
  {
    cs == [] || (!Corrupts(s, cs[0]) && Uncorrupted(Step(s, cs[0]), cs[1..]))
  }

  lemma {:induction false} RunKeepsBroken(s: Supervisor, cs: seq<Command>)
    requires Sound(s) && SomeLogBroken(s) && Drawn(s, cs)
    ensures SomeLogBroken(Run(s, cs))
    decreases cs
  {
    hide Sound, SomeLogBroken, Step, DrawsFresh, Does;
    if cs != [] {
      var path := StepReaches(s, cs[0]);
      ChainKeepsBroken(s, path, Step(s, cs[0]));
      StepSound(s, cs[0]);
      RunKeepsBroken(Step(s, cs[0]), cs[1..]);
    }
  }

  /** After any run, orderly or not, every log replays to the state in memory if and only if no call of
      the run closed the pending operation of a running Task. */
  lemma {:induction false} RunReplaysIff(s: Supervisor, cs: seq<Command>)
    requires Sound(s) && LogsReplay(s) && Drawn(s, cs)
    ensures LogsReplay(Run(s, cs)) <==> Uncorrupted(s, cs)
    ensures !Uncorrupted(s, cs) ==> SomeLogBroken(Run(s, cs))
    decreases cs
  {
    hide Sound, LogsReplay, SomeLogBroken, Step, DrawsFresh, Corrupts;
    if cs != [] {
      StepReplaysIff(s, cs[0]);
      StepSound(s, cs[0]);
      if Corrupts(s, cs[0]) {
        RunKeepsBroken(Step(s, cs[0]), cs[1..]);
        BrokenIsNotReplayed(Run(s, cs));
      } else {
        RunReplaysIff(Step(s, cs[0]), cs[1..]);
      }
    }
  }

  /******* Orphans *******/

  /** The call restarts a waiting Task and the backend takes the transition. */
  predicate Restarts(s: Supervisor, c: Command) {
    && c.CallStart? && c.task in s.tasks && s.tasks[c.task].state.WaitingApproval?
    && (s.store.plan == [] || s.store.plan[0].None?)
    && |s.store.LogOf(c.task)| + 1 <= s.store.capacity
  }

  lemma RestartOutcome(s: Supervisor, t: TaskId, now: nat)
    requires t in s.tasks && s.tasks[t].state.WaitingApproval?
    ensures var n := s.Start(t, now).0;
            if Restarts(s, CallStart(t, now)) then
              n.pending == s.pending && t in n.tasks && n.tasks[t].state.Running? && n.tasks[t].startedAt == Some(now)
            else SameButPlan(s, n)
  {
    assert s.TransitionBatch(t, WaitingApproval, Running, None) == [StateTransitioned(WaitingApproval, Running)];
  }

  /** Exactly when a call separates the approval maps from the waiting Tasks: from a sound state in which
      every pending approval belongs to a waiting Task, that is so after the call if and only if the
      call does not restart a waiting Task with the backend taking it. */
  lemma {:induction false} OrphansIffRestart(s: Supervisor, c: Command)
    requires Sound(s) && NoOrphans(s) && DrawsFresh(s, c)
    ensures NoOrphans(Step(s, c)) <==> !Restarts(s, c)
  {
    hide Does, Sound, NoOrphans, Step, DrawsFresh;
    if Orderly(s, c) {
      var path := StepReaches(s, c);
      ChainNoOrphans(s, path, Step(s, c), c);
    } else {
      RestartOrphans(s, c.task, c.now);
    }
  }

  lemma RestartOrphans(s: Supervisor, t: TaskId, now: nat)
    requires Sound(s) && NoOrphans(s) && t in s.tasks && s.tasks[t].state.WaitingApproval?
    ensures NoOrphans(Step(s, CallStart(t, now))) <==> !Restarts(s, CallStart(t, now))
  {
    hide Supervisor.Start, TasksSound, AuthoritySound, PendingsSound, ApprovedsSound, LivesSound, Restarts;
    RestartOutcome(s, t, now);
    var n := s.Start(t, now).0;
    if Restarts(s, CallStart(t, now)) {
      assert HasPending(s, t);
      var a :| a in s.pending && s.pending[a].task == t;
      assert a in n.pending;
    }
  }

  lemma {:induction false} ChainNoOrphans(s: Supervisor, path: Path, n: Supervisor, c: Command)
    requires Sound(s) && NoOrphans(s) && Reaches(s, path, n) && Orderly(s, c)
    requires if c.CallStart? then |path| <= 1 && forall i :: 0 <= i < |path| && path[i].move.Begin? ==>
             path[i].move.task == c.task
             else StartsNothing(path)
    ensures NoOrphans(n)
    decreases path
  {
    hide Does, Sound, NoOrphans;
    if path != [] {
      MoveSound(s, path[0].move, path[0].to);
      MoveNoOrphans(s, path[0].move, path[0].to);
      if !c.CallStart? {
        ChainNoOrphans(path[0].to, path[1..], n, c);
      }
    }
  }
}
