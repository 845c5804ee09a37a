/** Approving and denying through a gate, said exactly of the state before the call: when the grant goes
    through, when it is used, and what is left of the approval otherwise. */
module Decisions {
  import opened Basics
  import opened Lifecycle
  import opened Capability
  import opened Audit
  import opened Approval
  import opened Supervision
  import opened Soundness
  import opened Calls
  import opened Synchrony
  import opened Sweeps
  import opened Lingering
  import opened Subsidence
  import opened GateCalls
  import opened Gate
  import opened GateSafety
  import opened AgentCalls

  function SweptAt(s: Supervisor, sweptAt: nat): seq<ApprovalId> { s.authority.ExpiredIds(sweptAt) }

  /** The approval goes through: the backend takes every batch of the sweep, which leaves `a` alone, its
      Task waits, its deadline has not come and the backend takes the grant. */
  predicate GoesThrough(s: Supervisor, a: ApprovalId, sweptAt: nat, now: nat) {
    && TakesAll(s, SweptAt(s, sweptAt)) && a !in SweptAt(s, sweptAt) && a in s.pending
    && Is(s, s.pending[a].task, WaitingApproval) && now < DeadlineOf(s, a) && Takes(s, a, |SweptAt(s, sweptAt)|)
  }

  /** The grant is used: its deadline has not come at the time of use and the backend takes one event
      more. */
  predicate Usable(s: Supervisor, a: ApprovalId, sweptAt: nat, consumedAt: nat) {
    && a in s.pending && consumedAt < DeadlineOf(s, a)
    && (|SweptAt(s, sweptAt)| + 1 < |s.store.plan| ==> s.store.plan[|SweptAt(s, sweptAt)| + 1].None?)
    && |s.store.LogOf(s.pending[a].task)| + 3 <= s.store.capacity
  }

  /** The approval is pending in the supervisor for `t`, and the gate retains its operation. */
  predicate IsLive(s: Supervisor, g: GateState, a: ApprovalId, t: TaskId) {
    Owns(s, a, t) && RetainedTask(g, a) == Some(t)
  }

  /******* The grant *******/

  lemma SweptApprovalIff(k: Supervisor, a: ApprovalId, now: nat)
    requires Sound(k)
    ensures k.ApproveSwept(a, now).1.Ok? <==>
            && a in k.pending && Is(k, k.pending[a].task, WaitingApproval) && now < DeadlineOf(k, a) && Takes(k, a, 0)
  {
    hide TasksSound, AuthoritySound, ApprovedsSound, LivesSound, WaitersHavePending, AuditLog.Append, Takes, ActionOf,
         Authority.Restore, Supervisor.Promoted;
    if a in k.pending {
      assert PendingSound(k, a);
      var p := k.pending[a];
      TakenIffAccepted(k, a, ApprovalGranted(a, p.operation), StateTransitioned(k.tasks[p.task].state, Running));
    }
  }

  /** `approve_operation` succeeds if and only if the approval goes through. */
  lemma {:induction false} GrantedIff(s: Supervisor, a: ApprovalId, sweptAt: nat, now: nat)
    requires Sound(s)
    ensures s.ApproveOperation(a, sweptAt, now).1.Ok? <==> GoesThrough(s, a, sweptAt, now)
  {
    hide Sound, TakesAll, Takes, Supervisor.ApproveSwept, Supervisor.Sweep, Authority.ExpiredIds, Stands;
    var ids := SweptAt(s, sweptAt);
    var (k, r) := s.Sweep(ids, 0);
    assert s.ExpireApprovals(sweptAt) == (k, r);
    ExpiredArePending(s, sweptAt);
    SweepSucceedsIff(s, ids, 0);
    if r.Ok? {
      SweepKeepsSound(s, ids, 0);
      SweptApprovalIff(k, a, now);
      if a in k.pending {
        StandsIs(s, k, a);
        AuthorityKnows(k, a);
        ExpiryKeepsDeadlines(s, sweptAt, a);
        assert Takes(k, a, 0) <==> Takes(s, a, 0 + |ids|);
      }
    }
  }

  lemma StandsIs(s: Supervisor, k: Supervisor, a: ApprovalId)
    requires Stands(s, k, a)
    ensures a in s.pending && a in k.pending && k.pending[a] == s.pending[a]
    ensures forall state :: Is(k, s.pending[a].task, state) <==> Is(s, s.pending[a].task, state)
  {
  }

  lemma AuthorityKnows(k: Supervisor, a: ApprovalId)
    requires Sound(k) && a in k.pending
    ensures a in k.authority.pending
  {
  }

  /******* The sweep *******/

  /** An approval of `t` survives the sweep if and only if its Task does. */
  lemma SweepSpares(s: Supervisor, a: ApprovalId, t: TaskId, sweptAt: nat)
    requires Steady(s) && Owns(s, a, t)
    ensures var k := s.ExpireApprovals(sweptAt).0;
            && t in s.tasks && t in k.tasks && !Ended(s, t)
            && (a in k.pending <==> !SweepCloses(s, SweptAt(s, sweptAt), t))
            && (Ended(k, t) <==> SweepCloses(s, SweptAt(s, sweptAt), t))
  {
    hide Sound, Synced, ScopesSound, Supervisor.ExpireApprovals, SweepCloses, Authority.ExpiredIds, TasksStay,
         ReleasesNothing;
    var k := s.ExpireApprovals(sweptAt).0;
    PendingIsActive(s, a);
    SweepKeepsSteady(s, sweptAt);
    ExpiryOutcome(s, t, sweptAt);
    if a in k.pending {
      PendingIsActive(k, a);
    }
  }

  lemma PendingIsActive(s: Supervisor, a: ApprovalId)
    requires Sound(s) && a in s.pending
    ensures s.pending[a].task in s.tasks && !Ended(s, s.pending[a].task)
  {
    assert PendingSound(s, a);
  }

  /******* Approving through a gate *******/

  /** What a gate approval leaves for approval `a` of Task `t`. */
  ghost predicate ApprovalLeft(s: Supervisor, a: ApprovalId, t: TaskId, sweptAt: nat, granted: bool, n: Supervisor) {
    && (a in n.pending <==> a in s.pending && !SweepCloses(s, SweptAt(s, sweptAt), t) && !granted)
    && (Ended(n, t) <==> Ended(s, t) || SweepCloses(s, SweptAt(s, sweptAt), t))
    && (granted ==> Is(n, t, Running))
  }

  /** A retained operation that is no longer pending belongs to an ended Task, and a sweep closes nothing
      of that. */
  lemma NotPendingIsOver(y: System, i: nat, a: ApprovalId, t: TaskId, sweptAt: nat)
    requires Safe(y) && i < |y.gates| && RetainedTask(y.gates[i], a) == Some(t)
    ensures if a in y.supervisor.pending then Owns(y.supervisor, a, t)
            else Ended(y.supervisor, t) && !SweepCloses(y.supervisor, SweptAt(y.supervisor, sweptAt), t)
  {
    hide IdentitiesSound, Accounted, Synced, ScopesSound, TasksSound, AuthoritySound, ApprovedsSound, LivesSound,
         WaitersHavePending, TakesTo, Authority.ExpiredIds;
    var s, o := y.supervisor, y.gates[i].index[a];
    assert Holds(y.gates, i, o) && EntrySound(s, o, EntryAt(y.gates, i, o));
    assert y.gates[i].Consistent();
    forall b | b in s.pending && Ended(s, t) ensures s.pending[b].task != t {
      assert PendingSound(s, b);
    }
  }

  lemma FailedApprovalLeaves(s: Supervisor, a: ApprovalId, sweptAt: nat, now: nat)
    requires Steady(s) && s.ApproveOperation(a, sweptAt, now).1.Err?
    ensures var k, n := s.ExpireApprovals(sweptAt).0, s.ApproveOperation(a, sweptAt, now).0;
            && n.pending == k.pending && n.tasks == k.tasks
            && (a in n.pending ==> a in s.pending && n.pending[a] == s.pending[a])
  {
    hide Sound, Synced, ScopesSound, Supervisor.ExpireApprovals, Supervisor.ApproveSwept, TasksStay, ReleasesNothing;
    SweepKeepsSteady(s, sweptAt);
    var (k, r) := s.ExpireApprovals(sweptAt);
    if r.Ok? {
      SoundPendings(k);
      SoundAuthority(k);
      ApproveRollsBack(k, a, now);
    }
  }

  lemma ExpiryKeepsEnded(s: Supervisor, t: TaskId, sweptAt: nat)
    requires Steady(s) && Ended(s, t)
    ensures Ended(s.ExpireApprovals(sweptAt).0, t)
  {
    hide Sound, Synced, ScopesSound, Supervisor.ExpireApprovals, ApprovalsShrink, ReleasesNothing;
    SweepKeepsSteady(s, sweptAt);
  }

  lemma RefusedApprovalLeaves(y: System, i: nat, a: ApprovalId, t: TaskId, sweptAt: nat, now: nat)
    requires Safe(y) && i < |y.gates| && RetainedTask(y.gates[i], a) == Some(t)
    requires y.supervisor.ApproveOperation(a, sweptAt, now).1.Err?
    ensures ApprovalLeft(y.supervisor, a, t, sweptAt, false, y.supervisor.ApproveOperation(a, sweptAt, now).0)
  {
    hide Steady, Agreement, IdentitiesSound, Accounted, Supervisor.ExpireApprovals, Supervisor.ApproveOperation,
         SweepCloses, SweptAt;
    var s := y.supervisor;
    NotPendingIsOver(y, i, a, t, sweptAt);
    FailedApprovalLeaves(s, a, sweptAt, now);
    if a in s.pending {
      SweepSpares(s, a, t, sweptAt);
    } else {
      ExpiryKeepsEnded(s, t, sweptAt);
      NotPendingStays(s, a, sweptAt);
    }
  }

  lemma NotPendingStays(s: Supervisor, a: ApprovalId, sweptAt: nat)
    requires Steady(s) && a !in s.pending
    ensures a !in s.ExpireApprovals(sweptAt).0.pending
  {
    hide Sound, Synced, ScopesSound, Supervisor.ExpireApprovals, TasksStay, ReleasesNothing;
    SweepKeepsSteady(s, sweptAt);
  }

  /** The store after the grant: two events more and one entry of the plan used. */
  lemma GrantStore(k: Supervisor, a: ApprovalId, now: nat)
    requires PendingsSound(k) && k.ApproveSwept(a, now).1.Ok?
    ensures a in k.pending
    ensures var n, t := k.ApproveSwept(a, now).0, k.pending[a].task;
            && Is(n, t, Running) && n.store.plan == Dropped(k.store.plan, 1) && n.store.capacity == k.store.capacity
            && |n.store.LogOf(t)| == |k.store.LogOf(t)| + 2
  {
    hide Supervisor.ApproveSwept;
    ApprovePromotes(k, a, now);
    hide Authority.Approve, Authority.Remove, Authority.Restore;
  }

  lemma UsableIff(s: Supervisor, a: ApprovalId, t: TaskId, sweptAt: nat, now: nat, consumedAt: nat)
    requires Sound(s) && Owns(s, a, t) && GoesThrough(s, a, sweptAt, now)
    ensures Usable(s, a, sweptAt, consumedAt) <==>
            consumedAt < DeadlineOf(s, a) && Willing(s.ApproveOperation(a, sweptAt, now).0.store, t, 1)
  {
    hide Sound, Takes, Supervisor.ApproveSwept, Supervisor.Sweep, Authority.ExpiredIds, AuditLog.LogOf, Usable,
         Willing, PendingsSound;
    GrantedIff(s, a, sweptAt, now);
    var ids := SweptAt(s, sweptAt);
    var (k, r) := s.Sweep(ids, 0);
    assert s.ExpireApprovals(sweptAt) == (k, r);
    ExpiredArePending(s, sweptAt);
    SweepSucceedsIff(s, ids, 0);
    SweepStore(s, ids, 0, a);
    SweepKeepsSound(s, ids, 0);
    SoundPendings(k);
    GrantStore(k, a, now);
    assert Stands(s, k, a);
    RoomAfterGrant(s, a, t, sweptAt, consumedAt, k.store, s.ApproveOperation(a, sweptAt, now).0.store);
  }

  lemma RoomAfterGrant(s: Supervisor, a: ApprovalId, t: TaskId, sweptAt: nat, consumedAt: nat,
                       swept: AuditLog, store: AuditLog)
    requires Owns(s, a, t)
    requires swept.plan == Dropped(s.store.plan, |SweptAt(s, sweptAt)|) && swept.capacity == s.store.capacity
    requires swept.LogOf(t) == s.store.LogOf(t)
    requires store.plan == Dropped(swept.plan, 1) && store.capacity == swept.capacity
    requires |store.LogOf(t)| == |swept.LogOf(t)| + 2
    ensures Usable(s, a, sweptAt, consumedAt) <==> consumedAt < DeadlineOf(s, a) && Willing(store, t, 1)
  {
    hide SweptAt, DeadlineOf, AuditLog.LogOf;
  }

  lemma GrantedApprovalLeaves(y: System, i: nat, a: ApprovalId, t: TaskId, sweptAt: nat, now: nat, consumedAt: nat)
    requires Safe(y) && i < |y.gates| && RetainedTask(y.gates[i], a) == Some(t)
    requires GoesThrough(y.supervisor, a, sweptAt, now)
    ensures y.supervisor.ApproveOperation(a, sweptAt, now).1.Ok? && Owns(y.supervisor, a, t)
    ensures var p := y.supervisor.pending[a];
            var (f, q) := y.supervisor.ApproveOperation(a, sweptAt, now).0
                            .AuthorizeOperation(t, p.operation, p.request, consumedAt);
            && ApprovalLeft(y.supervisor, a, t, sweptAt, true, f)
            && (q.Ok? <==> Usable(y.supervisor, a, sweptAt, consumedAt))
  {
    hide Sound, Synced, ScopesSound, Agreement, IdentitiesSound, Accounted, Supervisor.ExpireApprovals, GoesThrough,
         Usable, Supervisor.ApproveSwept, Supervisor.AuthorizeOperation, AuditLog.Append, SweepCloses, SweptAt, Takes,
         TasksStay, ReleasesNothing, ApprovalsShrink, Willing;
    var s := y.supervisor;
    GrantedIsPending(s, a, sweptAt, now);
    NotPendingIsOver(y, i, a, t, sweptAt);
    GrantedIff(s, a, sweptAt, now);
    UsableIff(s, a, t, sweptAt, now, consumedAt);
    SweepKeepsSteady(s, sweptAt);
    SweepSpares(s, a, t, sweptAt);
    var k := s.ExpireApprovals(sweptAt).0;
    SoundPendings(k);
    hide PendingsSound;
    ApprovePromotesOne(k, a, now);
    GrantStore(k, a, now);
    ConsumingAfterApproval(k, a, now, consumedAt);
    PendingKept(s, k, a);
    ExpiryKeepsDeadlines(s, sweptAt, a);
    AppendTakesIff(s.ApproveOperation(a, sweptAt, now).0.store, t, [ApprovalConsumed(a, s.pending[a].operation)]);
  }

  lemma PendingKept(s: Supervisor, k: Supervisor, a: ApprovalId)
    requires Subsides(s, k) && a in k.pending
    ensures a in s.pending && k.pending[a] == s.pending[a]
  {
  }

  lemma GrantedIsPending(s: Supervisor, a: ApprovalId, sweptAt: nat, now: nat)
    requires GoesThrough(s, a, sweptAt, now)
    ensures a in s.pending
  {
  }

  /** A gate approval, for every clock reading and every backend: the grant goes through if and only if
      the state before the call says so, and is used if and only if it says that too; otherwise the call
      fails at the supervisor. The approval is still pending afterwards exactly if it was before, the
      sweep did not close it and it was not granted; the gate has dropped the operation exactly if it was
      granted; and the Task has ended exactly if it had before or the sweep closed it. */
  lemma {:induction false} ApprovalOutcome<E>(y: System, i: nat, a: ApprovalId, t: TaskId, sweptAt: nat, now: nat,
                                              consumedAt: nat, works: Result<(), E>)
    requires Safe(y) && i < |y.gates| && RetainedTask(y.gates[i], a) == Some(t)
    ensures var s, granted := y.supervisor, GoesThrough(y.supervisor, a, sweptAt, now);
            var turn := y.gates[i].ApproveAndExecute(s, a, sweptAt, now, consumedAt, works);
            && ApprovalLeft(s, a, t, sweptAt, granted, turn.supervisor)
            && (a in turn.gate.index <==> !granted)
            && (turn.executed.Some? <==> granted && Usable(s, a, sweptAt, consumedAt))
            && (turn.result.Err? && turn.result.error.SupervisorFailed? <==> turn.executed.None?)
            && (IsLive(turn.supervisor, turn.gate, a, t) <==>
                IsLive(s, y.gates[i], a, t) && !SweepCloses(s, SweptAt(s, sweptAt), t) && !granted)
  {
    hide Steady, Agreement, IdentitiesSound, Accounted, GoesThrough, Usable, ApprovalLeft, Supervisor.ApproveOperation,
         Supervisor.AuthorizeOperation, GateState.ApproveAndExecute, SweepCloses, SweptAt;
    var s := y.supervisor;
    IsSound(y);
    GrantedIff(s, a, sweptAt, now);
    NotPendingIsOver(y, i, a, t, sweptAt);
    TurnOf(y.gates[i], s, a, t, sweptAt, now, consumedAt, works);
    if GoesThrough(s, a, sweptAt, now) {
      GrantedApprovalLeaves(y, i, a, t, sweptAt, now, consumedAt);
      EntryMatches(s, y.gates, i, a);
    } else {
      RefusedApprovalLeaves(y, i, a, t, sweptAt, now);
      FailedApprovalLeaves(s, a, sweptAt, now);
      LeftIsPending(s, a, t, sweptAt, false, s.ApproveOperation(a, sweptAt, now).0);
    }
  }

  lemma LeftIsPending(s: Supervisor, a: ApprovalId, t: TaskId, sweptAt: nat, granted: bool, n: Supervisor)
    requires ApprovalLeft(s, a, t, sweptAt, granted, n)
    ensures a in n.pending <==> a in s.pending && !SweepCloses(s, SweptAt(s, sweptAt), t) && !granted
  {
  }

  lemma TurnOf<E>(g: GateState, s: Supervisor, a: ApprovalId, t: TaskId, sweptAt: nat, now: nat, consumedAt: nat,
                  works: Result<(), E>)
    requires RetainedTask(g, a) == Some(t)
    ensures var turn := g.ApproveAndExecute(s, a, sweptAt, now, consumedAt, works);
            var approved := s.ApproveOperation(a, sweptAt, now);
            var request := g.pending[g.index[a]].operation.request;
            var used := approved.0.AuthorizeOperation(t, g.index[a], request, consumedAt);
            && turn.supervisor == (if approved.1.Ok? then used.0 else approved.0)
            && (a in turn.gate.index <==> approved.1.Err?) && (approved.1.Err? ==> turn.gate == g)
            && (turn.executed.Some? <==> approved.1.Ok? && used.1.Ok?)
            && (turn.result.Err? && turn.result.error.SupervisorFailed? <==> turn.executed.None?)
  {
    hide Supervisor.ApproveOperation, Supervisor.AuthorizeOperation;
  }

  lemma IsSound(y: System)
    requires Safe(y)
    ensures Sound(y.supervisor)
  {
    hide Sound, Agreement, IdentitiesSound, Accounted;
  }

  /******* Denying through a gate *******/

  lemma SweptDenialIff(k: Supervisor, a: ApprovalId)
    requires Sound(k)
    ensures k.DenySwept(a).1.Ok? <==> a in k.pending && Takes(k, a, 0)
    ensures k.DenySwept(a).0.pending == if k.DenySwept(a).1.Ok? then k.pending - {a} else k.pending
  {
    hide TasksSound, ApprovedsSound, LivesSound, WaitersHavePending, AuditLog.Append, Takes, ActionOf,
         Authority.Consistent, Authority.Remove;
    if a in k.pending {
      assert PendingSound(k, a);
      var p := k.pending[a];
      TakenIffAccepted(k, a, ApprovalDenied(a, p.operation), StateTransitioned(k.tasks[p.task].state, Failed));
    }
  }

  /** `deny_operation` succeeds if and only if it closes the operation. */
  lemma {:induction false} DeniedIff(s: Supervisor, a: ApprovalId, t: TaskId, sweptAt: nat)
    requires Sound(s) && Owns(s, a, t)
    ensures var (n, r) := s.DenyOperation(a, sweptAt);
            && (r.Ok? <==> DenialCloses(s, SweptAt(s, sweptAt), a, t))
            && var left := s.ExpireApprovals(sweptAt).0.pending;
               n.pending == if r.Ok? then left - {a} else left
  {
    hide Sound, TakesAll, Takes, Supervisor.DenySwept, Supervisor.Sweep, Authority.ExpiredIds, SweptTo, DenialCloses,
         Owns;
    var ids := SweptAt(s, sweptAt);
    var (k, r) := s.Sweep(ids, 0);
    assert s.ExpireApprovals(sweptAt) == (k, r);
    ExpiredArePending(s, sweptAt);
    SweepSucceedsIff(s, ids, 0);
    if r.Ok? {
      SweepKeepsSound(s, ids, 0);
      SweptDenialIff(k, a);
      DenialAfterSweepCloses(s, ids, k, a, t);
      StillOwns(s, ids, k, a, t);
    } else {
      NotAllTaken(s, ids, t);
    }
  }

  lemma StillOwns(s: Supervisor, ids: seq<ApprovalId>, k: Supervisor, a: ApprovalId, t: TaskId)
    requires SweptTo(s, ids, k) && Owns(s, a, t)
    ensures a in k.pending <==> Owns(k, a, t)
  {
    if a in k.pending {
      assert Stands(s, k, a);
    }
  }

  /** What a gate denial leaves for approval `a` of Task `t`. */
  ghost predicate DenialLeft(s: Supervisor, a: ApprovalId, t: TaskId, sweptAt: nat, n: Supervisor) {
    var denied := DenialCloses(s, SweptAt(s, sweptAt), a, t);
    && (a in n.pending <==> a in s.pending && !SweepCloses(s, SweptAt(s, sweptAt), t) && !denied)
    && (Ended(n, t) <==> Ended(s, t) || SweepCloses(s, SweptAt(s, sweptAt), t) || denied)
  }

  /** A gate denial, for every clock reading and every backend: it succeeds if and only if it closes the
      operation; the approval is still pending afterwards exactly if it was before, the sweep did not
      close it and it was not denied; the gate drops the operation exactly if it was denied; and the Task
      has ended exactly if it had before, the sweep closed it or it was denied. */
  lemma {:induction false} DenialOutcome<E>(y: System, i: nat, a: ApprovalId, t: TaskId, sweptAt: nat)
    requires Safe(y) && i < |y.gates| && RetainedTask(y.gates[i], a) == Some(t)
    ensures var s := y.supervisor;
            var turn: Turn<TaskSnapshot, E> := y.gates[i].Deny(s, a, sweptAt);
            && DenialLeft(s, a, t, sweptAt, turn.supervisor)
            && (turn.result.Ok? <==> DenialCloses(s, SweptAt(s, sweptAt), a, t))
            && (a in turn.gate.index <==> turn.result.Err?)
            && (turn.result.Err? ==> turn.result.error.SupervisorFailed?)
            && (IsLive(turn.supervisor, turn.gate, a, t) <==>
                && IsLive(s, y.gates[i], a, t) && !SweepCloses(s, SweptAt(s, sweptAt), t)
                && !DenialCloses(s, SweptAt(s, sweptAt), a, t))
  {
    hide Steady, Agreement, IdentitiesSound, Accounted, Supervisor.DenyOperation, Supervisor.ExpireApprovals,
         SweepCloses, DenialCloses, SweptAt;
    var s := y.supervisor;
    IsSound(y);
    NotPendingIsOver(y, i, a, t, sweptAt);
    if a in s.pending {
      SweepSpares(s, a, t, sweptAt);
      DeniedIff(s, a, t, sweptAt);
      DenialEnds(s, a, t, sweptAt);
      SweepKeepsPending(s, a, sweptAt);
    } else {
      OverStaysOver(s, a, t, sweptAt);
    }
  }

  lemma SweepKeepsPending(s: Supervisor, a: ApprovalId, sweptAt: nat)
    requires Steady(s)
    ensures var k := s.ExpireApprovals(sweptAt).0; a in k.pending ==> a in s.pending && k.pending[a] == s.pending[a]
  {
    hide Sound, Synced, ScopesSound, Supervisor.ExpireApprovals, TasksStay, ReleasesNothing;
    SweepKeepsSteady(s, sweptAt);
  }

  lemma DenialEnds(s: Supervisor, a: ApprovalId, t: TaskId, sweptAt: nat)
    requires Sound(s) && t in s.tasks
    ensures Ended(s.DenyOperation(a, sweptAt).0, t) <==>
            Ended(s, t) || SweepCloses(s, SweptAt(s, sweptAt), t) || DenialCloses(s, SweptAt(s, sweptAt), a, t)
  {
    hide Sound, Supervisor.DenyOperation, SweepCloses, DenialCloses, Authority.ExpiredIds;
    SweepingCallEndsIff(s, CallDeny(a, sweptAt), t);
  }

  /** Denying what is no longer pending fails and changes nothing for its ended Task. */
  lemma OverStaysOver(s: Supervisor, a: ApprovalId, t: TaskId, sweptAt: nat)
    requires Steady(s) && a !in s.pending && Ended(s, t)
    ensures var (n, r) := s.DenyOperation(a, sweptAt);
            r.Err? && a !in n.pending && Ended(n, t) && !DenialCloses(s, SweptAt(s, sweptAt), a, t)
  {
    hide Sound, Synced, ScopesSound, Supervisor.ExpireApprovals, TakesAll, Takes, Authority.ExpiredIds;
    NotPendingStays(s, a, sweptAt);
    ExpiryKeepsEnded(s, t, sweptAt);
  }

  /******* What becomes of a session *******/

  /** After `approve_and_resume` for a session of `t` whose operation gate `i` retained: the session is
      kept as it was if and only if the grant did not go through or was not used, and then the supervisor
      and the gate are as the decision left them. */
  ghost predicate SessionAfterApproval(y: System, i: nat, a: ApprovalId, t: TaskId, sweptAt: nat, now: nat,
                                       consumedAt: nat, kept: bool, n: System)
  {
    Safe(y) && i < |y.gates| == |n.gates| && RetainedTask(y.gates[i], a) == Some(t) ==>
      var s, granted := y.supervisor, GoesThrough(y.supervisor, a, sweptAt, now);
      && (kept <==> !(granted && Usable(s, a, sweptAt, consumedAt)))
      && (kept ==>
            && ApprovalLeft(s, a, t, sweptAt, granted, n.supervisor) && (a in n.gates[i].index <==> !granted)
            && (IsLive(n.supervisor, n.gates[i], a, t) <==>
                IsLive(s, y.gates[i], a, t) && !SweepCloses(s, SweptAt(s, sweptAt), t) && !granted))
  }

  lemma ApprovalSession<E>(y: System, i: nat, a: ApprovalId, t: TaskId, sweptAt: nat, now: nat, consumedAt: nat,
                           works: Result<(), E>, n: System)
    requires i < |y.gates| && (RetainedTask(y.gates[i], a).None? || RetainedTask(y.gates[i], a) == Some(t))
    requires var turn := y.gates[i].ApproveAndExecute(y.supervisor, a, sweptAt, now, consumedAt, works);
             n.supervisor == turn.supervisor && n.gates == y.gates[i := turn.gate]
    ensures var r := y.gates[i].ApproveAndExecute(y.supervisor, a, sweptAt, now, consumedAt, works).result;
            && SessionAfterApproval(y, i, a, t, sweptAt, now, consumedAt, r.Err? && r.error.SupervisorFailed?, n)
            && (RetainedTask(y.gates[i], a).None? ==> r == Err(OperationNotFound))
  {
    hide Safe, GoesThrough, Usable, ApprovalLeft, GateState.ApproveAndExecute, SweepCloses, SweptAt, IsLive,
         RetainedTask;
    if RetainedTask(y.gates[i], a).None? {
      Unretained(y.gates[i], y.supervisor, a, sweptAt, now, consumedAt, works);
    } else if Safe(y) {
      ApprovalOutcome(y, i, a, t, sweptAt, now, consumedAt, works);
    }
  }

  /** Once the session goes on, nothing more is said of the old approval. */
  lemma ResumedSession(y: System, i: nat, a: ApprovalId, t: TaskId, sweptAt: nat, now: nat, consumedAt: nat, n: System,
                       k: System)
    requires SessionAfterApproval(y, i, a, t, sweptAt, now, consumedAt, false, n) && |n.gates| == |y.gates|
    ensures SessionAfterApproval(y, i, a, t, sweptAt, now, consumedAt, false, k)
  {
    hide Safe, GoesThrough, Usable, ApprovalLeft, SweepCloses, SweptAt, IsLive;
  }

  /** After `deny` for a session of `t` whose operation gate `i` retained: the call succeeds if and only if
      the denial closes the operation, and then the Task has failed; otherwise the session is kept, and
      its approval is live if and only if it was before and the sweep did not close it. */
  ghost predicate SessionAfterDenial(y: System, i: nat, a: ApprovalId, t: TaskId, sweptAt: nat, denied: bool,
                                     n: System)
  {
    Safe(y) && i < |y.gates| == |n.gates| && RetainedTask(y.gates[i], a) == Some(t) ==>
      var s := y.supervisor;
      && DenialLeft(s, a, t, sweptAt, n.supervisor)
      && (denied <==> DenialCloses(s, SweptAt(s, sweptAt), a, t))
      && if denied then Is(n.supervisor, t, Failed)
         else IsLive(n.supervisor, n.gates[i], a, t) <==>
              IsLive(s, y.gates[i], a, t) && !SweepCloses(s, SweptAt(s, sweptAt), t)
  }

  lemma DenialSession<E>(y: System, i: nat, a: ApprovalId, t: TaskId, sweptAt: nat, n: System)
    requires i < |y.gates|
    requires var turn: Turn<TaskSnapshot, E> := y.gates[i].Deny(y.supervisor, a, sweptAt);
             n.supervisor == turn.supervisor && n.gates == y.gates[i := turn.gate]
    ensures var turn: Turn<TaskSnapshot, E> := y.gates[i].Deny(y.supervisor, a, sweptAt);
            SessionAfterDenial(y, i, a, t, sweptAt, turn.result.Ok?, n)
  {
    hide Safe, DenialLeft, DenialCloses, GateState.Deny, SweepCloses, SweptAt, IsLive, RetainedTask;
    if Safe(y) && RetainedTask(y.gates[i], a) == Some(t) {
      DenialFails<E>(y, GateDeny(i, a, sweptAt), t);
      DenialOutcome<E>(y, i, a, t, sweptAt);
    }
  }

  lemma Unretained<E>(g: GateState, s: Supervisor, a: ApprovalId, sweptAt: nat, now: nat, consumedAt: nat,
                      works: Result<(), E>)
    requires RetainedTask(g, a).None?
    ensures g.ApproveAndExecute(s, a, sweptAt, now, consumedAt, works).result == Err(OperationNotFound)
  {
  }

  /** After `expire` with a live approval `a` of `t`: it is live still if and only if the Task has not
      ended. */
  ghost predicate SessionAfterExpiry(y: System, i: nat, a: ApprovalId, t: TaskId, n: System) {
    Safe(y) && i < |y.gates| == |n.gates| && IsLive(y.supervisor, y.gates[i], a, t) ==>
      (IsLive(n.supervisor, n.gates[i], a, t) <==> !Ended(n.supervisor, t))
  }

  lemma UntouchedSession(y: System, i: nat, a: ApprovalId, t: TaskId)
    ensures SessionAfterExpiry(y, i, a, t, y)
  {
    hide Agreement, IdentitiesSound, Accounted, Sound, Synced, ScopesSound;
    if Safe(y) && a in y.supervisor.pending {
      PendingIsActive(y.supervisor, a);
    }
  }

  lemma ExpirySession<E>(y: System, i: nat, a: ApprovalId, t: TaskId, now: nat, n: System)
    requires i < |y.gates|
    requires var turn: Turn<nat, E> := y.gates[i].Expire(y.supervisor, now);
             n.supervisor == turn.supervisor && n.gates == y.gates[i := turn.gate]
    ensures SessionAfterExpiry(y, i, a, t, n)
  {
    hide Steady, IdentitiesSound, Accounted, Supervisor.ExpireApprovals, SweepCloses, SweptAt, GateState.EndedTasks,
         GateState.Without;
    if Safe(y) && IsLive(y.supervisor, y.gates[i], a, t) {
      SweepSpares(y.supervisor, a, t, now);
      SweepKeepsPending(y.supervisor, a, now);
      assert y.gates[i].Consistent();
      PurgeSpares(y.gates[i], n.supervisor, a, t);
    }
  }

  lemma PurgeSpares(g: GateState, n: Supervisor, a: ApprovalId, t: TaskId)
    requires g.Consistent() && RetainedTask(g, a) == Some(t) && t in n.tasks
    ensures !Ended(n, t) ==> RetainedTask(g.Without(g.EndedTasks(n)), a) == Some(t)
  {
  }

  /******* Decisions that come too late *******/

  /** A decision on an approval that has expired, every batch of the sweep being taken: approving and
      denying both answer NotFound, the gate keeps the operation, nothing of it is pending and the Task has ended. */
  lemma {:induction false} LateDecision<E>(y: System, i: nat, a: ApprovalId, t: TaskId, sweptAt: nat, now: nat,
                                           consumedAt: nat, works: Result<(), E>)
    requires Safe(y) && i < |y.gates| && RetainedTask(y.gates[i], a) == Some(t) && a in y.supervisor.pending
    requires a in SweptAt(y.supervisor, sweptAt) && TakesAll(y.supervisor, SweptAt(y.supervisor, sweptAt))
    ensures var approved := y.gates[i].ApproveAndExecute(y.supervisor, a, sweptAt, now, consumedAt, works);
            var denied: Turn<TaskSnapshot, E> := y.gates[i].Deny(y.supervisor, a, sweptAt);
            && approved.result == Err(SupervisorFailed(ApprovalFailed(NotFound))) && approved.gate == y.gates[i]
            && denied.result == Err(SupervisorFailed(ApprovalFailed(NotFound))) && denied.gate == y.gates[i]
            && Ended(approved.supervisor, t) && Ended(denied.supervisor, t)
            && a !in approved.supervisor.pending && a !in denied.supervisor.pending
  {
    hide Steady, Agreement, IdentitiesSound, Accounted, TakesAll, Supervisor.ApproveOperation,
         Supervisor.DenyOperation, Supervisor.ExpireApprovals, SweptAt;
    NotPendingIsOver(y, i, a, t, sweptAt);
    LateAnswer(y.supervisor, a, t, sweptAt, now);
  }

  lemma LateAnswer(s: Supervisor, a: ApprovalId, t: TaskId, sweptAt: nat, now: nat)
    requires Steady(s) && Owns(s, a, t) && a in SweptAt(s, sweptAt) && TakesAll(s, SweptAt(s, sweptAt))
    ensures var k := s.ExpireApprovals(sweptAt).0;
            && s.ApproveOperation(a, sweptAt, now) == (k, Err(ApprovalFailed(NotFound)))
            && s.DenyOperation(a, sweptAt) == (k, Err(ApprovalFailed(NotFound)))
            && Ended(k, t) && a !in k.pending
  {
    hide Sound, Synced, ScopesSound, TakesAll, Supervisor.ApproveSwept, Supervisor.DenySwept, Supervisor.Sweep,
         Authority.ExpiredIds;
    var ids := SweptAt(s, sweptAt);
    ExpiredArePending(s, sweptAt);
    SweepSucceedsIff(s, ids, 0);
    SweepSpares(s, a, t, sweptAt);
    assert s.ExpireApprovals(sweptAt) == s.Sweep(ids, 0);
    AbsentIsNotFound(s.Sweep(ids, 0).0, a, now);
  }

  lemma AbsentIsNotFound(k: Supervisor, a: ApprovalId, now: nat)
    requires a !in k.pending
    ensures k.ApproveSwept(a, now) == (k, Err(ApprovalFailed(NotFound)))
    ensures k.DenySwept(a) == (k, Err(ApprovalFailed(NotFound)))
  {
  }
}
