/** Approved operations of Tasks that have ended: denial and expiry leave them behind, the other endings
    revoke them. They are dead, because `authorize_operation` demands a running Task. */
module Lingering {
  import opened Lifecycle
  import opened Capability
  import opened Audit
  import opened Approval
  import opened Supervision
  import opened Soundness
  import opened Moves
  import opened Calls
  import opened Replaying
  import opened Sweeps
  import opened Subsidence

  /** The Task has ended and an approved operation of it is still there. */
  predicate Lingers(s: Supervisor, t: TaskId) { Ended(s, t) && s.ApprovedOf(t) != {} }

  /** The call closes the pending operation of `t`, by its sweep or as a denial, and the backend takes it;
      said of the state before the call. */
  predicate ClosedBy(s: Supervisor, c: Command, t: TaskId) {
    SweepCloses(s, Swept(s, c), t) || (c.CallDeny? && DenialCloses(s, Swept(s, c), c.approval, t))
  }

  predicate DenialCloses(s: Supervisor, ids: seq<ApprovalId>, a: ApprovalId, t: TaskId) {
    TakesAll(s, ids) && a !in ids && Owns(s, a, t) && Takes(s, a, |ids|)
  }

  /******* Moves *******/

  /** Denial and expiry leave the approved operations of their Task as they were. */
  lemma CloseKeepsApproved(s: Supervisor, m: Move, n: Supervisor)
    requires Does(s, m, n) && m.Close?
    ensures Ended(n, m.task) && n.ApprovedOf(m.task) == s.ApprovedOf(m.task)
  {
    hide ErrorCount, InScope, Authority.Remove;
  }

  /** Every other ending leaves none. */
  lemma FinishClearsApproved(s: Supervisor, m: Move, n: Supervisor)
    requires Does(s, m, n) && m.Finish?
    ensures Ended(n, m.task) && n.ApprovedOf(m.task) == {}
  {
    hide ErrorCount, InScope, Authority.RemoveAll, Supervisor.TransitionBatch;
  }

  lemma OtherMovesLeaveNone(s: Supervisor, m: Move, n: Supervisor, t: TaskId)
    requires TasksSound(s) && ApprovedsSound(s) && Does(s, m, n) && !m.Close? && !m.Finish? && !Lingers(s, t)
    ensures !Lingers(n, t)
  {
    hide ErrorCount, InScope, Batch, Authority.Remove, Authority.Insert, TasksSound;
    if m.Enroll? {
      NewTaskIsUnknown(s, m.task);
      forall o | o in s.approved ensures s.approved[o].task in s.tasks {
        assert ApprovedSound(s, o);
      }
    }
  }

  /** An approved operation starts to linger exactly when a move closes the pending operation of a Task
      that has one. */
  lemma {:induction false} MoveLingersIff(s: Supervisor, m: Move, n: Supervisor, t: TaskId)
    requires Sound(s) && Does(s, m, n) && !Lingers(s, t)
    ensures Lingers(n, t) <==> m.Close? && m.task == t && s.ApprovedOf(t) != {}
  {
    hide Does, TasksSound, AuthoritySound, PendingsSound, ApprovedsSound, LivesSound, WaitersHavePending;
    if m.Close? {
      CloseKeepsApproved(s, m, n);
      OtherTasksKeep(s, m, n, t);
    } else if m.Finish? {
      FinishClearsApproved(s, m, n);
      OtherTasksKeep(s, m, n, t);
    } else {
      OtherMovesLeaveNone(s, m, n, t);
    }
  }

  lemma OtherTasksKeep(s: Supervisor, m: Move, n: Supervisor, t: TaskId)
    requires Does(s, m, n) && (m.Close? || m.Finish?)
    ensures t != m.task ==> (Ended(n, t) <==> Ended(s, t)) && n.ApprovedOf(t) == s.ApprovedOf(t)
  {
    hide ErrorCount, InScope, Batch, Authority.Remove, Authority.RemoveAll;
  }

  /******* Calls *******/

  lemma {:induction false} ChainLeavesNone(s: Supervisor, path: Path, n: Supervisor, t: TaskId)
    requires Sound(s) && Reaches(s, path, n) && ClosesNothing(path) && !Lingers(s, t)
    ensures !Lingers(n, t)
    decreases path
  {
    hide Does, Sound, Lingers;
    if path != [] {
      MoveSound(s, path[0].move, path[0].to);
      MoveLingersIff(s, path[0].move, path[0].to, t);
      ChainLeavesNone(path[0].to, path[1..], n, t);
    }
  }

  /** After the sweep, the rest of a call. */
  ghost predicate RestLeaves(k: Supervisor, n: Supervisor, t: TaskId, closed: bool) {
    && t in n.tasks && (Ended(n, t) <==> Ended(k, t) || closed)
    && (Ended(n, t) ==> n.ApprovedOf(t) == k.ApprovedOf(t))
  }

  lemma RequestLeaves(k: Supervisor, t: TaskId, request: CapabilityRequest, ttl: nat, now: nat, o: OperationId,
                      a: ApprovalId, u: TaskId)
    requires u in k.tasks
    ensures RestLeaves(k, k.RequestSwept(t, request, ttl, now, o, a).0, u, false)
  {
    hide ErrorCount, Evaluate, AuditLog.Append, Supervisor.OpenApproval;
    if t in k.tasks {
      OpenLeaves(k, t, request, ttl, now, o, a);
    }
  }

  lemma OpenLeaves(k: Supervisor, t: TaskId, request: CapabilityRequest, ttl: nat, now: nat, o: OperationId,
                   a: ApprovalId)
    requires t in k.tasks
    ensures var n := k.OpenApproval(t, request, ttl, now, o, a).0;
            n.approved == k.approved && (n.tasks == k.tasks
              || n.tasks == k.tasks[t := k.tasks[t].(state := WaitingApproval)])
  {
    hide Authority.Request, Authority.Remove, AuditLog.Append, ActionOf;
  }

  lemma ApproveLeaves(k: Supervisor, a: ApprovalId, now: nat, u: TaskId)
    requires PendingsSound(k) && u in k.tasks
    ensures RestLeaves(k, k.ApproveSwept(a, now).0, u, false)
  {
    hide Authority.Approve, Authority.Restore, AuditLog.Append, ActionOf;
    if a in k.pending {
      assert PendingSound(k, a);
    }
  }

  lemma DenyLeaves(k: Supervisor, a: ApprovalId, u: TaskId)
    requires AuthoritySound(k) && PendingsSound(k) && u in k.tasks
    ensures RestLeaves(k, k.DenySwept(a).0, u, Owns(k, a, u) && Takes(k, a, 0))
  {
    hide Authority.Remove, Authority.Consistent, AuditLog.Append, ActionOf, Takes;
    if a in k.pending {
      assert PendingSound(k, a);
      var p := k.pending[a];
      TakenIffAccepted(k, a, ApprovalDenied(a, p.operation), StateTransitioned(k.tasks[p.task].state, Failed));
    }
  }

  lemma RestLeft(k: Supervisor, c: Command, u: TaskId)
    requires Sound(k) && SweepsFirst(c) && u in k.tasks
    ensures RestLeaves(k, Rest(k, c), u, c.CallDeny? && Owns(k, c.approval, u) && Takes(k, c.approval, 0))
  {
    hide TasksSound, AuthoritySound, PendingsSound, ApprovedsSound, LivesSound, WaitersHavePending, RestLeaves, Takes,
         Supervisor.RequestSwept, Supervisor.ApproveSwept, Supervisor.DenySwept;
    match c
    case CallRequest(t, request, ttl, _, now, o, a) => RequestLeaves(k, t, request, ttl, now, o, a, u);
    case CallApprove(a, _, now) => ApproveLeaves(k, a, now, u);
    case CallDeny(a, _) => DenyLeaves(k, a, u);
    case CallExpire(_) => NothingLeft(k, u);
  }

  lemma NothingLeft(k: Supervisor, u: TaskId)
    requires u in k.tasks
    ensures RestLeaves(k, k, u, false)
  {
  }

  lemma DenialAfterSweepCloses(s: Supervisor, ids: seq<ApprovalId>, k: Supervisor, a: ApprovalId, t: TaskId)
    requires SweptTo(s, ids, k) && TakesAll(s, ids)
    ensures Owns(k, a, t) && Takes(k, a, 0) <==> DenialCloses(s, ids, a, t)
  {
    if a in k.pending {
      assert Takes(k, a, 0) <==> Takes(s, a, 0 + |ids|);
    }
  }

  lemma SweepingCallEndsIff(s: Supervisor, c: Command, t: TaskId)
    requires Sound(s) && SweepsFirst(c) && t in s.tasks
    ensures var n := Step(s, c);
            && t in n.tasks && (Ended(n, t) <==> Ended(s, t) || ClosedBy(s, c, t))
            && (Ended(n, t) ==> n.ApprovedOf(t) == s.ApprovedOf(t))
  {
    hide Sound, SweepCloses, TakesAll, Takes, SweptTo, Step, Rest, Swept, DenialCloses, Supervisor.Sweep;
    var ids := Swept(s, c);
    var (k, r) := s.Sweep(ids, 0);
    SweptArePending(s, c);
    SweepRecords(s, ids, 0, t);
    SweepSucceedsIff(s, ids, 0);
    StepIsSweepThenRest(s, c);
    if r.Err? {
      NotAllTaken(s, ids, t);
    } else {
      SweepKeepsSound(s, ids, 0);
      RestLeft(k, c, t);
      if c.CallDeny? {
        DenialAfterSweepCloses(s, ids, k, c.approval, t);
      }
    }
  }

  lemma NotAllTaken(s: Supervisor, ids: seq<ApprovalId>, t: TaskId)
    requires !TakesAll(s, ids)
    ensures forall a :: !DenialCloses(s, ids, a, t)
  {
  }

  lemma {:induction false} SweepKeepsKeys(s: Supervisor, ids: seq<ApprovalId>, count: nat)
    ensures s.Sweep(ids, count).0.tasks.Keys == s.tasks.Keys
    decreases ids
  {
    if ids != [] {
      var (s1, _) := s.ExpireOne(ids[0]);
      SweepKeepsKeys(s1, ids[1..], if ids[0] in s.pending then count + 1 else count);
    }
  }

  lemma RestKeepsKeys(k: Supervisor, c: Command)
    requires SweepsFirst(c)
    ensures Rest(k, c).tasks.Keys == k.tasks.Keys
  {
    hide ErrorCount, Evaluate, AuditLog.Append, Authority.Remove, Authority.Approve, Authority.Restore, ActionOf,
         Supervisor.OpenApproval;
    if c.CallRequest? && c.task in k.tasks {
      OpenLeaves(k, c.task, c.request, c.ttl, c.now, c.operation, c.approval);
    }
  }

  lemma UnknownNeverLingers(s: Supervisor, c: Command, t: TaskId)
    requires Sound(s) && SweepsFirst(c) && t !in s.tasks
    ensures !Lingers(Step(s, c), t) && s.ApprovedOf(t) == {}
  {
    hide Step, Swept, Rest, Supervisor.Sweep, TasksSound, AuthoritySound, PendingsSound, LivesSound, WaitersHavePending;
    StepIsSweepThenRest(s, c);
    SweepKeepsKeys(s, Swept(s, c), 0);
    RestKeepsKeys(s.Sweep(Swept(s, c), 0).0, c);
    forall o | o in s.approved ensures s.approved[o].task != t {
      assert ApprovedSound(s, o);
    }
  }

  /** Exactly when a call leaves an approved operation behind at a Task that has ended: if and only if it
      closes the pending operation of a Task that has an approved one. */
  lemma {:induction false} CallLingersIff(s: Supervisor, c: Command, t: TaskId)
    requires Sound(s) && DrawsFresh(s, c) && !Lingers(s, t)
    ensures Lingers(Step(s, c), t) <==> ClosedBy(s, c, t) && s.ApprovedOf(t) != {}
  {
    hide Sound, Step, DrawsFresh, SweepCloses, DenialCloses, Does;
    if !SweepsFirst(c) {
      var path := StepReaches(s, c);
      ChainLeavesNone(s, path, Step(s, c), t);
      NothingCloses(s, t);
    } else if t in s.tasks {
      hide Swept;
      SweepingCallEndsIff(s, c, t);
    } else {
      hide Swept;
      UnknownNeverLingers(s, c, t);
    }
  }
}
