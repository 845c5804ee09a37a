/** What the calls of the Agent runtime into supervisor and gates leave behind for the Task it drives. */
module AgentCalls {
  import opened Basics
  import opened Lifecycle
  import opened Capability
  import opened Audit
  import opened Approval
  import opened Supervision
  import opened Soundness
  import opened Runs
  import opened Sweeps
  import opened Subsidence
  import opened GateCalls
  import opened Gate
  import opened GateSafety

  /** The Task runs and its start is known, so an execution context is available. */
  predicate InProgress(s: Supervisor, t: TaskId) {
    t in s.tasks && s.tasks[t].state.Running? && s.tasks[t].startedAt.Some?
  }

  predicate Is(s: Supervisor, t: TaskId, state: TaskState) { t in s.tasks && s.tasks[t].state == state }

  predicate Began(s: Supervisor, t: TaskId) { t in s.tasks && s.tasks[t].startedAt.Some? }

  /** The Task is still known, with the same start and specification. */
  predicate KeepsStart(s: Supervisor, n: Supervisor, t: TaskId) {
    && t in s.tasks && t in n.tasks
    && n.tasks[t].startedAt == s.tasks[t].startedAt && n.tasks[t].spec == s.tasks[t].spec
  }

  /** The instant from which on the wall time of a started Task is used up. */
  function BudgetEnd(s: Supervisor, t: TaskId): nat
    requires Began(s, t)
  {
    var budget := s.tasks[t].spec.budget.wallTimeSeconds * 1_000_000_000;
    if budget == 0 then 0 else s.tasks[t].startedAt.value + budget
  }

  lemma SameBudget(s: Supervisor, n: Supervisor, t: TaskId)
    requires KeepsStart(s, n, t) && Began(s, t)
    ensures Began(n, t) && BudgetEnd(n, t) == BudgetEnd(s, t)
  {
  }

  lemma BudgetChecks(s: Supervisor, t: TaskId, now: nat)
    requires InProgress(s, t)
    ensures s.RemainingWallTime(t, now).Ok? && (s.RemainingWallTime(t, now).value == 0 <==> now >= BudgetEnd(s, t))
  {
    WallTimeIsExact(s, t, now);
  }

  /** Sweeps never touch the start of a Task. */
  lemma {:induction false} SweepKeepsStart(s: Supervisor, ids: seq<ApprovalId>, count: nat, t: TaskId)
    requires t in s.tasks
    ensures KeepsStart(s, s.Sweep(ids, count).0, t)
    decreases ids
  {
    if ids != [] {
      var (s1, failure) := s.ExpireOne(ids[0]);
      SweepKeepsStart(s1, ids[1..], if ids[0] in s.pending then count + 1 else count, t);
    }
  }

  lemma ExpireKeepsStart(s: Supervisor, now: nat, t: TaskId)
    requires t in s.tasks
    ensures KeepsStart(s, s.ExpireApprovals(now).0, t)
  {
    SweepKeepsStart(s, s.authority.ExpiredIds(now), 0, t);
  }

  lemma {:induction false} SweepKeepsFailed(s: Supervisor, ids: seq<ApprovalId>, count: nat)
    ensures forall t :: Is(s, t, Failed) ==> Is(s.Sweep(ids, count).0, t, Failed)
    decreases ids
  {
    if ids != [] {
      var (s1, failure) := s.ExpireOne(ids[0]);
      SweepKeepsFailed(s1, ids[1..], if ids[0] in s.pending then count + 1 else count);
    }
  }

  /******* Requests *******/

  lemma SweptRequestLeaves(k: Supervisor, t: TaskId, request: CapabilityRequest, ttl: nat, now: nat, o: OperationId,
                           a: ApprovalId)
    requires k.RequestSwept(t, request, ttl, now, o, a).1.Ok?
    ensures var (n, r) := k.RequestSwept(t, request, ttl, now, o, a);
            && (r.value.OperationPermitted? ==> Is(n, t, Running) && (Began(k, t) ==> Began(n, t)))
            && (r.value.NeedsApproval? ==> Is(n, t, WaitingApproval) && PendsFor(n, r.value.approval.approval, t))
  {
    hide ErrorCount, Evaluate, AuditLog.Append, Supervisor.OpenApproval;
    if t in k.tasks {
      OpenLeavesWaiting(k, t, request, ttl, now, o, a);
    }
  }

  lemma OpenLeavesWaiting(s: Supervisor, t: TaskId, request: CapabilityRequest, ttl: nat, now: nat, o: OperationId,
                          a: ApprovalId)
    requires t in s.tasks
    ensures var (n, r) := s.OpenApproval(t, request, ttl, now, o, a);
            r.Ok? ==>
              r.value.NeedsApproval? && Is(n, t, WaitingApproval) && PendsFor(n, r.value.approval.approval, t)
  {
    hide Authority.Request, Authority.Remove, AuditLog.Append, ActionOf;
  }

  lemma SweptRequestKeepsStart(k: Supervisor, t: TaskId, request: CapabilityRequest, ttl: nat, now: nat,
                               o: OperationId, a: ApprovalId)
    requires t in k.tasks
    ensures KeepsStart(k, k.RequestSwept(t, request, ttl, now, o, a).0, t)
  {
    hide ErrorCount, Evaluate, AuditLog.Append, Authority.Request, Authority.Remove, ActionOf;
  }

  /** After a gate request for a Task that had begun: if the operation was handed to the adapter the
      Task still runs; if it awaits approval the Task waits and the gate retains the operation for it. */
  lemma {:induction false} RequestLeaves<E>(g: GateState, s: Supervisor, t: TaskId, operation: Operation, ttl: nat,
                                            sweptAt: nat, now: nat, o: OperationId, a: ApprovalId,
                                            works: Result<(), E>)
    requires Began(s, t)
    ensures var turn := g.Request(s, t, operation, ttl, sweptAt, now, o, a, works);
            && (turn.result == Ok(Executed) ==> InProgress(turn.supervisor, t))
            && (turn.result.Ok? && turn.result.value.AwaitsApproval? ==>
                  && Is(turn.supervisor, t, WaitingApproval)
                  && PendsFor(turn.supervisor, turn.result.value.approval.approval, t)
                  && RetainedTask(turn.gate, turn.result.value.approval.approval) == Some(t))
            && KeepsStart(s, turn.supervisor, t)
  {
    hide Supervisor.ExpireApprovals, Supervisor.RequestSwept;
    ExpireKeepsStart(s, sweptAt, t);
    var (k, swept) := s.ExpireApprovals(sweptAt);
    SweptRequestKeepsStart(k, t, operation.request, ttl, now, o, a);
    if swept.Ok? && k.RequestSwept(t, operation.request, ttl, now, o, a).1.Ok? {
      SweptRequestLeaves(k, t, operation.request, ttl, now, o, a);
    }
  }

  /** The Task whose operation a gate retains under an approval. */
  function RetainedTask(g: GateState, a: ApprovalId): Option<TaskId> {
    if a in g.index && g.index[a] in g.pending then Some(g.pending[g.index[a]].task) else None
  }

  /******* Approvals *******/

  /** After a gate approval that executed the operation, its Task runs. */
  lemma ApproveLeaves<E>(g: GateState, s: Supervisor, a: ApprovalId, sweptAt: nat, now: nat, consumedAt: nat,
                         works: Result<(), E>, t: TaskId)
    requires Began(s, t) && RetainedTask(g, a) == Some(t)
    ensures g.ApproveAndExecute(s, a, sweptAt, now, consumedAt, works).result.Ok? ==>
              InProgress(g.ApproveAndExecute(s, a, sweptAt, now, consumedAt, works).supervisor, t)
  {
    hide Supervisor.ApproveOperation, Supervisor.AuthorizeOperation;
    var (n, r) := s.ApproveOperation(a, sweptAt, now);
    if r.Ok? {
      ApproveKeepsStart(s, a, sweptAt, now, t);
      AuthorizeLeaves(n, t, g.index[a], g.pending[g.index[a]].operation.request, consumedAt);
    }
  }

  /** A gate approval keeps the start of the Task, and the gate then retains nothing or the same
      Task's operation under that approval. */
  lemma ApprovalLeaves<E>(g: GateState, s: Supervisor, a: ApprovalId, sweptAt: nat, now: nat, consumedAt: nat,
                          works: Result<(), E>, t: TaskId)
    requires Began(s, t) && (RetainedTask(g, a).None? || RetainedTask(g, a) == Some(t))
    ensures var turn := g.ApproveAndExecute(s, a, sweptAt, now, consumedAt, works);
            && KeepsStart(s, turn.supervisor, t)
            && (turn.result.Ok? ==> InProgress(turn.supervisor, t))
            && (RetainedTask(turn.gate, a).None? || RetainedTask(turn.gate, a) == Some(t))
  {
    hide Supervisor.ApproveOperation, Supervisor.AuthorizeOperation;
    ApproveKeepsStart(s, a, sweptAt, now, t);
    if RetainedTask(g, a).Some? {
      ApproveLeaves(g, s, a, sweptAt, now, consumedAt, works, t);
      AuthorizeKeepsStart(s.ApproveOperation(a, sweptAt, now).0, t, g.index[a],
        g.pending[g.index[a]].operation.request, consumedAt);
    }
  }

  lemma AuthorizeKeepsStart(n: Supervisor, t: TaskId, o: OperationId, request: CapabilityRequest, now: nat)
    requires t in n.tasks
    ensures KeepsStart(n, n.AuthorizeOperation(t, o, request, now).0, t)
  {
    hide ErrorCount, Evaluate, AuditLog.Append, ApprovalGrant.Authorize;
  }

  lemma ApproveKeepsStart(s: Supervisor, a: ApprovalId, sweptAt: nat, now: nat, t: TaskId)
    requires t in s.tasks
    ensures KeepsStart(s, s.ApproveOperation(a, sweptAt, now).0, t)
  {
    hide Supervisor.ExpireApprovals, AuditLog.Append, Authority.Approve, Authority.Restore;
    ExpireKeepsStart(s, sweptAt, t);
  }

  lemma AuthorizeLeaves(n: Supervisor, t: TaskId, o: OperationId, request: CapabilityRequest, now: nat)
    requires Began(n, t)
    ensures n.AuthorizeOperation(t, o, request, now).1.Ok? ==> InProgress(n.AuthorizeOperation(t, o, request, now).0, t)
  {
    hide ErrorCount, Evaluate, AuditLog.Append, ApprovalGrant.Authorize;
  }

  /******* Denial *******/

  /** A denial through the gate is answered with `OperationNotFound` exactly if the gate retains no
      operation, and then changes nothing. */
  lemma DenyFindsRetained<E>(g: GateState, s: Supervisor, a: ApprovalId, sweptAt: nat)
    ensures var turn: Turn<TaskSnapshot, E> := g.Deny(s, a, sweptAt);
            && (turn.result.Err? && turn.result.error.OperationNotFound? <==> a !in g.index)
            && (turn.result.Err? ==> !turn.result.error.AdapterFailed? && turn.gate == g)
            && (a !in g.index ==> turn.supervisor == s)
  {
    hide Supervisor.DenyOperation;
  }

  /** A denial through the gate fails the Task whose operation it retains. */
  lemma DenialFails<E>(y: System, c: GateCommand, t: TaskId)
    requires Safe(y) && c.GateDeny? && c.gate < |y.gates| && RetainedTask(y.gates[c.gate], c.approval) == Some(t)
    ensures var turn: Turn<TaskSnapshot, E> := y.gates[c.gate].Deny(y.supervisor, c.approval, c.sweptAt);
            turn.result.Ok? ==> Is(turn.supervisor, t, Failed)
  {
    hide Supervisor.ExpireApprovals, Supervisor.DenySwept, Steady, IdentitiesSound, Accounted, TasksStay,
         ReleasesNothing;
    var k := y.supervisor.ExpireApprovals(c.sweptAt).0;
    SweepKeepsSteady(y.supervisor, c.sweptAt);
    SubsidingKeepsAgreement(y.supervisor, k, y.gates);
    DenySweptFails(k, c.approval);
    if c.approval in y.gates[c.gate].index && c.approval in k.pending {
      EntryMatches(k, y.gates, c.gate, c.approval);
    }
  }

  lemma DenySweptFails(k: Supervisor, a: ApprovalId)
    ensures k.DenySwept(a).1.Ok? ==> a in k.pending && Is(k.DenySwept(a).0, k.pending[a].task, Failed)
  {
    hide AuditLog.Append, Authority.Remove;
  }

  /******* Expiry *******/

  /** At an expiry read at `sweptAt`, after a wall-time check at `checkedAt`, the Task ends and yet the
      call fails: the sweep closes its pending operation and is refused later on. */
  predicate EndsMidway(s: Supervisor, t: TaskId, checkedAt: nat, sweptAt: nat) {
    && s.WallTimeExceeded(t, checkedAt) == Ok(false)
    && SweepCloses(s, s.authority.ExpiredIds(sweptAt), t) && !TakesAll(s, s.authority.ExpiredIds(sweptAt))
  }

  lemma ExpiryOutcome(s: Supervisor, t: TaskId, now: nat)
    requires Sound(s) && t in s.tasks
    ensures var (n, r) := s.ExpireApprovals(now);
            && (Ended(n, t) <==> Ended(s, t) || SweepCloses(s, s.authority.ExpiredIds(now), t)) && t in n.tasks
            && (r.Ok? <==> TakesAll(s, s.authority.ExpiredIds(now)))
  {
    hide Sound, Supervisor.Sweep, Authority.ExpiredIds, SweepCloses, TakesAll;
    ExpiredArePending(s, now);
    SweepRecords(s, s.authority.ExpiredIds(now), 0, t);
    SweepSucceedsIff(s, s.authority.ExpiredIds(now), 0);
  }

  /******* Transitions *******/

  lemma StartLeaves(s: Supervisor, t: TaskId, now: nat)
    requires s.Start(t, now).1.Ok?
    ensures InProgress(s.Start(t, now).0, t)
  {
    hide AuditLog.Append, Supervisor.TransitionBatch;
  }

  lemma FinishLeaves(s: Supervisor, t: TaskId, next: TaskState, failure: Option<ErrorCode>)
    requires t in s.tasks && s.Transition(t, next, failure).1.Ok?
    ensures Is(s.Transition(t, next, failure).0, t, next)
  {
    hide AuditLog.Append, Supervisor.TransitionBatch, Authority.RemoveAll;
  }

  /** What the adapter answers does not matter to the state. */
  lemma AnswerIsIrrelevant<E>(g: GateState, s: Supervisor, c: GateCommand, works: Result<(), E>)
    requires c.GateRequest?
    ensures var turn := g.Request(s, c.task, c.operation, c.ttl, c.sweptAt, c.now, c.o, c.a, works);
            var plain := g.Request(s, c.task, c.operation, c.ttl, c.sweptAt, c.now, c.o, c.a, ANSWER);
            turn.supervisor == plain.supervisor && turn.gate == plain.gate && turn.executed == plain.executed
  {
    hide Supervisor.RequestOperation;
  }

  lemma ApprovalAnswerIsIrrelevant<E>(g: GateState, s: Supervisor, c: GateCommand, works: Result<(), E>)
    requires c.GateApprove?
    ensures var turn := g.ApproveAndExecute(s, c.approval, c.sweptAt, c.now, c.consumedAt, works);
            var plain := g.ApproveAndExecute(s, c.approval, c.sweptAt, c.now, c.consumedAt, ANSWER);
            turn.supervisor == plain.supervisor && turn.gate == plain.gate && turn.executed == plain.executed
  {
    hide Supervisor.ApproveOperation, Supervisor.AuthorizeOperation;
  }

  /******* Gated runs compose *******/

  lemma {:induction false} GateRunOn(y: System, cs: seq<GateCommand>, n: System, ds: seq<GateCommand>, k: System)
    requires GateRun(y, cs, n) && GateRun(n, ds, k)
    ensures GateRun(y, cs + ds, k)
    decreases cs
  {
    hide GateStep;
    if cs == [] {
      assert cs + ds == ds;
    } else {
      assert (cs + ds)[0] == cs[0] && (cs + ds)[1..] == cs[1..] + ds;
      GateRunOn(GateStep(y, cs[0]), cs[1..], n, ds, k);
    }
  }

  lemma NoRun(y: System)
    ensures GateRun(y, [], y)
  {
  }

  lemma GateRunOne(y: System, c: GateCommand)
    requires Admissible(y, c)
    ensures GateRun(y, [c], GateStep(y, c))
  {
    hide GateStep;
    assert [c][1..] == [];
    assert GateRun(GateStep(y, c), [], GateStep(y, c));
  }

  lemma CancelLeaves(s: Supervisor, t: TaskId)
    requires t in s.tasks && s.Cancel(t).1.Ok?
    ensures Ended(s.Cancel(t).0, t)
  {
    hide AuditLog.Append, Supervisor.TransitionBatch, Authority.RemoveAll;
  }

  /** A known Task is cancelled exactly if it has ended already or the backend takes the batch. */
  lemma {:induction false} CancelAcceptedIff(s: Supervisor, t: TaskId)
    requires t in s.tasks
    ensures s.Cancel(t).1.Ok? <==>
            || s.tasks[t].state.IsTerminal()
            || s.store.Append(t, s.TransitionBatch(t, s.tasks[t].state, Cancelled, None)).1.None?
  {
    hide AuditLog.Append, Supervisor.TransitionBatch, Authority.RemoveAll;
  }
}
