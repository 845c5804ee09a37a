/** What the supervisor calls behind a gate do to approvals, Tasks and release counts. */
module GateCalls {
  import opened Basics
  import opened Lifecycle
  import opened Capability
  import opened Audit
  import opened Approval
  import opened Supervision
  import opened Soundness
  import opened Calls
  import opened Synchrony
  import opened Scopes
  import opened Subsidence

  /** The supervisor's invariant in runs that go through gates: besides soundness and synchrony, no
      grant is outstanding between calls. */
  ghost predicate Steady(s: Supervisor) {
    Sound(s) && Synced(s) && ScopesSound(s) && s.approved == map[]
  }

  /** One operation of `t` was released, by event `e`. */
  ghost predicate ReleasesOne(s: Supervisor, n: Supervisor, t: TaskId, e: TaskEventKind) {
    forall u :: ReleaseLog(n.store.LogOf(u)) == ReleaseLog(s.store.LogOf(u)) + if u == t then [e] else []
  }

  /** One approval was opened for `t`, which was running and had none. */
  ghost predicate OpensOne(s: Supervisor, n: Supervisor, t: TaskId, request: CapabilityRequest, o: OperationId,
                           a: ApprovalId) {
    && t in s.tasks && s.tasks[t].state.Running?
    && n.pending == s.pending[a := PendingOperation(t, o, request)]
    && n.approved == s.approved && {a, o} <= n.used
  }

  /** Approval `a` was granted and its grant spent. */
  ghost predicate SpendsOne(s: Supervisor, n: Supervisor, a: ApprovalId) {
    a in s.pending && n.pending == s.pending - {a} && n.approved == s.approved
  }

  /******* Requests *******/

  lemma NothingSubsides(s: Supervisor, n: Supervisor)
    requires SameButPlan(s, n)
    ensures Subsides(s, n)
  {
  }

  lemma SweptRequestPermits(k: Supervisor, t: TaskId, request: CapabilityRequest, ttl: nat, now: nat, o: OperationId,
                            a: ApprovalId)
    requires k.RequestSwept(t, request, ttl, now, o, a).1 == Ok(OperationPermitted)
    ensures var n := k.RequestSwept(t, request, ttl, now, o, a).0;
            TasksStay(k, n) && ApprovalsShrink(k, n) && ReleasesOne(k, n, t, OperationAllowed)
  {
    hide Supervisor.RequestSwept, AuditLog.Append;
    PermitAppends(k, t, request, ttl, now, o, a);
    PermitCounts(k, t);
  }

  lemma PermitCounts(k: Supervisor, t: TaskId)
    requires k.store.Append(t, [OperationAllowed]).1.None?
    ensures var log := k.store.Append(t, [OperationAllowed]).0;
            forall u :: ReleaseLog(log.LogOf(u)) ==
                        ReleaseLog(k.store.LogOf(u)) + if u == t then [OperationAllowed] else []
  {
    ReleaseLog1(k.store.LogOf(t), OperationAllowed);
  }

  lemma PermitAppends(k: Supervisor, t: TaskId, request: CapabilityRequest, ttl: nat, now: nat, o: OperationId,
                      a: ApprovalId)
    requires k.RequestSwept(t, request, ttl, now, o, a).1 == Ok(OperationPermitted)
    ensures k.store.Append(t, [OperationAllowed]).1.None?
    ensures k.RequestSwept(t, request, ttl, now, o, a).0 == k.(store := k.store.Append(t, [OperationAllowed]).0)
  {
    hide ErrorCount, Evaluate, AuditLog.Append, Supervisor.OpenApproval;
    if t in k.tasks {
      OpenNeverPermits(k, t, request, ttl, now, o, a);
    }
  }

  lemma OpenNeverPermits(s: Supervisor, t: TaskId, request: CapabilityRequest, ttl: nat, now: nat, o: OperationId,
                         a: ApprovalId)
    requires t in s.tasks
    ensures var r := s.OpenApproval(t, request, ttl, now, o, a).1; r.Ok? ==> r.value.NeedsApproval?
  {
    hide Authority.Request, AuditLog.Append, Authority.Remove, Supervisor.Opened, ActionOf;
  }

  lemma SweptRequestOpens(k: Supervisor, t: TaskId, request: CapabilityRequest, ttl: nat, now: nat, o: OperationId,
                          a: ApprovalId)
    requires TasksSound(k) && AuthoritySound(k)
    requires k.RequestSwept(t, request, ttl, now, o, a).1.Ok?
             && k.RequestSwept(t, request, ttl, now, o, a).1.value.NeedsApproval?
    ensures t in k.tasks && k.tasks[t].state.Running?
    ensures k.RequestSwept(t, request, ttl, now, o, a) == k.OpenApproval(t, request, ttl, now, o, a)
    ensures InScope(k, t, request)
  {
    hide ErrorCount, Evaluate, TasksSound, Supervisor.OpenApproval, AuditLog.Append;
  }

  lemma OpeningOpensOne(k: Supervisor, t: TaskId, request: CapabilityRequest, ttl: nat, now: nat, o: OperationId,
                        a: ApprovalId)
    requires IsValidConfig(k.authority.maxPending, k.authority.maxTtl) && t in k.tasks && k.tasks[t].state.Running?
    requires k.OpenApproval(t, request, ttl, now, o, a).1.Ok?
    ensures var n := k.OpenApproval(t, request, ttl, now, o, a).0;
            TasksStay(k, n) && OpensOne(k, n, t, request, o, a) && ReleasesNothing(k, n)
  {
    hide *;
    RequestOpens(k, t, request, ttl, now, o, a);
    OpenedCounts(k, t, o, a);
    OpenedOne(k, t, request, o, a, k.store.Append(t, OpenBatch(a, o)).0,
              k.authority.Insert(a, PendingApproval(t, o, ActionOf(request), now + ttl)));
  }

  lemma OpenedOne(k: Supervisor, t: TaskId, request: CapabilityRequest, o: OperationId, a: ApprovalId, log: AuditLog,
                  authority: Authority)
    requires t in k.tasks && k.tasks[t].state.Running?
    requires forall u :: ReleaseLog(log.LogOf(u)) == ReleaseLog(k.store.LogOf(u))
    ensures var n := k.Opened(t, request, a, o, log, authority);
            TasksStay(k, n) && OpensOne(k, n, t, request, o, a) && ReleasesNothing(k, n)
  {
  }

  lemma OpenedCounts(k: Supervisor, t: TaskId, o: OperationId, a: ApprovalId)
    ensures var log := k.store.Append(t, OpenBatch(a, o)).0;
            forall u :: ReleaseLog(log.LogOf(u)) == ReleaseLog(k.store.LogOf(u))
  {
    ReleaseLogNone(k.store.LogOf(t), OpenBatch(a, o));
  }

  lemma SweptRequestFails(k: Supervisor, t: TaskId, request: CapabilityRequest, ttl: nat, now: nat, o: OperationId,
                          a: ApprovalId)
    requires AuthoritySound(k) && a !in k.pending
    requires var r := k.RequestSwept(t, request, ttl, now, o, a).1; r.Ok? ==> r.value.OperationRefused?
    ensures Subsides(k, k.RequestSwept(t, request, ttl, now, o, a).0)
  {
    hide ErrorCount, Supervisor.OpenApproval, Subsides, Evaluate, AuthoritySound, AuditLog.Append;
    var (n, r) := k.RequestSwept(t, request, ttl, now, o, a);
    if t in k.tasks && k.tasks[t].state.CanTransitionTo(WaitingApproval) && ErrorCount(k.tasks[t].spec) == 0 {
      match Evaluate(k.tasks[t].spec, request)
      case Permit => RefusedSubsides(k, t, OperationAllowed);
      case Refuse(reason) => RefusalSubsides(k, t, reason);
      case ApprovalRequired =>
        OpenNeverPermits(k, t, request, ttl, now, o, a);
        OpenFails(k, t, request, ttl, now, o, a);
    } else {
      NothingSubsides(k, n);
    }
  }

  lemma RefusedSubsides(k: Supervisor, t: TaskId, e: TaskEventKind)
    requires k.store.Append(t, [e]).1.Some?
    ensures Subsides(k, k.(store := k.store.Append(t, [e]).0))
  {
    NothingSubsides(k, k.(store := k.store.Append(t, [e]).0));
  }

  lemma RefusalSubsides(k: Supervisor, t: TaskId, reason: DenialReason)
    ensures Subsides(k, k.(store := k.store.Append(t, [OperationDenied(reason)]).0))
  {
    ReleaseLog1(k.store.LogOf(t), OperationDenied(reason));
  }

  lemma OpenFails(k: Supervisor, t: TaskId, request: CapabilityRequest, ttl: nat, now: nat, o: OperationId,
                  a: ApprovalId)
    requires AuthoritySound(k) && a !in k.pending && t in k.tasks && k.tasks[t].state.Running?
    requires k.OpenApproval(t, request, ttl, now, o, a).1.Err?
    ensures Subsides(k, k.OpenApproval(t, request, ttl, now, o, a).0)
  {
    hide Supervisor.OpenApproval, AuthoritySound;
    RequestRollsBack(k, t, request, ttl, now, o, a);
    NothingSubsides(k, k.OpenApproval(t, request, ttl, now, o, a).0);
  }

  /******* Approvals *******/

  lemma SweptApproveFails(k: Supervisor, a: ApprovalId, now: nat)
    requires AuthoritySound(k) && PendingsSound(k) && k.ApproveSwept(a, now).1.Err?
    ensures Subsides(k, k.ApproveSwept(a, now).0)
  {
    hide Supervisor.ApproveSwept, Authority.Consistent;
    ApproveRollsBack(k, a, now);
    NothingSubsides(k, k.ApproveSwept(a, now).0);
  }

  /** Consuming the grant that `approve_operation` just left fails only because the grant has expired
      meanwhile or the audit batch is refused. */
  lemma ConsumingAfterApproval(k: Supervisor, a: ApprovalId, now: nat, consumedAt: nat)
    requires Sound(k) && ScopesSound(k) && k.ApproveSwept(a, now).1.Ok?
    ensures a in k.pending && a in k.authority.pending
    ensures var n, p := k.ApproveSwept(a, now).0, k.pending[a];
            var (log, refusal) := n.store.Append(p.task, [ApprovalConsumed(a, p.operation)]);
            var spent := n.(approved := n.approved - {p.operation});
            n.AuthorizeOperation(p.task, p.operation, p.request, consumedAt)
            == if consumedAt >= k.authority.pending[a].deadline then (spent, Err(ApprovalFailed(Expired)))
               else (spent.(store := log), if refusal.Some? then Err(EventStore(refusal.value)) else Ok(a))
  {
    hide Supervisor.ApproveSwept;
    ApproveKeepsScope(k, a, now);
    hide TasksSound, AuthoritySound, PendingsSound, ApprovedsSound, LivesSound, WaitersHavePending, ScopesSound,
         ErrorCount, Evaluate, AuditLog.Append, ActionOf;
  }

  lemma ApproveKeepsScope(k: Supervisor, a: ApprovalId, now: nat)
    requires Sound(k) && ScopesSound(k) && k.ApproveSwept(a, now).1.Ok?
    ensures a in k.pending && a in k.authority.pending
    ensures var n, p := k.ApproveSwept(a, now).0, k.pending[a];
            && p.task in n.tasks && n.tasks[p.task].state.Running? && ErrorCount(n.tasks[p.task].spec) == 0
            && Evaluate(n.tasks[p.task].spec, p.request) == ApprovalRequired
            && p.operation in n.approved
            && n.approved[p.operation] ==
               ApprovedOperation(p.task, p.request,
                                 ApprovalGrant(a, p.task, p.operation, ActionOf(p.request),
                                   k.authority.pending[a].deadline))
  {
    hide Supervisor.ApproveSwept, TasksSound, AuthoritySound, ApprovedsSound, LivesSound, WaitersHavePending,
         ErrorCount, Evaluate, AuditLog.Append, ActionOf;
    if a in k.pending {
      assert PendingSound(k, a);
    }
    ApprovePromotes(k, a, now);
    var p := k.pending[a];
    assert InScope(k, p.task, p.request) && SpecKept(k, p.task);
  }

  lemma GrantCounts(k: Supervisor, t: TaskId, o: OperationId, a: ApprovalId)
    ensures var log := k.store.Append(t, GrantBatch(a, o)).0;
            forall u :: ReleaseLog(log.LogOf(u)) == ReleaseLog(k.store.LogOf(u))
  {
    ReleaseLogNone(k.store.LogOf(t), GrantBatch(a, o));
  }

  lemma ConsumeCounts(n: Supervisor, t: TaskId, o: OperationId, a: ApprovalId)
    ensures var (log, refusal) := n.store.Append(t, [ApprovalConsumed(a, o)]);
            forall u :: ReleaseLog(log.LogOf(u)) ==
                        ReleaseLog(n.store.LogOf(u)) + if refusal.None? && u == t then [ApprovalConsumed(a, o)] else []
  {
    ReleaseLog1(n.store.LogOf(t), ApprovalConsumed(a, o));
  }

  /** Granting promotes one pending approval. */
  lemma ApprovePromotesOne(k: Supervisor, a: ApprovalId, now: nat)
    requires PendingsSound(k) && k.ApproveSwept(a, now).1.Ok?
    ensures a in k.pending
    ensures var n := k.ApproveSwept(a, now).0;
            && TasksStay(k, n) && ReleasesNothing(k, n) && n.pending == k.pending - {a}
            && n.approved.Keys == k.approved.Keys + {k.pending[a].operation}
  {
    hide Supervisor.ApproveSwept;
    ApprovePromotes(k, a, now);
    GrantCounts(k, k.pending[a].task, k.pending[a].operation, a);
    hide AuditLog.Append, AuditLog.LogOf, ReleaseLog;
  }

  /** Granting and consuming spends one pending approval and releases at most its operation. */
  lemma ApprovedThenConsumed(k: Supervisor, a: ApprovalId, now: nat, consumedAt: nat)
    requires Sound(k) && ScopesSound(k) && k.approved == map[] && k.ApproveSwept(a, now).1.Ok?
    ensures a in k.pending
    ensures var p := k.pending[a];
            var (f, q) := k.ApproveSwept(a, now).0.AuthorizeOperation(p.task, p.operation, p.request, consumedAt);
            && TasksStay(k, f) && SpendsOne(k, f, a)
            && if q.Ok? then ReleasesOne(k, f, p.task, ApprovalConsumed(a, p.operation)) else ReleasesNothing(k, f)
  {
    hide Supervisor.ApproveSwept, Supervisor.AuthorizeOperation, ScopesSound, AuditLog.Append,
         TasksSound, AuthoritySound, PendingsSound, WaitersHavePending, ApprovedsSound, LivesSound;
    ConsumingAfterApproval(k, a, now, consumedAt);
    ApprovePromotesOne(k, a, now);
    var n, p := k.ApproveSwept(a, now).0, k.pending[a];
    ConsumeCounts(n, p.task, p.operation, a);
    var (f, q) := n.AuthorizeOperation(p.task, p.operation, p.request, consumedAt);
    var (log, refusal) := n.store.Append(p.task, [ApprovalConsumed(a, p.operation)]);
    assert q.Ok? ==> f.store == log && refusal.None?;
    assert q.Err? ==> f.store == n.store || (f.store == log && refusal.Some?);
    forall u
      ensures ReleaseLog(f.store.LogOf(u)) ==
              ReleaseLog(k.store.LogOf(u)) + if q.Ok? && u == p.task then [ApprovalConsumed(a, p.operation)] else []
    {
      assert ReleaseLog(n.store.LogOf(u)) == ReleaseLog(k.store.LogOf(u));
      assert ReleaseLog(log.LogOf(u)) == ReleaseLog(n.store.LogOf(u))
             + if refusal.None? && u == p.task then [ApprovalConsumed(a, p.operation)] else [];
    }
  }

  /******* Steadiness *******/

  lemma StepKeepsSteady(s: Supervisor, c: Command)
    requires Steady(s) && DrawsFresh(s, c) && Orderly(s, c)
    ensures Sound(Step(s, c)) && Synced(Step(s, c)) && ScopesSound(Step(s, c))
  {
    hide Sound, Synced, ScopesSound, Step, DrawsFresh, Orderly;
    StepSynced(s, c);
    StepScopes(s, c);
  }

  lemma SweepKeepsSteady(s: Supervisor, now: nat)
    requires Steady(s)
    ensures Steady(s.ExpireApprovals(now).0) && Subsides(s, s.ExpireApprovals(now).0)
    ensures s.ExpireApprovals(now).0.used == s.used
  {
    hide Sound, Synced, ScopesSound, Supervisor.ExpireApprovals, TasksStay, ReleasesNothing;
    var c := CallExpire(now);
    assert Step(s, c) == s.ExpireApprovals(now).0;
    StepKeepsSteady(s, c);
    StepSubsides(s, c);
    ExpireDrawsNothing(s, now);
  }

  lemma ExpireDrawsNothing(s: Supervisor, now: nat)
    ensures s.ExpireApprovals(now).0.used == s.used
  {
    SweepDrawsNothing(s, s.authority.ExpiredIds(now), 0);
  }
}
