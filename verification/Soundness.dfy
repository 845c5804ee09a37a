/** The invariant that every call keeps in every run, and what a single accepted change of one Task
    does to each part of it. */
module Soundness {
  import opened Basics
  import opened Lifecycle
  import opened Capability
  import opened Audit
  import opened Approval
  import opened Supervision

  predicate Active(state: TaskState) { state.Running? || state.WaitingApproval? }

  /******* Tasks and their logs *******/

  ghost predicate TaskSound(s: Supervisor, t: TaskId)
    requires t in s.tasks
  {
    var r := s.tasks[t];
    && t in s.used && t !in s.recovered
    && t in s.store.logs && LastState(s.store.logs[t]) == Some(r.state)
    && !r.state.Submitted? && !r.state.Validating?
    && (Active(r.state) ==> r.startedAt.Some?)
    && (r.state.Queued? ==> r.startedAt.None?)
    && r.spec.idempotencyKey in s.idempotency && s.idempotency[r.spec.idempotencyKey] == t
  }

  ghost predicate RecoveredSound(s: Supervisor, t: TaskId)
    requires t in s.recovered
  {
    s.recovered[t].IsTerminal() && t in s.used && t in s.store.logs
  }

  ghost predicate TasksSound(s: Supervisor) {
    && (forall t :: t in s.tasks ==> TaskSound(s, t))
    && (forall t :: t in s.recovered ==> RecoveredSound(s, t))
    && (forall k :: k in s.idempotency ==>
                      s.idempotency[k] in s.tasks && s.tasks[s.idempotency[k]].spec.idempotencyKey == k)
    && (forall t :: t in s.store.logs ==> t in s.used)
  }

  /******* Pending approvals *******/

  ghost predicate PendingSound(s: Supervisor, a: ApprovalId)
    requires a in s.pending
  {
    var p := s.pending[a];
    && p.task in s.tasks && Active(s.tasks[p.task].state)
    && a in s.used && p.operation in s.used && p.operation !in s.approved
    && a in s.authority.pending
    && s.authority.pending[a] == PendingApproval(p.task, p.operation, ActionOf(p.request),
       s.authority.pending[a].deadline)
  }

  ghost predicate AuthoritySound(s: Supervisor) {
    s.authority.Consistent() && s.authority.pending.Keys == s.pending.Keys
  }

  ghost predicate PendingsSound(s: Supervisor) {
    && (forall a :: a in s.pending ==> PendingSound(s, a))
    && (forall a, b :: a in s.pending && b in s.pending && a != b ==>
                         s.pending[a].task != s.pending[b].task && s.pending[a].operation != s.pending[b].operation)
  }

  ghost predicate HasPending(s: Supervisor, t: TaskId) { exists a :: a in s.pending && s.pending[a].task == t }

  ghost predicate WaitersHavePending(s: Supervisor) {
    forall t :: t in s.tasks && s.tasks[t].state.WaitingApproval? ==> HasPending(s, t)
  }

  /******* Approved operations *******/

  ghost predicate ApprovedSound(s: Supervisor, o: OperationId)
    requires o in s.approved
  {
    var e := s.approved[o];
    && e.task in s.tasks && (Active(s.tasks[e.task].state) || s.tasks[e.task].state.IsTerminal())
    && o in s.used && e.grant.approval in s.used
    && e.grant == ApprovalGrant(e.grant.approval, e.task, o, ActionOf(e.request), e.grant.deadline)
    && e.task in s.store.logs && LifeIn(s.store.logs[e.task], e.grant.approval) == Granted(o)
  }

  ghost predicate ApprovedsSound(s: Supervisor) {
    forall o :: o in s.approved ==> ApprovedSound(s, o)
  }

  /******* Stored specifications and requests *******/

  predicate InScope(s: Supervisor, t: TaskId, request: CapabilityRequest) {
    t in s.tasks && Evaluate(s.tasks[t].spec, request) == ApprovalRequired
  }

  predicate SpecKept(s: Supervisor, t: TaskId)
    requires t in s.tasks
  {
    s.tasks[t].state.Rejected? || ErrorCount(s.tasks[t].spec) == 0
  }

  ghost predicate ScopesSound(s: Supervisor) {
    && (forall t :: t in s.tasks ==> SpecKept(s, t))
    && (forall a :: a in s.pending ==> InScope(s, s.pending[a].task, s.pending[a].request))
    && (forall o :: o in s.approved ==> InScope(s, s.approved[o].task, s.approved[o].request))
  }

  /******* Approval life cycles *******/

  predicate PendsFor(s: Supervisor, a: ApprovalId, t: TaskId) { a in s.pending && s.pending[a].task == t }

  ghost predicate LifeSound(s: Supervisor, t: TaskId, a: ApprovalId) {
    t in s.store.logs ==>
      var l := LifeIn(s.store.logs[t], a);
      && l != Misused
      && (l != Absent ==> a in s.used)
      && (t in s.tasks ==> (l.Requested? <==> PendsFor(s, a, t)))
      && (t in s.tasks && l.Requested? ==> s.pending[a].operation == l.operation)
  }

  /** No approval identifier occurs in the logs of two Tasks. */
  ghost predicate OneHome(s: Supervisor) {
    forall t, u, a ::
      t in s.store.logs && u in s.store.logs && t != u && LifeIn(s.store.logs[t], a) != Absent ==>
        LifeIn(s.store.logs[u], a) == Absent
  }

  ghost predicate LivesSound(s: Supervisor) {
    (forall t, a :: LifeSound(s, t, a)) && OneHome(s)
  }

  /** The invariant of all runs. */
  ghost predicate Sound(s: Supervisor) {
    && TasksSound(s)
    && AuthoritySound(s)
    && PendingsSound(s)
    && WaitersHavePending(s)
    && ApprovedsSound(s)
    && LivesSound(s)
  }

  lemma EmptyIsSound(maxTasks: nat, capacity: nat, plan: seq<Option<EventStoreError>>)
    ensures Sound(Empty(maxTasks, capacity, plan))
  {
  }

  /** Nothing in the invariant depends on what the backend will do next. */
  lemma PlanIsIrrelevant(s: Supervisor, n: Supervisor, log: AuditLog)
    requires Sound(s) && log.logs == s.store.logs && n == s.(store := log)
    ensures Sound(n)
  {
    PlanTasks(s, n);
    PlanPendings(s, n);
    PlanWaiters(s, n);
    PlanApproveds(s, n);
    PlanLives(s, n);
  }

  ghost predicate SameButPlan(s: Supervisor, n: Supervisor) {
    n.store.logs == s.store.logs && n == s.(store := n.store)
  }

  lemma PlanTasks(s: Supervisor, n: Supervisor)
    requires TasksSound(s) && SameButPlan(s, n)
    ensures TasksSound(n)
  {
    forall t | t in n.tasks ensures TaskSound(n, t) {
      assert TaskSound(s, t);
    }
    forall t | t in n.recovered ensures RecoveredSound(n, t) {
      assert RecoveredSound(s, t);
    }
  }

  lemma PlanPendings(s: Supervisor, n: Supervisor)
    requires PendingsSound(s) && SameButPlan(s, n)
    ensures PendingsSound(n)
  {
    forall a | a in n.pending ensures PendingSound(n, a) {
      assert PendingSound(s, a);
    }
  }

  lemma PlanWaiters(s: Supervisor, n: Supervisor)
    requires WaitersHavePending(s) && SameButPlan(s, n)
    ensures WaitersHavePending(n)
  {
    forall t | t in n.tasks && n.tasks[t].state.WaitingApproval? ensures HasPending(n, t) {
      assert HasPending(s, t);
      var a :| a in s.pending && s.pending[a].task == t;
      assert a in n.pending && n.pending[a].task == t;
    }
  }

  lemma PlanApproveds(s: Supervisor, n: Supervisor)
    requires ApprovedsSound(s) && SameButPlan(s, n)
    ensures ApprovedsSound(n)
  {
    forall o | o in n.approved ensures ApprovedSound(n, o) {
      assert ApprovedSound(s, o);
    }
  }

  lemma PlanLives(s: Supervisor, n: Supervisor)
    requires LivesSound(s) && SameButPlan(s, n)
    ensures LivesSound(n)
  {
    forall t, a ensures LifeSound(n, t, a) {
      assert LifeSound(s, t, a);
    }
  }

  /******* One Task advances *******/

  /** `n` is `s` after Task `t` got record `r` and `batch` was added to its log; nothing is said of
      the approval maps. */
  ghost predicate Advanced(s: Supervisor, n: Supervisor, t: TaskId, r: TaskRecord, batch: Log) {
    && t in s.tasks && t in s.store.logs && r.spec == s.tasks[t].spec
    && n.tasks == s.tasks[t := r]
    && n.store.logs == s.store.logs[t := s.store.logs[t] + batch]
    && n.recovered == s.recovered && n.idempotency == s.idempotency && s.used <= n.used
  }

  lemma AdvanceTasks(s: Supervisor, n: Supervisor, t: TaskId, r: TaskRecord, batch: Log)
    requires TasksSound(s) && Advanced(s, n, t, r, batch)
    requires LastState(s.store.logs[t] + batch) == Some(r.state)
    requires !r.state.Submitted? && !r.state.Validating? && !r.state.Rejected? && !r.state.Queued?
    requires Active(r.state) ==> r.startedAt.Some?
    ensures TasksSound(n)
  {
    forall u | u in n.tasks ensures TaskSound(n, u) {
      assert TaskSound(s, u);
      if u == t {
        assert n.tasks[u] == r;
      }
    }
    forall u | u in n.recovered ensures RecoveredSound(n, u) {
      assert RecoveredSound(s, u);
    }
    forall k | k in n.idempotency
      ensures n.idempotency[k] in n.tasks && n.tasks[n.idempotency[k]].spec.idempotencyKey == k {
      assert s.idempotency[k] in s.tasks && s.tasks[s.idempotency[k]].spec.idempotencyKey == k;
    }
  }

  /** Every request kept or moved within the approval maps is one that was checked before. */
  lemma AdvanceScopes(s: Supervisor, n: Supervisor, t: TaskId, r: TaskRecord, batch: Log)
    requires ScopesSound(s) && Advanced(s, n, t, r, batch)
    requires r.state.Rejected? ==> s.tasks[t].state.Rejected?
    requires s.tasks[t].state.Rejected? ==> r.state.Rejected?
    requires forall a :: a in n.pending ==>
                           (a in s.pending && n.pending[a] == s.pending[a])
                             || InScope(s, n.pending[a].task, n.pending[a].request)
    requires forall o :: o in n.approved ==>
                           (o in s.approved && n.approved[o] == s.approved[o])
                             || InScope(s, n.approved[o].task, n.approved[o].request)
    ensures ScopesSound(n)
  {
    forall u | u in n.tasks ensures SpecKept(n, u) {
      assert SpecKept(s, u);
    }
    forall a | a in n.pending ensures InScope(n, n.pending[a].task, n.pending[a].request) {
      assert InScope(s, n.pending[a].task, n.pending[a].request);
    }
    forall o | o in n.approved ensures InScope(n, n.approved[o].task, n.approved[o].request) {
      assert InScope(s, n.approved[o].task, n.approved[o].request);
    }
  }

  /** Entries of other Tasks stay sound; the caller accounts for those of `t`. */
  lemma AdvanceApproveds(s: Supervisor, n: Supervisor, t: TaskId, r: TaskRecord, batch: Log)
    requires ApprovedsSound(s) && Advanced(s, n, t, r, batch)
    requires Active(r.state) || r.state.IsTerminal()
    requires forall o :: o in n.approved && o in s.approved ==> n.approved[o] == s.approved[o]
    requires forall o :: o in n.approved && n.approved[o].task != t ==> o in s.approved
    requires forall o :: o in n.approved && n.approved[o].task == t && o in s.approved ==>
                           LifeIn(n.store.logs[t], n.approved[o].grant.approval) == Granted(o)
    requires forall o :: o in n.approved && o !in s.approved ==> ApprovedSound(n, o)
    ensures ApprovedsSound(n)
  {
    forall o | o in n.approved ensures ApprovedSound(n, o) {
      if o in s.approved {
        assert ApprovedSound(s, o);
      }
    }
  }

  lemma AdvanceLives(s: Supervisor, n: Supervisor, t: TaskId, r: TaskRecord, batch: Log)
    requires LivesSound(s) && Advanced(s, n, t, r, batch)
    requires forall a :: LifeSound(n, t, a)
    requires forall a, u :: u != t ==> (PendsFor(n, a, u) <==> PendsFor(s, a, u))
    requires forall a :: a in n.pending && a in s.pending ==> n.pending[a] == s.pending[a]
    requires forall a :: LifeIn(s.store.logs[t] + batch, a) != Absent ==>
                           LifeIn(s.store.logs[t], a) != Absent || a !in s.used
    ensures LivesSound(n)
  {
    forall u, a ensures LifeSound(n, u, a) {
      assert LifeSound(s, u, a);
      assert u != t ==> (PendsFor(n, a, u) <==> PendsFor(s, a, u));
    }
    forall u, v, a | u in n.store.logs && v in n.store.logs && u != v && LifeIn(n.store.logs[u], a) != Absent
      ensures LifeIn(n.store.logs[v], a) == Absent
    {
      assert LifeSound(s, u, a) && LifeSound(s, v, a);
    }
  }
}
