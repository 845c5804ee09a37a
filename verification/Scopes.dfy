/** Stored specifications stay valid and every retained request stays one that needs approval, so the
    supervisor's "stored task specifications must remain valid" expectations never fire. */
module Scopes {
  import opened Basics
  import opened Capability
  import opened Audit
  import opened Approval
  import opened Supervision
  import opened Soundness
  import opened Moves
  import opened Calls
  import opened Replaying
  import opened Runs

  lemma AdvancingMoveScopes(s: Supervisor, m: Move, n: Supervisor)
    requires TasksSound(s) && ScopesSound(s) && Does(s, m, n) && Advances(m)
    ensures ScopesSound(n)
  {
    MoveAdvances(s, m, n);
    hide InScope, SpecKept, Batch, TasksSound;
    AdvanceScopes(s, n, m.task, RecordAfter(s, m), Batch(s, m));
  }

  lemma EnrollOutcome(s: Supervisor, m: Move, n: Supervisor)
    requires Does(s, m, n) && m.Enroll?
    ensures n.pending == s.pending && n.approved == s.approved && m.task in n.tasks && SpecKept(n, m.task)
    ensures m.task !in s.used && n.tasks == s.tasks[m.task := n.tasks[m.task]]
  {
    hide Batch, ErrorCount;
  }

  lemma EnrollScopes(s: Supervisor, m: Move, n: Supervisor)
    requires TasksSound(s) && ScopesSound(s) && Does(s, m, n) && m.Enroll?
    ensures ScopesSound(n)
  {
    hide Does, TasksSound, Evaluate, ErrorCount;
    EnrollOutcome(s, m, n);
    NewTaskIsUnknown(s, m.task);
    forall t | t in n.tasks ensures SpecKept(n, t) {
      if t != m.task {
        assert SpecKept(s, t);
      }
    }
    forall a | a in n.pending ensures InScope(n, n.pending[a].task, n.pending[a].request) {
      assert InScope(s, s.pending[a].task, s.pending[a].request);
    }
    forall o | o in n.approved ensures InScope(n, n.approved[o].task, n.approved[o].request) {
      assert InScope(s, s.approved[o].task, s.approved[o].request);
    }
  }

  lemma QuietMoveScopes(s: Supervisor, m: Move, n: Supervisor)
    requires ScopesSound(s) && Does(s, m, n) && (m.Idle? || m.Forget?)
    ensures ScopesSound(n)
  {
    hide ErrorCount, Evaluate;
    forall t | t in n.tasks ensures SpecKept(n, t) {
      assert SpecKept(s, t);
    }
    forall a | a in n.pending ensures InScope(n, n.pending[a].task, n.pending[a].request) {
      assert InScope(s, s.pending[a].task, s.pending[a].request);
    }
    forall o | o in n.approved ensures InScope(n, n.approved[o].task, n.approved[o].request) {
      assert InScope(s, s.approved[o].task, s.approved[o].request);
    }
  }

  lemma {:induction false} ChainScopes(s: Supervisor, path: Path, n: Supervisor)
    requires Sound(s) && ScopesSound(s) && Reaches(s, path, n)
    ensures ScopesSound(n)
    decreases path
  {
    hide Does, ScopesSound, TasksSound, AuthoritySound, PendingsSound, ApprovedsSound, LivesSound, WaitersHavePending;
    if path != [] {
      var m, k := path[0].move, path[0].to;
      MoveSound(s, m, k);
      if Advances(m) {
        AdvancingMoveScopes(s, m, k);
      } else if m.Enroll? {
        EnrollScopes(s, m, k);
      } else {
        QuietMoveScopes(s, m, k);
      }
      ChainScopes(k, path[1..], n);
    }
  }

  lemma StepScopes(s: Supervisor, c: Command)
    requires Sound(s) && ScopesSound(s) && DrawsFresh(s, c)
    ensures ScopesSound(Step(s, c))
  {
    hide Does, Sound, ScopesSound, Step, DrawsFresh;
    var path := StepReaches(s, c);
    ChainScopes(s, path, Step(s, c));
  }

  lemma {:induction false} RunScopes(s: Supervisor, cs: seq<Command>)
    requires Sound(s) && ScopesSound(s) && Drawn(s, cs)
    ensures ScopesSound(Run(s, cs))
    decreases cs
  {
    hide Sound, ScopesSound, Step, DrawsFresh;
    if cs != [] {
      StepScopes(s, cs[0]);
      StepSound(s, cs[0]);
      RunScopes(Step(s, cs[0]), cs[1..]);
    }
  }

  lemma RequestNeverPanics(s: Supervisor, t: TaskId, request: CapabilityRequest, ttl: nat, now: nat, o: OperationId,
                           a: ApprovalId)
    requires ScopesSound(s)
    ensures s.RequestSwept(t, request, ttl, now, o, a).1 != Err(Panicked)
  {
    hide ErrorCount, Evaluate, InScope, Supervisor.OpenApproval, AuditLog.Append;
    if t in s.tasks {
      assert SpecKept(s, t);
      OpenNeverPanics(s, t, request, ttl, now, o, a);
    }
  }

  lemma OpenNeverPanics(s: Supervisor, t: TaskId, request: CapabilityRequest, ttl: nat, now: nat, o: OperationId,
                        a: ApprovalId)
    requires t in s.tasks
    ensures s.OpenApproval(t, request, ttl, now, o, a).1 != Err(Panicked)
  {
    hide Authority.Request, AuditLog.Append, Authority.Remove, Supervisor.Opened, ActionOf;
  }

  lemma AuthorizeNeverPanics(s: Supervisor, t: TaskId, o: OperationId, request: CapabilityRequest, now: nat)
    requires ScopesSound(s)
    ensures s.AuthorizeOperation(t, o, request, now).1 != Err(Panicked)
  {
    hide ErrorCount, Evaluate, InScope;
    if t in s.tasks {
      assert SpecKept(s, t);
    }
  }

  lemma SweptRequestNeverPanics(s: Supervisor, t: TaskId, request: CapabilityRequest, ttl: nat, sweptAt: nat, now: nat,
                                o: OperationId, a: ApprovalId)
    requires Sound(s) && ScopesSound(s)
    ensures s.RequestOperation(t, request, ttl, sweptAt, now, o, a).1 != Err(Panicked)
  {
    hide Does, Sound, ScopesSound, Supervisor.RequestSwept;
    var swept := s.ExpireApprovals(sweptAt).0;
    var path := SweepReaches(s, s.authority.ExpiredIds(sweptAt), 0);
    ChainScopes(s, path, swept);
    RequestNeverPanics(swept, t, request, ttl, now, o, a);
  }

  /** After any run no call trips over a stored specification that is no longer valid. */
  lemma {:induction false} StoredSpecsStayValid(maxTasks: nat, capacity: nat, plan: seq<Option<EventStoreError>>,
                                                cs: seq<Command>)
    requires Drawn(Empty(maxTasks, capacity, plan), cs)
    ensures var n := Run(Empty(maxTasks, capacity, plan), cs);
            && (forall t, request, ttl, sweptAt, now, o, a ::
                  n.RequestOperation(t, request, ttl, sweptAt, now, o, a).1 != Err(Panicked))
            && (forall t, o, request, now :: n.AuthorizeOperation(t, o, request, now).1 != Err(Panicked))
  {
    var s := Empty(maxTasks, capacity, plan);
    EmptyIsSound(maxTasks, capacity, plan);
    assert ScopesSound(s);
    hide Sound, ScopesSound, Empty, Step, DrawsFresh, Supervisor.RequestOperation, Supervisor.AuthorizeOperation;
    RunSound(s, cs);
    RunScopes(s, cs);
    var n := Run(s, cs);
    forall t, request, ttl, sweptAt, now, o, a
      ensures n.RequestOperation(t, request, ttl, sweptAt, now, o, a).1 != Err(Panicked)
    {
      SweptRequestNeverPanics(n, t, request, ttl, sweptAt, now, o, a);
    }
    forall t, o, request, now ensures n.AuthorizeOperation(t, o, request, now).1 != Err(Panicked) {
      AuthorizeNeverPanics(n, t, o, request, now);
    }
  }
}
