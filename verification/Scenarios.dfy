/** What single calls do in states where nothing stands in their way. Runs that exhibit a behaviour are
    put together from these. */
module Scenarios {
  import opened Basics
  import opened Lifecycle
  import opened Capability
  import opened Audit
  import opened Approval
  import opened Supervision
  import opened Calls

  /******* A specification under which every call of its tool needs approval *******/

  const CALL: CapabilityRequest := CapabilityRequest.Tool("t", "a")

  function SpecOf(key: string): TaskSpec {
    TaskSpec(key, "g", CapabilitySet([], NetworkPolicy.Deny, ["t"]), Budget(1, 1, 1), ["a"])
  }

  lemma SpecIsValid(key: string)
    requires IsValidIdentifier(key, MAX_IDEMPOTENCY_KEY_BYTES)
    ensures ErrorCount(SpecOf(key)) == 0
    ensures Evaluate(SpecOf(key), CALL) == ApprovalRequired
    ensures IsValidAction(ActionOf(CALL))
  {
    hide IsValidIdentifier;
    OneLetter("t");
    OneLetter("a");
    assert ItemErrors(["t"], IdentifierErrors, {}) == 0 && ItemErrors(["a"], IdentifierErrors, {}) == 0;
    assert "g"[0] == 'g' && IsValidGoal("g");
  }

  lemma {:induction false} AsciiLength(s: string)
    requires forall i :: 0 <= i < |s| ==> s[i] as int < 0x80
    ensures Utf8Length(s) == |s|
  {
    if s != "" {
      AsciiLength(s[1..]);
    }
  }

  lemma OneLetter(x: string)
    requires |x| == 1 && 'a' <= x[0] <= 'z'
    ensures IsValidIdentifier(x, MAX_IDENTIFIER_BYTES) && IsValidAction(x)
  {
    AsciiLength(x);
  }

  /******* Calls *******/

  const SUBMISSION: Log :=
    [TaskSubmitted, StateTransitioned(TaskState.Submitted, Validating), StateTransitioned(Validating, Queued)]

  lemma SubmitStep(s: Supervisor, spec: TaskSpec, t: TaskId)
    requires ErrorCount(spec) == 0 && spec.idempotencyKey !in s.idempotency
    requires |s.tasks| + |s.recovered| < s.maxTasks && Willing(s.store, t, 3)
    ensures Step(s, CallSubmit(spec, t)) ==
            s.(store := Logged(s.store, t, SUBMISSION), tasks := s.tasks[t := TaskRecord(spec, Queued, None)],
               idempotency := s.idempotency[spec.idempotencyKey := t], used := s.used + {t})
  {
    hide ErrorCount, AuditLog.Append, Logged;
    AppendTakesIff(s.store, t, SUBMISSION);
  }

  lemma StartStep(s: Supervisor, t: TaskId, now: nat)
    requires t in s.tasks && (s.tasks[t].state.Queued? || s.tasks[t].state.WaitingApproval?) && Willing(s.store, t, 1)
    ensures Step(s, CallStart(t, now)) ==
            s.(store := Logged(s.store, t, [StateTransitioned(s.tasks[t].state, Running)]),
               tasks := s.tasks[t := s.tasks[t].(state := Running, startedAt := Some(now))])
  {
    hide AuditLog.Append, Logged;
    var batch := [StateTransitioned(s.tasks[t].state, Running)];
    assert s.TransitionBatch(t, s.tasks[t].state, Running, None) == batch;
    AppendTakesIff(s.store, t, batch);
  }

  /** A request that the authority has room for. */
  predicate Openable(s: Supervisor, t: TaskId, request: CapabilityRequest, ttl: nat, now: nat, o: OperationId) {
    && t in s.tasks && s.tasks[t].state.Running?
    && ErrorCount(s.tasks[t].spec) == 0 && Evaluate(s.tasks[t].spec, request) == ApprovalRequired
    && s.PendingOf(t) == {} && IsValidAction(ActionOf(request)) && MILLISECOND <= ttl <= s.authority.maxTtl
    && (t, o) !in s.authority.index && |s.authority.pending| < s.authority.maxPending
    && now + ttl <= MAX_INSTANT && IsValidConfig(s.authority.maxPending, s.authority.maxTtl)
  }

  lemma OpenStep(s: Supervisor, t: TaskId, request: CapabilityRequest, ttl: nat, now: nat, o: OperationId,
                 a: ApprovalId)
    requires Openable(s, t, request, ttl, now, o) && Willing(s.store, t, 2)
    ensures s.OpenApproval(t, request, ttl, now, o, a).1.Ok?
    ensures s.OpenApproval(t, request, ttl, now, o, a).0 ==
            s.Opened(t, request, a, o, Logged(s.store, t, OpenBatch(a, o)),
                     s.authority.Insert(a, PendingApproval(t, o, ActionOf(request), now + ttl)))
  {
    hide ErrorCount, Evaluate, AuditLog.Append, Logged, IsValidAction, ActionOf, Authority.Insert, Authority.Request;
    AppendTakesIff(s.store, t, OpenBatch(a, o));
    RequestIsAllOrNothing(s.authority, t, o, ActionOf(request), ttl, now, a);
  }

  lemma RequestStep(s: Supervisor, t: TaskId, request: CapabilityRequest, ttl: nat, now: nat, o: OperationId,
                    a: ApprovalId)
    requires Openable(s, t, request, ttl, now, o) && Willing(s.store, t, 2) && s.authority.ExpiredIds(now) == []
    ensures s.RequestOperation(t, request, ttl, now, now, o, a) == s.OpenApproval(t, request, ttl, now, o, a)
    ensures Step(s, CallRequest(t, request, ttl, now, now, o, a)) ==
            s.Opened(t, request, a, o, Logged(s.store, t, OpenBatch(a, o)),
                     s.authority.Insert(a, PendingApproval(t, o, ActionOf(request), now + ttl)))
  {
    hide ErrorCount, Evaluate, Logged, IsValidAction, ActionOf, Authority.Insert, Supervisor.OpenApproval,
         Supervisor.Opened,
         Authority.ExpiredIds;
    OpenStep(s, t, request, ttl, now, o, a);
  }

  lemma CloseStep(s: Supervisor, a: ApprovalId, e: TaskEventKind, f: TaskEventKind)
    requires a in s.pending && Willing(s.store, s.pending[a].task, 2)
    ensures s.store.Append(s.pending[a].task, [e, f]) == (Logged(s.store, s.pending[a].task, [e, f]), None)
  {
    AppendTakesIff(s.store, s.pending[a].task, [e, f]);
  }

  lemma DenyStep(s: Supervisor, a: ApprovalId, now: nat)
    requires a in s.pending && a in s.authority.pending && s.authority.ExpiredIds(now) == []
    requires s.pending[a].task in s.tasks && s.tasks[s.pending[a].task].state.CanTransitionTo(Failed)
    requires Willing(s.store, s.pending[a].task, 2)
    ensures var p := s.pending[a];
            Step(s, CallDeny(a, now)) ==
            s.CloseFailed(a, Logged(s.store, p.task, [ApprovalDenied(a, p.operation),
                                                      StateTransitioned(s.tasks[p.task].state, Failed)]))
  {
    hide AuditLog.Append, Logged, Supervisor.CloseFailed, Authority.ExpiredIds;
    var p := s.pending[a];
    CloseStep(s, a, ApprovalDenied(a, p.operation), StateTransitioned(s.tasks[p.task].state, Failed));
  }

  lemma ExpireStep(s: Supervisor, a: ApprovalId)
    requires a in s.pending && s.pending[a].task in s.tasks
    requires s.tasks[s.pending[a].task].state.CanTransitionTo(Failed) && Willing(s.store, s.pending[a].task, 2)
    ensures var p := s.pending[a];
            s.ExpireOne(a) ==
            (s.CloseFailed(a, Logged(s.store, p.task, [TaskEventKind.ApprovalExpired(a, p.operation),
                                                       StateTransitioned(s.tasks[p.task].state, Failed)])), None)
  {
    hide AuditLog.Append, Logged, Supervisor.CloseFailed;
    var p := s.pending[a];
    CloseStep(s, a, TaskEventKind.ApprovalExpired(a, p.operation), StateTransitioned(s.tasks[p.task].state, Failed));
  }

  lemma ExpireOnlyStep(s: Supervisor, a: ApprovalId, now: nat)
    requires s.authority.ExpiredIds(now) == [a] && s.ExpireOne(a).1.None?
    ensures Step(s, CallExpire(now)) == s.ExpireOne(a).0
  {
    hide Supervisor.ExpireOne, Authority.ExpiredIds;
    assert [a][1..] == [];
    var n := s.ExpireOne(a).0;
    assert s.Sweep([a], 0).0 == n.Sweep([], if a in s.pending then 1 else 0).0;
  }

  lemma ApproveStep(s: Supervisor, a: ApprovalId, now: nat)
    requires a in s.pending && s.authority.ExpiredIds(now) == [] && s.authority.Approve(a, now).1.Ok?
    requires s.pending[a].task in s.tasks && s.tasks[s.pending[a].task].state.WaitingApproval?
    requires Willing(s.store, s.pending[a].task, 2)
    ensures var p, g := s.pending[a], s.authority.Approve(a, now);
            Step(s, CallApprove(a, now, now)) ==
            s.Promoted(a, g.1.value, Logged(s.store, p.task, GrantBatch(a, p.operation)), g.0)
  {
    hide AuditLog.Append, Logged, Supervisor.Promoted, Authority.ExpiredIds, Authority.Approve;
    var p := s.pending[a];
    AppendTakesIff(s.store, p.task, GrantBatch(a, p.operation));
  }

  /******* A new Task that asks for approval *******/

  /** Nothing stands in the way of submitting and starting `t` and requesting the tool call for it. */
  ghost predicate Roomy(s: Supervisor, key: string, t: TaskId, o: OperationId, now: nat) {
    && IsValidIdentifier(key, MAX_IDEMPOTENCY_KEY_BYTES) && key !in s.idempotency
    && |s.tasks| + |s.recovered| < s.maxTasks && s.store.LogOf(t) == [] && s.store.capacity >= 8
    && (forall j :: 0 <= j < |s.store.plan| && j < 3 ==> s.store.plan[j].None?)
    && (forall b :: b in s.pending ==> s.pending[b].task != t)
    && IsValidConfig(s.authority.maxPending, s.authority.maxTtl) && MILLISECOND <= s.authority.maxTtl
    && (t, o) !in s.authority.index && |s.authority.pending| < s.authority.maxPending
    && s.authority.ExpiredIds(now) == [] && now + MILLISECOND <= MAX_INSTANT
  }

  function AfterSubmit(s: Supervisor, key: string, t: TaskId): Supervisor {
    s.(store := Logged(s.store, t, SUBMISSION), tasks := s.tasks[t := TaskRecord(SpecOf(key), Queued, None)],
       idempotency := s.idempotency[key := t], used := s.used + {t})
  }

  function AfterStart(s: Supervisor, key: string, t: TaskId, now: nat): Supervisor {
    var n := AfterSubmit(s, key, t);
    n.(store := Logged(n.store, t, [StateTransitioned(Queued, Running)]),
       tasks := n.tasks[t := TaskRecord(SpecOf(key), Running, Some(now))])
  }

  function Waiting(s: Supervisor, key: string, t: TaskId, o: OperationId, a: ApprovalId, now: nat): Supervisor {
    var n := AfterStart(s, key, t, now);
    n.Opened(t, CALL, a, o, Logged(n.store, t, OpenBatch(a, o)),
             n.authority.Insert(a, PendingApproval(t, o, "a", now + MILLISECOND)))
  }

  lemma Submits(s: Supervisor, key: string, t: TaskId, o: OperationId, now: nat)
    requires Roomy(s, key, t, o, now)
    ensures Step(s, CallSubmit(SpecOf(key), t)) == AfterSubmit(s, key, t)
  {
    hide IsValidIdentifier, ErrorCount, Step, Logged, Authority.ExpiredIds;
    SpecIsValid(key);
    SubmitStep(s, SpecOf(key), t);
  }

  lemma Starts(s: Supervisor, key: string, t: TaskId, o: OperationId, now: nat)
    requires Roomy(s, key, t, o, now)
    ensures Step(AfterSubmit(s, key, t), CallStart(t, now)) == AfterStart(s, key, t, now)
  {
    hide IsValidIdentifier, Step, Authority.ExpiredIds;
    StartStep(AfterSubmit(s, key, t), t, now);
  }

  lemma StartedIsOpenable(s: Supervisor, key: string, t: TaskId, o: OperationId, now: nat)
    requires Roomy(s, key, t, o, now)
    ensures var n := AfterStart(s, key, t, now);
            && Openable(n, t, CALL, MILLISECOND, now, o) && Willing(n.store, t, 2) && n.authority.ExpiredIds(now) == []
            && IsValidConfig(n.authority.maxPending, n.authority.maxTtl) && t in n.tasks
  {
    hide IsValidIdentifier, ErrorCount, Evaluate, IsValidAction, ActionOf, Authority.ExpiredIds;
    SpecIsValid(key);
    assert AfterStart(s, key, t, now).PendingOf(t) == {};
  }

  lemma Asks(s: Supervisor, key: string, t: TaskId, o: OperationId, a: ApprovalId, now: nat)
    requires Roomy(s, key, t, o, now)
    ensures var (n, r) := AfterStart(s, key, t, now).RequestOperation(t, CALL, MILLISECOND, now, now, o, a);
            && n == Waiting(s, key, t, o, a, now)
            && r.Ok? && r.value.NeedsApproval? && r.value.approval.operation == o && r.value.approval.approval == a
  {
    hide *;
    StartedIsOpenable(s, key, t, o, now);
    var n := AfterStart(s, key, t, now);
    RequestStep(n, t, CALL, MILLISECOND, now, o, a);
    OpenStep(n, t, CALL, MILLISECOND, now, o, a);
    OpenAnswers(n, t, CALL, MILLISECOND, now, o, a);
    WaitingIsOpened(s, key, t, o, a, now);
  }

  lemma WaitingIsOpened(s: Supervisor, key: string, t: TaskId, o: OperationId, a: ApprovalId, now: nat)
    ensures t in AfterStart(s, key, t, now).tasks
    ensures var n := AfterStart(s, key, t, now);
            Waiting(s, key, t, o, a, now) ==
            n.Opened(t, CALL, a, o, Logged(n.store, t, OpenBatch(a, o)),
                     n.authority.Insert(a, PendingApproval(t, o, ActionOf(CALL), now + MILLISECOND)))
  {
  }

  /** The state in which the new Task waits. */
  lemma WaitingState(s: Supervisor, key: string, t: TaskId, o: OperationId, a: ApprovalId, now: nat)
    requires Roomy(s, key, t, o, now)
    ensures var w := Waiting(s, key, t, o, a, now);
            && w.pending == s.pending[a := PendingOperation(t, o, CALL)] && w.approved == s.approved
            && w.authority == s.authority.Insert(a, PendingApproval(t, o, "a", now + MILLISECOND))
            && w.tasks == s.tasks[t := TaskRecord(SpecOf(key), WaitingApproval, Some(now))]
            && w.idempotency == s.idempotency[key := t] && w.used == s.used + {t, a, o}
            && w.recovered == s.recovered && w.maxTasks == s.maxTasks
            && w.store.LogOf(t) == SUBMISSION + [StateTransitioned(Queued, Running)] + OpenBatch(a, o)
            && (forall u :: u != t ==> w.store.LogOf(u) == s.store.LogOf(u))
            && w.store.capacity == s.store.capacity && w.store.plan
               == s.store.plan[if |s.store.plan| < 3 then |s.store.plan| else 3..]
  {
    hide IsValidIdentifier, Authority.Insert, Authority.ExpiredIds;
  }

  /** Submitting, starting and requesting, as one run. */
  function OpeningOf(key: string, t: TaskId, o: OperationId, a: ApprovalId, now: nat): seq<Command> {
    [CallSubmit(SpecOf(key), t), CallStart(t, now), CallRequest(t, CALL, MILLISECOND, now, now, o, a)]
  }

  lemma OpeningRuns(s: Supervisor, key: string, t: TaskId, o: OperationId, a: ApprovalId, now: nat)
    requires Roomy(s, key, t, o, now) && t !in s.used && o !in s.used && a !in s.used && t != o && t != a && o != a
    ensures Drawn(s, OpeningOf(key, t, o, a, now))
    ensures Run(s, OpeningOf(key, t, o, a, now)) == Waiting(s, key, t, o, a, now)
  {
    hide Roomy, Logged, Waiting, Supervisor.RequestOperation, Supervisor.Start, Supervisor.Submit;
    Submits(s, key, t, o, now);
    Starts(s, key, t, o, now);
    Asks(s, key, t, o, a, now);
    var cs, s1, s2 := OpeningOf(key, t, o, a, now), AfterSubmit(s, key, t), AfterStart(s, key, t, now);
    var s3 := Waiting(s, key, t, o, a, now);
    assert Step(s2, cs[2]) == s3;
    assert Run(s3, []) == s3 && Drawn(s3, []);
    assert Run(s2, cs[2..]) == s3 && Drawn(s2, cs[2..]) by { assert cs[2..][1..] == []; }
    assert Run(s1, cs[1..]) == s3 && Drawn(s1, cs[1..]) by { assert cs[1..][1..] == cs[2..]; }
  }

  /******* Deadlines *******/

  lemma AscendingOne(x: nat)
    ensures Ascending({x}) == [x]
  {
    var xs := Ascending({x});
    assert |xs| == 1 && xs[0] in xs;
  }

  /** An authority with one pending request, before and after its deadline. */
  lemma OneExpired(au: Authority, a: ApprovalId, p: PendingApproval, now: nat)
    requires au.pending == map[a := p]
    ensures au.ExpiredIds(now) == if now >= p.deadline then [a] else []
  {
    AscendingOne(a);
    assert (set b | b in au.pending && now >= au.pending[b].deadline) == if now >= p.deadline then {a} else {};
  }

  lemma AscendingTwo(x: nat, y: nat)
    requires x < y
    ensures Ascending({x, y}) == [x, y]
  {
    var xs := Ascending({x, y});
    assert |xs| == |{x, y}| == 2;
    assert xs[0] in xs && xs[1] in xs;
  }

  lemma TwoExpired(au: Authority, a: ApprovalId, p: PendingApproval, b: ApprovalId, q: PendingApproval, now: nat)
    requires au.pending == map[a := p, b := q] && a < b && p.deadline <= now && q.deadline <= now
    ensures au.ExpiredIds(now) == [a, b]
  {
    AscendingTwo(a, b);
    var ids := set c | c in au.pending && now >= au.pending[c].deadline;
    assert ids == {a, b};
    assert au.ExpiredIds(now) == Ascending(ids);
  }
}
