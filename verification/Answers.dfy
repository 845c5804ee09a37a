/** What each call of the supervisor answers and leaves, said of the state before it and of what the
    backend will do: crates/aios-runtime/src/supervisor.rs. */
module Answers {
  import opened Basics
  import opened Lifecycle
  import opened Capability
  import opened Policy
  import opened Audit
  import opened Approval
  import opened Supervision
  import opened Soundness
  import opened SoundSteps
  import opened Calls
  import opened Sweeps
  import opened Scenarios
  import opened Scopes
  import opened GateCalls

  /** One event of `t` is recorded and answered; a backend that refuses it leaves everything else. */
  ghost predicate Noted(k: Supervisor, n: Supervisor, r: Result<OperationAuthorization, SupervisorError>, t: TaskId,
                        e: TaskEventKind, answer: OperationAuthorization) {
    if Willing(k.store, t, 1) then n == k.(store := Logged(k.store, t, [e])) && r == Ok(answer)
    else n == k.(store := Unlogged(k.store)) && r == Err(EventStore(Refusal(k.store)))
  }

  /** Why asking for an approval of Task `t` fails, if it does. */
  ghost function AskingFails(k: Supervisor, t: TaskId, ttl: nat, now: nat): Option<SupervisorError> {
    if HasPending(k, t) then Some(ApprovalFailed(DuplicateOperation))
    else if !(MILLISECOND <= ttl <= k.authority.maxTtl) then Some(ApprovalFailed(ApprovalError.InvalidRequest))
    else if |k.authority.pending| >= k.authority.maxPending then Some(ApprovalFailed(ApprovalError.CapacityExceeded))
    else if now + ttl > MAX_INSTANT then Some(ApprovalFailed(ApprovalError.InvalidRequest))
    else if !Willing(k.store, t, 2) then Some(EventStore(Refusal(k.store)))
    else None
  }

  /** One approval is asked for: its Task waits, supervisor and authority hold it with its deadline, and
      the answer names it; otherwise nothing changes but what the backend was asked. */
  ghost predicate Asked(k: Supervisor, n: Supervisor, r: Result<OperationAuthorization, SupervisorError>, t: TaskId,
                        request: CapabilityRequest, ttl: nat, now: nat, o: OperationId, a: ApprovalId)
  {
    t in k.tasks
    && var failure := AskingFails(k, t, ttl, now);
       if failure.None? then
         && r == Ok(NeedsApproval(ApprovalRequest(a, t, o, NameOf(request), ttl / 1_000_000)))
         && n == k.(store := Logged(k.store, t, [ApprovalRequested(a, o), StateTransitioned(Running, WaitingApproval)]),
                    tasks := k.tasks[t := k.tasks[t].(state := WaitingApproval)],
                    pending := k.pending[a := PendingOperation(t, o, request)],
                    authority := k.authority.(
                      pending := k.authority.pending[a := PendingApproval(t, o, NameOf(request), now + ttl)],
                      index := k.authority.index[(t, o) := a]),
                    used := k.used + {a, o})
       else r == Err(failure.value) && (n == k || n == k.(store := Unlogged(k.store)))
  }

  /******* request_operation *******/

  lemma StatedIsValidAction(request: CapabilityRequest)
    requires WellStated(request)
    ensures IsValidAction(NameOf(request)) && ActionOf(request) == NameOf(request)
  {
    hide IsValidIdentifier, IsValidNetworkHost, Utf8Length;
    match request
    case File(_, Read) => PlainTextIsValid("filesystem.read");
    case File(_, Write) => PlainTextIsValid("filesystem.write");
    case Network(_, _, _) => PlainTextIsValid("network.egress");
    case Tool(_, _) =>
  }

  lemma PlainTextIsValid(action: string)
    requires 0 < |action| <= 64 && forall i :: 0 <= i < |action| ==> 'a' <= action[i] <= 'z' || action[i] == '.'
    ensures IsValidAction(action)
  {
    AsciiLength(action);
  }

  lemma NewKey(k: Supervisor, t: TaskId, o: OperationId)
    requires Sound(k) && o !in k.used
    ensures (t, o) !in k.authority.index
  {
    hide TasksSound, ApprovedsSound, LivesSound, WaitersHavePending, ActionOf;
    forall key | key in k.authority.index ensures key.1 in k.used {
      assert PendingSound(k, k.authority.index[key]);
    }
  }

  lemma PendingOfIff(k: Supervisor, t: TaskId)
    ensures k.PendingOf(t) == {} <==> !HasPending(k, t)
  {
    if HasPending(k, t) {
      var a :| a in k.pending && k.pending[a].task == t;
      assert a in k.PendingOf(t);
    }
  }

  lemma AskingAnswers(k: Supervisor, t: TaskId, request: CapabilityRequest, ttl: nat, now: nat, o: OperationId,
                      a: ApprovalId)
    requires Sound(k) && t in k.tasks && k.tasks[t].state.Running? && WellStated(request)
    requires o !in k.used && a !in k.used
    ensures var (n, r) := k.OpenApproval(t, request, ttl, now, o, a); Asked(k, n, r, t, request, ttl, now, o, a)
  {
    hide TasksSound, PendingsSound, ApprovedsSound, LivesSound, WaitersHavePending, ActionOf, NameOf, WellStated,
         IsValidAction, AuditLog.Append, Logged, Willing, HasPending, Supervisor.PendingOf;
    NewKey(k, t, o);
    PendingOfIff(k, t);
    StatedIsValidAction(request);
    FreshIsAbsent(k, a);
    RequestIsAllOrNothing(k.authority, t, o, ActionOf(request), ttl, now, a);
    RevokeUndoesRequest(k.authority, t, o, ActionOf(request), ttl, now, a);
    AppendTakesIff(k.store, t, [ApprovalRequested(a, o), StateTransitioned(Running, WaitingApproval)]);
  }

  /** `request_operation` once the sweep has succeeded. */
  ghost predicate RequestAnswered(k: Supervisor, n: Supervisor, r: Result<OperationAuthorization, SupervisorError>,
                                  t: TaskId, request: CapabilityRequest, ttl: nat, now: nat, o: OperationId,
                                  a: ApprovalId)
  {
    if t !in k.tasks then n == k && r == Err(TaskNotFound)
    else if !k.tasks[t].state.Running? then
      n == k && r == Err(InvalidStateTransition(k.tasks[t].state, WaitingApproval))
    else if !WellStated(request) then
      Noted(k, n, r, t, OperationDenied(DenialReason.InvalidRequest), OperationRefused(DenialReason.InvalidRequest))
    else if !Admits(k.tasks[t].spec, request) then
      Noted(k, n, r, t, OperationDenied(CapabilityNotGranted), OperationRefused(CapabilityNotGranted))
    else if !NeedsConsent(k.tasks[t].spec, request) then Noted(k, n, r, t, OperationAllowed, OperationPermitted)
    else Asked(k, n, r, t, request, ttl, now, o, a)
  }

  lemma SweptRequestAnswers(k: Supervisor, t: TaskId, request: CapabilityRequest, ttl: nat, now: nat, o: OperationId,
                            a: ApprovalId)
    requires Sound(k) && ScopesSound(k) && o !in k.used && a !in k.used
    ensures var (n, r) := k.RequestSwept(t, request, ttl, now, o, a);
            RequestAnswered(k, n, r, t, request, ttl, now, o, a)
  {
    hide Sound, ErrorCount, Evaluate, InScope, Supervisor.OpenApproval, AuditLog.Append, WellStated, Admits,
         NeedsConsent, Asked, Logged, Willing;
    if t in k.tasks {
      assert SpecKept(k, t);
      if k.tasks[t].state.Running? {
        PolicyFollowsCapabilities(k.tasks[t].spec, request);
        AppendTakesIff(k.store, t, [OperationAllowed]);
        AppendTakesIff(k.store, t, [OperationDenied(DenialReason.InvalidRequest)]);
        AppendTakesIff(k.store, t, [OperationDenied(CapabilityNotGranted)]);
        if WellStated(request) {
          AskingAnswers(k, t, request, ttl, now, o, a);
        }
      }
    }
  }

  lemma SweepKeepsScopes(s: Supervisor, now: nat)
    requires Sound(s) && ScopesSound(s)
    ensures var k := s.ExpireApprovals(now).0; Sound(k) && ScopesSound(k) && k.used == s.used
  {
    hide Sound, ScopesSound, Supervisor.ExpireApprovals;
    assert Step(s, CallExpire(now)) == s.ExpireApprovals(now).0;
    StepScopes(s, CallExpire(now));
    var path := AfterSweep(s, now);
    ExpireDrawsNothing(s, now);
  }

  /** `request_operation`, after a successful sweep, of a running Task: it permits, refuses or asks for
      approval if and only if the Task's own capabilities say so and the backend takes the record, which is
      one event that names the outcome; an approval is asked for within the limits only. A sweep that
      fails is the answer, and leaves what it had done. */
  lemma {:induction false} RequestAnswers(s: Supervisor, t: TaskId, request: CapabilityRequest, ttl: nat, sweptAt: nat,
                                          now: nat, o: OperationId, a: ApprovalId)
    requires Sound(s) && ScopesSound(s) && o !in s.used && a !in s.used
    ensures var (k, swept) := s.ExpireApprovals(sweptAt);
            var (n, r) := s.RequestOperation(t, request, ttl, sweptAt, now, o, a);
            if swept.Err? then n == k && r == Err(swept.error)
            else
              && RequestAnswered(k, n, r, t, request, ttl, now, o, a)
              && (t in k.tasks && k.tasks[t].state.Running? ==>
                    var spec := k.tasks[t].spec;
                    var granted := WellStated(request) && Admits(spec, request);
                    && (r == Ok(OperationPermitted) <==>
                        granted && !NeedsConsent(spec, request) && Willing(k.store, t, 1))
                    && (forall reason :: r == Ok(OperationRefused(reason)) <==>
                          && !granted && Willing(k.store, t, 1)
                          && reason == (if WellStated(request) then CapabilityNotGranted
                                        else DenialReason.InvalidRequest))
                    && (r.Ok? && r.value.NeedsApproval? <==>
                        granted && NeedsConsent(spec, request) && AskingFails(k, t, ttl, now).None?))
  {
    hide Sound, ScopesSound, Supervisor.ExpireApprovals, Supervisor.RequestSwept, WellStated, Admits, NeedsConsent,
         Logged, Willing, AskingFails;
    SweepKeepsScopes(s, sweptAt);
    SweptRequestAnswers(s.ExpireApprovals(sweptAt).0, t, request, ttl, now, o, a);
  }

  /******* authorize_operation *******/

  /** A receipt is issued if and only if the Task runs, the operation is approved for it with exactly that
      request, its deadline has not come and the backend takes one event; it is the receipt of that
      approval. A grant is linear: whenever the Task runs, the operation is no longer approved afterwards,
      whatever the answer; and nothing else changes. */
  lemma {:induction false} AuthorizeAnswers(s: Supervisor, t: TaskId, o: OperationId, request: CapabilityRequest,
                                            now: nat)
    requires Sound(s) && ScopesSound(s)
    ensures var (n, r) := s.AuthorizeOperation(t, o, request, now);
            var runs := t in s.tasks && s.tasks[t].state.Running?;
            var entitled := runs && o in s.approved && s.approved[o].task == t && s.approved[o].request == request
              && now < s.approved[o].grant.deadline;
            && (r.Ok? <==> entitled && Willing(s.store, t, 1))
            && (r.Ok? ==> r.value == s.approved[o].grant.approval)
            && (runs ==> o !in n.approved)
            && (!runs ==> n == s && r == Err(if t in s.tasks then TaskNotRunning else TaskNotFound))
            && (runs && !entitled ==>
                  && n == s.(approved := s.approved - {o})
                  && r == Err(ApprovalFailed(
                                if o !in s.approved then NotFound
                                else if s.approved[o].task != t || s.approved[o].request != request then ScopeMismatch
                                else Expired)))
            && (entitled && Willing(s.store, t, 1) ==>
                  n == s.(approved := s.approved - {o},
                          store := Logged(s.store, t, [ApprovalConsumed(s.approved[o].grant.approval, o)])))
            && (entitled && !Willing(s.store, t, 1) ==>
                  && n == s.(approved := s.approved - {o}, store := Unlogged(s.store))
                  && r == Err(EventStore(Refusal(s.store))))
  {
    hide TasksSound, AuthoritySound, PendingsSound, LivesSound, WaitersHavePending, ErrorCount, Evaluate, ActionOf,
         AuditLog.Append, Logged, Willing, LifeIn;
    if t in s.tasks && o in s.approved {
      assert ApprovedSound(s, o) && SpecKept(s, t) && InScope(s, s.approved[o].task, s.approved[o].request);
      AppendTakesIff(s.store, t, [ApprovalConsumed(s.approved[o].grant.approval, o)]);
    } else if o !in s.approved {
      assert s.approved - {o} == s.approved;
    }
  }

  /******* expire_approvals *******/

  lemma DueIds(s: Authority, now: nat)
    ensures var due := set a | a in s.pending && s.pending[a].deadline <= now;
            |s.ExpiredIds(now)| == |due| && forall a :: a in s.ExpiredIds(now) <==> a in due
  {
    hide Ascending;
    var due := set a | a in s.pending && s.pending[a].deadline <= now;
    var expired := set a | a in s.pending && now >= s.pending[a].deadline;
    assert s.ExpiredIds(now) == Ascending(expired);
    assert expired == due;
  }

  /** A successful `expire_approvals` answers how many approvals were due; each of them is gone and
      recorded, with the failure, in the log of its Task. It fails only by the backend. */
  lemma {:induction false} ExpireAnswers(s: Supervisor, now: nat)
    requires Sound(s)
    ensures var due := set a | a in s.authority.pending && s.authority.pending[a].deadline <= now;
            var (n, r) := s.ExpireApprovals(now);
            && (r.Ok? ==> r.value == |due| && forall a :: a in due ==> ExpiryLogged(s, n, a) && a !in n.pending)
            && (r.Err? ==> r.error.EventStore?)
  {
    hide Sound, Supervisor.Sweep, ExpiryLogged, TakesAll, Authority.ExpiredIds, Stands, Takes;
    var ids := s.authority.ExpiredIds(now);
    DueIds(s.authority, now);
    ExpiredArePending(s, now);
    SweepSucceedsIff(s, ids, 0);
    if s.Sweep(ids, 0).1.Ok? {
      SweepCounts(s, ids, 0);
    } else {
      var path := SweepReaches(s, ids, 0);
    }
  }

  /******* submit *******/

  /** The record of a submission: accepted, or rejected with the number of errors. */
  function Submission(spec: TaskSpec): Log {
    [TaskSubmitted, StateTransitioned(TaskState.Submitted, Validating)]
    + if ErrorCount(spec) == 0 then [StateTransitioned(Validating, Queued)]
      else [ValidationFailed(ErrorCount(spec)), StateTransitioned(Validating, Rejected)]
  }

  /** A submission under a new key is refused at the limit; otherwise the Task is queued if and only if its
      specification is well-formed, rejected otherwise, and the record says so. */
  lemma {:induction false} SubmitAnswers(s: Supervisor, spec: TaskSpec, id: TaskId)
    requires Sound(s) && id !in s.used
    requires forall t :: t in s.tasks ==> s.tasks[t].spec.idempotencyKey != spec.idempotencyKey
    ensures var (n, r) := s.Submit(spec, id);
            if |s.tasks| + |s.recovered| >= s.maxTasks then n == s && r == Err(TaskCapacityExceeded)
            else if !Willing(s.store, id, |Submission(spec)|) then
              n == s.(store := Unlogged(s.store)) && r == Err(EventStore(Refusal(s.store)))
            else
              var state := if WellFormed(spec) then Queued else Rejected;
              && n == s.(store := Logged(s.store, id, Submission(spec)),
                         tasks := s.tasks[id := TaskRecord(spec, state, None)],
                         idempotency := s.idempotency[spec.idempotencyKey := id], used := s.used + {id})
              && r == Ok(if WellFormed(spec) then Accepted(TaskSnapshot(id, Queued))
                         else SubmitRejected(TaskSnapshot(id, Rejected), ErrorCount(spec)))
              && (WellFormed(spec) <==> ErrorCount(spec) == 0)
  {
    hide AuthoritySound, PendingsSound, ApprovedsSound, LivesSound, WaitersHavePending, ErrorCount, WellFormed,
         AuditLog.Append, Logged, Willing;
    ValidationIsExact(spec);
    AppendTakesIff(s.store, id, Submission(spec));
    assert s.SubmissionBatch(spec) == Submission(spec);
  }

  /******* start *******/

  /** `start` succeeds if and only if the Task is queued or waiting and the backend takes the transition;
      it then runs, from now on. */
  lemma {:induction false} StartAnswers(s: Supervisor, t: TaskId, now: nat)
    requires Sound(s)
    ensures var (n, r) := s.Start(t, now);
            var state := s.StateOf(t);
            if state.None? then n == s && r == Err(TaskNotFound)
            else if state.value != Queued && state.value != WaitingApproval then
              n == s && r == Err(InvalidStateTransition(state.value, Running))
            else if !Willing(s.store, t, 1) then
              n == s.(store := Unlogged(s.store)) && r == Err(EventStore(Refusal(s.store)))
            else
              && r == Ok(()) && t in s.tasks
              && n == s.(store := Logged(s.store, t, [StateTransitioned(state.value, Running)]),
                         tasks := s.tasks[t := s.tasks[t].(state := Running, startedAt := Some(now))])
  {
    hide AuthoritySound, PendingsSound, ApprovedsSound, LivesSound, WaitersHavePending, AuditLog.Append, Logged,
         Willing;
    if t in s.tasks {
      AppendTakesIff(s.store, t, [StateTransitioned(s.tasks[t].state, Running)]);
      assert s.TransitionBatch(t, s.tasks[t].state, Running, None) == [StateTransitioned(s.tasks[t].state, Running)];
    } else if t in s.recovered {
      assert RecoveredSound(s, t);
    }
  }

  /******* succeed, fail, cancel *******/

  /** A Task in this state may end in that one. */
  predicate MayEnd(state: TaskState, next: TaskState) {
    match next
    case Succeeded => state == Running
    case Failed => state == Running || state == WaitingApproval
    case Cancelled => state in {TaskState.Submitted, Validating, Queued, Running, WaitingApproval}
    case _ => false
  }

  /** Every approval of `t`, pending or granted, is revoked by one event, and there are no others. */
  ghost predicate RevokesAll(s: Supervisor, t: TaskId, revoked: Log) {
    && (forall i :: 0 <= i < |revoked| ==> revoked[i].ApprovalRevoked?)
    && |revoked| == |s.PendingOf(t)| + |s.ApprovedOf(t)|
    && (forall a :: a in s.pending && s.pending[a].task == t ==> ApprovalRevoked(a, s.pending[a].operation) in revoked)
    && (forall o :: o in s.approved && s.approved[o].task == t ==>
                      ApprovalRevoked(s.approved[o].grant.approval, o) in revoked)
  }

  /** Task `t` ends as `next`: its approvals are revoked, the code of its failure, if any, and the transition
      are recorded, all in one batch, and nothing of it is left in the approval maps. */
  ghost predicate EndsAs(s: Supervisor, n: Supervisor, t: TaskId, next: TaskState, code: Option<ErrorCode>,
                         revoked: Log)
  {
    && t in s.tasks && RevokesAll(s, t, revoked)
    && n.store == Logged(s.store, t, revoked + (if code.Some? then [TaskFailed(code.value)] else [])
                                     + [StateTransitioned(s.tasks[t].state, next)])
    && n.tasks == s.tasks[t := s.tasks[t].(state := next)]
    && n.pending == (map a | a in s.pending && s.pending[a].task != t :: s.pending[a])
    && n.approved == (map o | o in s.approved && s.approved[o].task != t :: s.approved[o])
    && n.authority.pending ==
       (map a | a in s.authority.pending && s.authority.pending[a].task != t :: s.authority.pending[a])
    && n.recovered == s.recovered && n.idempotency == s.idempotency && n.maxTasks == s.maxTasks && n.used == s.used
  }

  /** What ending a Task answers and leaves. */
  ghost predicate EndAnswered(s: Supervisor, n: Supervisor, r: Result<(), SupervisorError>, t: TaskId, next: TaskState,
                              code: Option<ErrorCode>, revoked: Log)
  {
    if s.StateOf(t).None? then n == s && r == Err(TaskNotFound)
    else if !MayEnd(s.StateOf(t).value, next) then
      n == s && r == Err(InvalidStateTransition(s.StateOf(t).value, next))
    else if !Willing(s.store, t, |revoked| + (if code.Some? then 2 else 1)) then
      n == s.(store := Unlogged(s.store)) && r == Err(EventStore(Refusal(s.store)))
    else r == Ok(()) && EndsAs(s, n, t, next, code, revoked)
  }

  lemma PendingRevoked(s: Supervisor, ids: seq<ApprovalId>, a: ApprovalId)
    requires (forall id :: id in ids ==> id in s.pending) && a in ids
    ensures ApprovalRevoked(a, s.pending[a].operation) in s.RevokePending(ids)
  {
    var i :| 0 <= i < |ids| && ids[i] == a;
    assert s.RevokePending(ids)[i] == ApprovalRevoked(a, s.pending[a].operation);
  }

  lemma ApprovedRevoked(s: Supervisor, ids: seq<OperationId>, o: OperationId)
    requires (forall id :: id in ids ==> id in s.approved) && o in ids
    ensures ApprovalRevoked(s.approved[o].grant.approval, o) in s.RevokeApproved(ids)
  {
    var i :| 0 <= i < |ids| && ids[i] == o;
    assert s.RevokeApproved(ids)[i] == ApprovalRevoked(s.approved[o].grant.approval, o);
  }

  lemma RevocationsRevokeAll(s: Supervisor, t: TaskId)
    ensures RevokesAll(s, t, s.Revocations(t))
  {
    hide Ascending, Supervisor.RevokePending, Supervisor.RevokeApproved;
    var ps, os := Ascending(s.PendingOf(t)), Ascending(s.ApprovedOf(t));
    OnlyRevoked(s, ps, os);
    forall a | a in s.PendingOf(t) ensures ApprovalRevoked(a, s.pending[a].operation) in s.RevokePending(ps) {
      PendingRevoked(s, ps, a);
    }
    forall o | o in s.ApprovedOf(t) ensures ApprovalRevoked(s.approved[o].grant.approval, o) in s.RevokeApproved(os) {
      ApprovedRevoked(s, os, o);
    }
  }

  lemma OnlyRevoked(s: Supervisor, ps: seq<ApprovalId>, os: seq<OperationId>)
    requires (forall id :: id in ps ==> id in s.pending) && forall id :: id in os ==> id in s.approved
    ensures var revoked := s.RevokePending(ps) + s.RevokeApproved(os);
            |revoked| == |ps| + |os| && forall i :: 0 <= i < |revoked| ==> revoked[i].ApprovalRevoked?
  {
  }

  lemma PendingTaskOf(s: Supervisor, t: TaskId, a: ApprovalId)
    requires Sound(s) && a in s.authority.pending
    ensures a in s.PendingOf(t) <==> s.authority.pending[a].task == t
  {
    hide TasksSound, ApprovedsSound, LivesSound, WaitersHavePending, ActionOf, Authority.Consistent;
    assert PendingSound(s, a);
  }

  lemma AuthorityForgets(s: Supervisor, t: TaskId)
    requires Sound(s)
    ensures s.authority.RemoveAll(Ascending(s.PendingOf(t))).pending ==
            (map a | a in s.authority.pending && s.authority.pending[a].task != t :: s.authority.pending[a])
  {
    hide Sound, Supervisor.PendingOf, Authority.Consistent, Authority.RemoveAll, Ascending;
    SoundAuthority(s);
    var ids := Ascending(s.PendingOf(t));
    RemoveAllRemoves(s.authority, ids);
    forall a | a in s.authority.pending ensures a in ids <==> s.authority.pending[a].task == t {
      PendingTaskOf(s, t, a);
    }
  }

  lemma ApplyEnds(s: Supervisor, t: TaskId, next: TaskState, code: Option<ErrorCode>)
    requires Sound(s) && t in s.tasks && (next.Succeeded? || next.Failed? || next.Cancelled?)
    ensures var (n, r) := s.ApplyTransition(t, s.tasks[t].state, next, code);
            var revoked := s.Revocations(t);
            if Willing(s.store, t, |revoked| + (if code.Some? then 2 else 1)) then
              r == Ok(()) && EndsAs(s, n, t, next, code, revoked)
            else n == s.(store := Unlogged(s.store)) && r == Err(EventStore(Refusal(s.store)))
  {
    hide Sound, AuditLog.Append, Logged, Willing, Supervisor.Revocations, RevokesAll, Authority.RemoveAll,
         Supervisor.PendingOf, Supervisor.ApprovedOf, Supervisor.TransitionBatch, Supervisor.Invalidate;
    RevocationsRevokeAll(s, t);
    var batch := s.TransitionBatch(t, s.tasks[t].state, next, code);
    EndBatch(s, t, next, code);
    AppendTakesIff(s.store, t, batch);
    Invalidated(s, s.store.Append(t, batch).0, t);
  }

  lemma EndBatch(s: Supervisor, t: TaskId, next: TaskState, code: Option<ErrorCode>)
    requires t in s.tasks && next.IsTerminal()
    ensures var batch := s.TransitionBatch(t, s.tasks[t].state, next, code);
            && batch == s.Revocations(t) + (if code.Some? then [TaskFailed(code.value)] else [])
                        + [StateTransitioned(s.tasks[t].state, next)]
            && |batch| == |s.Revocations(t)| + (if code.Some? then 2 else 1)
  {
    hide Supervisor.Revocations;
    var revoked, failure := s.Revocations(t), if code.Some? then [TaskFailed(code.value)] else [];
    var end := [StateTransitioned(s.tasks[t].state, next)];
    assert s.TransitionBatch(t, s.tasks[t].state, next, code) == revoked + (failure + end);
    assert revoked + (failure + end) == revoked + failure + end;
  }

  lemma Invalidated(s: Supervisor, log: AuditLog, t: TaskId)
    requires Sound(s)
    ensures var n := s.(store := log).Invalidate(t);
            && n == s.(store := log, pending := n.pending, approved := n.approved, authority := n.authority)
            && n.pending == (map a | a in s.pending && s.pending[a].task != t :: s.pending[a])
            && n.approved == (map o | o in s.approved && s.approved[o].task != t :: s.approved[o])
            && n.authority.pending ==
               (map a | a in s.authority.pending && s.authority.pending[a].task != t :: s.authority.pending[a])
  {
    hide Sound, Authority.RemoveAll, Supervisor.PendingOf;
    AuthorityForgets(s, t);
    SamePending(s, log, t);
  }

  lemma SamePending(s: Supervisor, log: AuditLog, t: TaskId)
    ensures s.(store := log).PendingOf(t) == s.PendingOf(t)
  {
  }

  lemma TransitionEnds(s: Supervisor, t: TaskId, next: TaskState, code: Option<ErrorCode>)
    requires Sound(s) && (next.Succeeded? || next.Failed?)
    ensures var (n, r) := s.Transition(t, next, code); EndAnswered(s, n, r, t, next, code, s.Revocations(t))
  {
    hide AuthoritySound, PendingsSound, ApprovedsSound, LivesSound, WaitersHavePending, Supervisor.ApplyTransition,
         EndsAs, Willing, Supervisor.Revocations;
    if t in s.tasks {
      ApplyEnds(s, t, next, code);
    } else if t in s.recovered {
      assert RecoveredSound(s, t);
    }
  }

  /** `succeed`, `fail` and `fail_budget_exceeded` end exactly the Tasks in a state from which that is
      possible, with the code that goes with them; `cancel` ends every Task that has not ended, and answers
      false for one that has. */
  lemma {:induction false} EndAnswers(s: Supervisor, t: TaskId) returns (revoked: Log)
    requires Sound(s)
    ensures var (n, r) := s.Succeed(t); EndAnswered(s, n, r, t, Succeeded, None, revoked)
    ensures var (n, r) := s.Fail(t); EndAnswered(s, n, r, t, Failed, None, revoked)
    ensures var (n, r) := s.FailBudgetExceeded(t);
            EndAnswered(s, n, r, t, Failed, Some(ErrorCode.BudgetExceeded), revoked)
    ensures var (n, r) := s.Cancel(t);
            if s.StateOf(t).Some? && s.StateOf(t).value in {Rejected, Succeeded, Failed, Cancelled} then
              n == s && r == Ok(false)
            else
              && (r.Ok? ==> r == Ok(true))
              && EndAnswered(s, n, if r.Ok? then Ok(()) else Err(r.error), t, Cancelled, None, revoked)
  {
    hide AuthoritySound, PendingsSound, ApprovedsSound, LivesSound, WaitersHavePending, Supervisor.ApplyTransition,
         Supervisor.Transition, EndsAs, Willing, Supervisor.Revocations;
    revoked := s.Revocations(t);
    TransitionEnds(s, t, Succeeded, None);
    TransitionEnds(s, t, Failed, None);
    TransitionEnds(s, t, Failed, Some(ErrorCode.BudgetExceeded));
    if t in s.tasks {
      ApplyEnds(s, t, Cancelled, None);
    } else if t in s.recovered {
      assert RecoveredSound(s, t);
    }
  }

  /******* approve_operation, deny_operation *******/

  /** What approving leaves of a sound swept state: the operation moves, with its request and the deadline
      of its approval, from pending to approved, and its Task runs; otherwise nothing changes but what
      the backend was asked. */
  lemma {:induction false} ApproveAnswers(k: Supervisor, a: ApprovalId, now: nat)
    requires Sound(k)
    ensures var (n, r) := k.ApproveSwept(a, now);
            if a !in k.pending then n == k && r == Err(ApprovalFailed(NotFound))
            else
              var p := k.pending[a];
              && p.task in k.tasks && a in k.authority.pending
              && var deadline := k.authority.pending[a].deadline;
                 if !k.tasks[p.task].state.WaitingApproval? then n == k && r.Err? && r.error.InvalidStateTransition?
                 else if now >= deadline then n == k && r == Err(ApprovalFailed(Expired))
                 else if !Willing(k.store, p.task, 2) then
                   n == k.(store := Unlogged(k.store)) && r == Err(EventStore(Refusal(k.store)))
                 else
                   && r == Ok(TaskSnapshot(p.task, Running))
                   && n == k.(store := Logged(k.store, p.task, [ApprovalGranted(a, p.operation),
                                                                StateTransitioned(WaitingApproval, Running)]),
                              tasks := k.tasks[p.task := k.tasks[p.task].(state := Running)],
                              pending := k.pending - {a},
                              approved := k.approved[p.operation := ApprovedOperation(
                                p.task, p.request,
                                ApprovalGrant(a, p.task, p.operation, k.authority.pending[a].action, deadline))],
                              authority := k.authority.(
                                pending := k.authority.pending - {a},
                                index := k.authority.index - {(p.task, p.operation)}))
  {
    hide TasksSound, ApprovedsSound, LivesSound, WaitersHavePending, ActionOf, AuditLog.Append, Logged, Willing,
         Authority.Consistent, Authority.Restore;
    if a in k.pending {
      assert PendingSound(k, a);
      var p := k.pending[a];
      RestoreUndoesApprove(k.authority, a, now);
      AppendTakesIff(k.store, p.task, [ApprovalGranted(a, p.operation), StateTransitioned(WaitingApproval, Running)]);
    }
  }

  /** What denying leaves of a sound swept state: the operation is no longer pending and its Task has
      failed, by a record of the denial; otherwise nothing changes but what the backend was asked. */
  lemma {:induction false} DenyAnswers(k: Supervisor, a: ApprovalId)
    requires Sound(k)
    ensures var (n, r) := k.DenySwept(a);
            if a !in k.pending then n == k && r == Err(ApprovalFailed(NotFound))
            else
              var p := k.pending[a];
              && p.task in k.tasks
              && if !Willing(k.store, p.task, 2) then
                   n == k.(store := Unlogged(k.store)) && r == Err(EventStore(Refusal(k.store)))
                 else
                   && r == Ok(TaskSnapshot(p.task, Failed))
                   && n == k.(store := Logged(k.store, p.task, [ApprovalDenied(a, p.operation),
                                                                StateTransitioned(k.tasks[p.task].state, Failed)]),
                              tasks := k.tasks[p.task := k.tasks[p.task].(state := Failed)],
                              pending := k.pending - {a},
                              authority := k.authority.(
                                pending := k.authority.pending - {a},
                                index := k.authority.index - {(p.task, p.operation)}))
  {
    hide TasksSound, ApprovedsSound, LivesSound, WaitersHavePending, ActionOf, AuditLog.Append, Logged, Willing;
    if a in k.pending {
      assert PendingSound(k, a);
      var p := k.pending[a];
      AppendTakesIff(k.store, p.task,
                     [ApprovalDenied(a, p.operation), StateTransitioned(k.tasks[p.task].state, Failed)]);
    }
  }
}
