/** What each call of a gate answers and leaves, said of the state before it, of the backend and of the
    adapter: crates/aios-runtime/src/execution.rs. Approvals and denials are in `Decisions`. */
module GateAnswers {
  import opened Basics
  import opened Lifecycle
  import opened Capability
  import opened Policy
  import opened Audit
  import opened Approval
  import opened Supervision
  import opened Soundness
  import opened Sweeps
  import opened Answers
  import opened Gate
  import opened GateSafety
  import opened GateObject
  import opened AgentCalls

  /** What the gate answers for an adapter that answered `works`. */
  function Outcome<T, E>(works: Result<(), E>, done: T): Result<T, ExecutionError<E>> {
    match works
    case Ok(_) => Ok(done)
    case Err(failure) => Err(AdapterFailed(failure))
  }

  /** Whatever the adapter would answer: if the operation is handed to it, its error is the answer, and
      success otherwise; if it is not, the answer is the same for every adapter. What the call leaves is
      the same in any case. */
  lemma {:induction false} RequestReportsAdapter<E>(
    g: GateState, s: Supervisor, t: TaskId, operation: Operation, ttl: nat, sweptAt: nat, now: nat, o: OperationId,
    a: ApprovalId, works: Result<(), E>, other: Result<(), E>)
    ensures var turn := g.Request(s, t, operation, ttl, sweptAt, now, o, a, works);
            var twin := g.Request(s, t, operation, ttl, sweptAt, now, o, a, other);
            && turn.executed == twin.executed && turn.supervisor == twin.supervisor && turn.gate == twin.gate
            && (turn.executed.Some? ==> turn.executed.value == Execution(t, operation) && turn.gate == g)
            && (turn.executed.Some? ==> turn.result == Outcome(works, Executed))
            && (twin.executed.Some? ==> twin.result == Outcome(other, Executed))
            && (turn.executed.None? ==> turn.result == twin.result && turn.result != Ok(Executed))
            && (turn.executed.None? && turn.result.Err? ==> turn.result.error.SupervisorFailed?)
  {
    hide Supervisor.RequestOperation;
  }

  /** The same for an approval: what is executed is the operation that was retained under it. */
  lemma {:induction false} ApprovalReportsAdapter<E>(g: GateState, s: Supervisor, a: ApprovalId, sweptAt: nat, now: nat,
                                                     consumedAt: nat, works: Result<(), E>, other: Result<(), E>)
    ensures var turn := g.ApproveAndExecute(s, a, sweptAt, now, consumedAt, works);
            var twin := g.ApproveAndExecute(s, a, sweptAt, now, consumedAt, other);
            && turn.executed == twin.executed && turn.supervisor == twin.supervisor && turn.gate == twin.gate
            && (turn.executed.Some? ==> turn.executed == RetainedFor(g, a))
            && (turn.executed.Some? && works.Err? ==> turn.result == Err(AdapterFailed(works.error)))
            && (turn.executed.Some? && works.Ok? ==> turn.result.Ok?)
            && (turn.executed.None? ==> turn.result == twin.result && turn.result.Err?)
            && (turn.executed.None? ==> !turn.result.error.AdapterFailed?)
  {
    hide Supervisor.ApproveOperation, Supervisor.AuthorizeOperation;
  }

  /** The gate retains `operation` of `t` under approval `a`, besides what it retained before. */
  ghost predicate Retains(g: GateState, h: GateState, t: TaskId, operation: Operation, o: OperationId, a: ApprovalId) {
    h.pending == g.pending[o := PendingExecution(t, a, operation)] && h.index == g.index[a := o]
  }

  /** `request` for a running Task, once the sweep has left `k`: the operation is handed to the adapter if
      and only if the Task's capabilities cover it without approval and the backend takes the record; it
      is retained if and only if they want approval and one can be asked for; it is denied, with the
      reason, if they do not cover it. */
  ghost predicate RequestTurned<E>(k: Supervisor, g: GateState, t: TaskId, operation: Operation, ttl: nat, now: nat,
                                   o: OperationId, a: ApprovalId, works: Result<(), E>, turn: Turn<ExecutionOutcome, E>)
    requires t in k.tasks
  {
    var spec, request := k.tasks[t].spec, operation.request;
    var granted := WellStated(request) && Admits(spec, request);
    var asks := granted && NeedsConsent(spec, request) && AskingFails(k, t, ttl, now).None?;
    && (turn.executed.Some? <==> granted && !NeedsConsent(spec, request) && Willing(k.store, t, 1))
    && (turn.executed.Some? ==> turn.executed.value == Execution(t, operation))
    && (turn.executed.Some? ==> turn.result == Outcome(works, Executed))
    && (forall reason :: turn.result == Ok(ExecutionDenied(reason)) <==>
          && !granted && Willing(k.store, t, 1)
          && reason == (if WellStated(request) then CapabilityNotGranted else DenialReason.InvalidRequest))
    && (turn.result.Ok? && turn.result.value.AwaitsApproval? <==> asks)
    && (asks ==>
          && turn.result == Ok(AwaitsApproval(ApprovalRequest(a, t, o, NameOf(request), ttl / 1_000_000)))
          && Retains(g, turn.gate, t, operation, o, a))
    && (!asks ==> turn.gate == g)
  }

  lemma {:induction false} RequestTurns<E>(g: GateState, s: Supervisor, t: TaskId, operation: Operation, ttl: nat,
                                           sweptAt: nat, now: nat, o: OperationId, a: ApprovalId, works: Result<(), E>)
    requires Sound(s) && ScopesSound(s) && o !in s.used && a !in s.used
    ensures var (k, swept) := s.ExpireApprovals(sweptAt);
            var turn := g.Request(s, t, operation, ttl, sweptAt, now, o, a, works);
            if swept.Ok? && t in k.tasks && k.tasks[t].state.Running? then
              RequestTurned(k, g, t, operation, ttl, now, o, a, works, turn)
            else
              turn.gate == g && turn.executed.None? && turn.result.Err? && turn.result.error.SupervisorFailed?
  {
    hide Sound, ScopesSound, Supervisor.ExpireApprovals, Supervisor.RequestOperation, WellStated, Admits, NeedsConsent,
         NameOf, Logged, Willing, AskingFails;
    RequestAnswers(s, t, operation.request, ttl, sweptAt, now, o, a);
    var (n, r) := s.RequestOperation(t, operation.request, ttl, sweptAt, now, o, a);
    var turn := g.Request(s, t, operation, ttl, sweptAt, now, o, a, works);
    var (k, swept) := s.ExpireApprovals(sweptAt);
    assert swept.Err? || !(t in k.tasks && k.tasks[t].state.Running?) ==> r.Err?;
    assert r.Err? ==> turn.gate == g && turn.executed.None? && turn.result == Err(SupervisorFailed(r.error));
  }

  /** Executing, denying and asking for approval are what the specification says of the request. */
  ghost predicate Justified(spec: TaskSpec, request: CapabilityRequest, executed: bool,
                            outcome: Result<ExecutionOutcome, ExecutionError<AdapterFailure>>)
  {
    var granted := WellStated(request) && Admits(spec, request);
    && (executed ==> granted && !NeedsConsent(spec, request))
    && (outcome.Ok? && outcome.value.AwaitsApproval? ==> granted && NeedsConsent(spec, request))
    && (outcome.Ok? && outcome.value.ExecutionDenied? ==>
          && !granted
          && outcome.value.reason ==
             (if WellStated(request) then CapabilityNotGranted else DenialReason.InvalidRequest))
  }

  lemma RequestJustified(g: GateState, s: Supervisor, t: TaskId, operation: Operation, ttl: nat, sweptAt: nat, now: nat,
                         o: OperationId, a: ApprovalId, works: Result<(), AdapterFailure>)
    requires Sound(s) && ScopesSound(s) && o !in s.used && a !in s.used && t in s.tasks
    ensures var turn := g.Request(s, t, operation, ttl, sweptAt, now, o, a, works);
            Justified(s.tasks[t].spec, operation.request, turn.executed.Some?, turn.result)
  {
    hide Sound, ScopesSound, Supervisor.ExpireApprovals, GateState.Request, WellStated, Admits, NeedsConsent, NameOf,
         Willing, AskingFails, Retains;
    RequestTurns(g, s, t, operation, ttl, sweptAt, now, o, a, works);
    ExpireKeepsStart(s, sweptAt, t);
  }

  /** A successful gate cancellation answers whether the Task was still open; it has then ended and the gate
      retains exactly the operations of other Tasks. A failing one leaves the gate as it was. */
  lemma {:induction false} CancelTurns<E>(g: GateState, s: Supervisor, t: TaskId)
    requires Sound(s)
    ensures var turn: Turn<bool, E> := g.Cancel(s, t);
            var state := s.StateOf(t);
            && turn.executed.None?
            && (turn.result.Ok? ==>
                  && state.Some? && turn.result.value == (state.value !in {Rejected, Succeeded, Failed, Cancelled})
                  && turn.supervisor.StateOf(t) == Some(if turn.result.value then Cancelled else state.value)
                  && turn.gate.pending == map o | o in g.pending && g.pending[o].task != t :: g.pending[o])
            && (turn.result.Err? ==> turn.gate == g && turn.result.error.SupervisorFailed?)
  {
    hide Sound, Supervisor.Cancel, Willing, Logged, RevokesAll;
    var revoked := EndAnswers(s, t);
    hide EndsAs;
    CancelledState(s, t, revoked);
    var (n, r) := s.Cancel(t);
    var turn: Turn<bool, E> := g.Cancel(s, t);
    assert turn.supervisor == n && (r.Ok? ==> turn.result.value == r.value);
  }

  lemma CancelledState(s: Supervisor, t: TaskId, revoked: Log)
    ensures forall n :: EndsAs(s, n, t, Cancelled, None, revoked) ==> n.StateOf(t) == Some(Cancelled)
  {
    hide RevokesAll, Logged;
  }

  /** A successful gate expiry answers how many approvals were due, and the gate retains exactly the
      operations of Tasks that have not ended. A failing one leaves the gate as it was. */
  lemma {:induction false} ExpireTurns<E>(g: GateState, s: Supervisor, now: nat)
    requires Sound(s)
    ensures var turn: Turn<nat, E> := g.Expire(s, now);
            var n := turn.supervisor;
            && turn.executed.None? && n == s.ExpireApprovals(now).0
            && (turn.result.Ok? ==>
                  && turn.result.value == |set a | a in s.authority.pending && s.authority.pending[a].deadline <= now|
                  && forall o :: o in turn.gate.pending <==>
                                 && o in g.pending
                                 && var state := n.StateOf(g.pending[o].task);
                                    state.None? || state.value !in {Rejected, Succeeded, Failed, Cancelled})
            && (forall o :: o in turn.gate.pending ==> o in g.pending && turn.gate.pending[o] == g.pending[o])
            && (turn.result.Err? ==> turn.gate == g && turn.result.error.SupervisorFailed?)
  {
    hide Sound, Supervisor.ExpireApprovals, ExpiryLogged;
    ExpireAnswers(s, now);
  }
}
