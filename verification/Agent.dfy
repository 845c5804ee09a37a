/** The Agent runtime: crates/aios-agent/src/lib.rs. The clock, drawn identifiers, the model's
    decisions, the catalogs and the adapters' answers are arbitrary. Every call is shown to be a gated
    run, so `GateSafety` covers it. */
module Agent {
  import opened Basics
  import opened Lifecycle
  import opened Capability
  import opened Audit
  import opened Approval
  import opened Supervision
  import opened SupervisorObject
  import opened Gate
  import opened GateObject
  import opened Soundness
  import opened Runs
  import opened Sweeps
  import opened Subsidence
  import opened GateSafety
  import opened AgentCalls
  import opened Decisions
  import opened GateAnswers

  const MAX_MODEL_STEPS: nat := 64
  const MAX_APPROVAL_TTL: nat := 15 * 60 * SECOND

  datatype PendingAdapter = ToolAdapter | NetworkAdapter

  datatype PendingDecision = PendingDecision(approval: ApprovalId, adapter: PendingAdapter)

  datatype ActiveSession = ActiveSession(task: TaskId, nextStep: nat, pending: Option<PendingDecision>)

  datatype ModelDecision =
    | Finish(output: string)
    | CallTool(route: string, arguments: seq<string>)
    | TcpExchange(host: string, port: nat, bytes: seq<nat>)

  datatype AgentRunOutcome =
    | Completed(output: string)
    | WaitsForApproval(approval: ApprovalRequest)
    | DeniedByPolicy(reason: DenialReason)

  datatype AgentError =
    | AgentConfigInvalid
    | AgentCapacityExceeded
    | InvalidState
    | InvalidDecision
    | StepLimitExceeded
    | ModelFailed
    | ToolFailed
    | NetworkFailed
    | AgentBudgetExceeded
    | AgentSupervisorFailed(error: SupervisorError)

  type Outcome = Result<AgentRunOutcome, AgentError>

  /** The step numbers 1 to n. */
  function Steps(n: nat): seq<nat> { seq(n, i => i + 1) }

  /** The same sessions, none with fewer steps, and possibly a new one. */
  ghost predicate Grows(before: seq<seq<nat>>, after: seq<seq<nat>>) {
    |before| <= |after| <= |before| + 1 && forall k :: 0 <= k < |before| ==> before[k] <= after[k]
  }

  lemma GrowsNot(history: seq<seq<nat>>)
    ensures Grows(history, history)
  {
  }

  lemma NextStep(n: nat)
    ensures Steps(n) + [n + 1] == Steps(n + 1)
  {
  }

  function AdapterError(adapter: PendingAdapter): AgentError {
    if adapter.ToolAdapter? then ToolFailed else NetworkFailed
  }

  /** The place of an adapter's gate in the system. */
  function GateIndex(adapter: PendingAdapter): nat { if adapter.ToolAdapter? then 0 else 1 }

  /** The call reports this error, or that the supervisor refused to fail the Task. */
  predicate Reported(r: Outcome, error: AgentError) {
    r == Err(error) || Refused(r)
  }

  /** What becomes of an operation handed to a gate: driving goes on exactly if the adapter did it; an
      adapter that failed or reached its limit ends the session with the error that goes with it; if no
      adapter was called the operation was denied, waits for approval or met a supervisor error. */
  predicate Performed(error: AgentError, answer: Option<Result<(), AdapterFailure>>, r: Option<Outcome>) {
    match answer
    case Some(Ok(_)) => r.None?
    case Some(Err(LimitReached)) => r.Some? && Reported(r.value, AgentBudgetExceeded)
    case Some(Err(OperationFailed)) => r.Some? && Reported(r.value, error)
    case None =>
      r.Some? && if r.value.Ok? then !r.value.value.Completed? else r.value.error.AgentSupervisorFailed?
  }

  /** What the outcome of a gate request leads to. */
  predicate Reacted(error: AgentError, outcome: Result<ExecutionOutcome, ExecutionError<AdapterFailure>>,
                    r: Option<Outcome>)
  {
    match outcome
    case Ok(Executed) => r.None?
    case Ok(ExecutionDenied(reason)) => r.Some? && (r.value == Ok(DeniedByPolicy(reason)) || Refused(r.value))
    case Ok(AwaitsApproval(approval)) => r == Some(Ok(WaitsForApproval(approval)))
    case Err(SupervisorFailed(failure)) => r == Some(Err(AgentSupervisorFailed(failure)))
    case Err(AdapterFailed(LimitReached)) => r.Some? && Reported(r.value, AgentBudgetExceeded)
    case Err(_) => r.Some? && Reported(r.value, error)
  }

  predicate Refused(r: Outcome) { r.Err? && r.error.AgentSupervisorFailed? }

  lemma ReactionPerforms(error: AgentError, answer: Option<Result<(), AdapterFailure>>,
                         outcome: Result<ExecutionOutcome, ExecutionError<AdapterFailure>>, r: Option<Outcome>)
    requires Reacted(error, outcome, r)
    requires if answer.Some? then outcome == GateAnswers.Outcome(answer.value, Executed)
             else outcome != Ok(Executed) && (outcome.Err? ==> outcome.error.SupervisorFailed?)
    ensures Performed(error, answer, r)
  {
  }

  lemma StillBegan(s: Supervisor, n: Supervisor, t: TaskId)
    requires KeepsStart(s, n, t) && Began(s, t)
    ensures Began(n, t)
  {
  }

  /** One consultation of the model: the instants at which the wall time was checked before and after it, and
      the decision, if there was one. */
  datatype Consultation = Consultation(checkedAt: nat, decision: Option<ModelDecision>, recheckedAt: nat)

  /** What was made of a decision: whether the catalog prepared an operation for it, and what the adapter
      answered if it was handed one. */
  datatype Deed = Deed(prepared: bool, answer: Option<Result<(), AdapterFailure>>)

  datatype Round = Round(consultation: Consultation, deed: Deed)

  /** The model was asked within the wall time and the steps, and decided within the wall time. */
  predicate Decided(c: Consultation, end: nat, stepsLeft: bool) {
    c.checkedAt < end && stepsLeft && c.decision.Some? && c.recheckedAt < end
  }

  /** Otherwise the call ends with the first thing that was amiss. */
  predicate Undecided(c: Consultation, end: nat, stepsLeft: bool, r: Outcome) {
    if end <= c.checkedAt then Reported(r, AgentBudgetExceeded)
    else if !stepsLeft then Reported(r, StepLimitExceeded)
    else if c.decision.None? then Reported(r, ModelFailed)
    else end <= c.recheckedAt && Reported(r, AgentBudgetExceeded)
  }

  /** What a decision leads to. */
  predicate Followed(decision: ModelDecision, networkEnabled: bool, deed: Deed, r: Option<Outcome>) {
    match decision
    case Finish(output) => r.Some? && (r.value == Ok(Completed(output)) || Refused(r.value))
    case CallTool(_, _) =>
      if deed.prepared then Performed(ToolFailed, deed.answer, r) else r.Some? && Reported(r.value, InvalidDecision)
    case TcpExchange(_, _, _) =>
      if networkEnabled && deed.prepared then Performed(NetworkFailed, deed.answer, r)
      else r.Some? && Reported(r.value, InvalidDecision)
  }

  /** A round went on if `r` is none, and ended the call with `r` otherwise. */
  predicate Turned(round: Round, end: nat, stepsLeft: bool, networkEnabled: bool, r: Option<Outcome>) {
    if Decided(round.consultation, end, stepsLeft) then
      Followed(round.consultation.decision.value, networkEnabled, round.deed, r)
    else r.Some? && Undecided(round.consultation, end, stepsLeft, r.value)
  }

  /** The rounds of a call that began with step `first`: all but the last went on, the last ended it. */
  ghost predicate Told(rounds: seq<Round>, end: nat, first: nat, maxSteps: nat, networkEnabled: bool, r: Outcome) {
    && rounds != []
    && forall i :: 0 <= i < |rounds| ==>
                     Turned(rounds[i], end, first + i <= maxSteps, networkEnabled,
                            if i < |rounds| - 1 then None else Some(r))
  }

  /** A new session: it could not be created, or it was driven from its first step. */
  ghost predicate Launched(rounds: seq<Round>, end: nat, maxSteps: nat, networkEnabled: bool, r: Outcome) {
    if rounds == [] then Reported(r, ModelFailed) else Told(rounds, end, 1, maxSteps, networkEnabled, r)
  }

  /** A resumed session: driven on if the adapter did the operation, and ended with its error if it did not.
      If the adapter was not called, that is a supervisor error or the operation was not retained. */
  ghost predicate Resumed(answer: Option<Result<(), AdapterFailure>>, error: AgentError, rounds: seq<Round>, end: nat,
                          first: nat, maxSteps: nat, networkEnabled: bool, r: Outcome)
  {
    match answer
    case Some(Ok(_)) => Told(rounds, end, first, maxSteps, networkEnabled, r)
    case Some(Err(LimitReached)) => Reported(r, AgentBudgetExceeded)
    case Some(Err(OperationFailed)) => Reported(r, error)
    case None => Reported(r, error)
  }

  predicate IsValidAgentConfig(maxSteps: nat, ttl: nat) {
    0 < maxSteps <= MAX_MODEL_STEPS && MILLISECOND <= ttl <= MAX_APPROVAL_TTL
  }

  class AgentRuntime {
    const maxSteps: nat
    const approvalTtl: nat
    const tool: ExecutionGate
    const network: ExecutionGate
    const networkEnabled: bool
    var active: Option<ActiveSession>
    /** Operation values prepared so far. */
    var prepared: nat
    /** For every session started, the step numbers with which its `decide` was called. */
    ghost var history: seq<seq<nat>>
    ghost var executions: seq<Execution>
    ghost var given: set<Execution>

    /** The supervisor with the two gates, as a system of `Gate`. */
    ghost function World(supervisor: TaskSupervisor): System
      reads this, tool, network, supervisor, supervisor.authority
    {
      System(supervisor.State(), [tool.View(), network.View()], executions, given)
    }

    function GateOf(adapter: PendingAdapter): ExecutionGate { if adapter.ToolAdapter? then tool else network }

    ghost predicate SessionsBounded()
      reads this`history
    {
      forall k :: 0 <= k < |history| ==> |history[k]| <= maxSteps && history[k] == Steps(|history[k]|)
    }

    /** What holds in the middle of a call too. */
    ghost predicate Sane()
      reads this`history, this`given, this`prepared
    {
      && tool != network && IsValidAgentConfig(maxSteps, approvalTtl) && SessionsBounded()
      && forall x :: x in given ==> x.operation.identity < prepared
    }

    /** The active session has taken `nextStep - 1` steps. */
    ghost predicate InStep()
      reads this`active, this`history
    {
      && active.Some? && 1 <= active.value.nextStep <= maxSteps + 1
      && |history| > 0 && history[|history| - 1] == Steps(active.value.nextStep - 1)
    }

    /** The session waits for a decision about an operation of its own Task. */
    ghost predicate Suspended()
      reads this`active, this`history, tool, network
    {
      && InStep() && active.value.pending.Some?
      && var p := active.value.pending.value;
         && (p.adapter.NetworkAdapter? ==> networkEnabled)
         && var kept := RetainedTask(GateOf(p.adapter).View(), p.approval);
            kept.None? || kept == Some(active.value.task)
    }

    /** Between calls: idle, or with a session that carries the approval it was suspended on. That
        approval need not be pending any more: see `SessionAfterApproval` and `SessionAfterDenial`. */
    ghost predicate Valid()
      reads this, tool, network
    {
      Sane() && (active.Some? ==> Suspended())
    }

    /** The active Task has been started. */
    ghost predicate Attached(supervisor: TaskSupervisor)
      reads this, supervisor, supervisor.authority
    {
      active.Some? ==> Began(supervisor.State(), active.value.task)
    }

    /** In the middle of driving Task `t`. */
    ghost predicate Driving(supervisor: TaskSupervisor, t: TaskId)
      reads this, supervisor, supervisor.authority
    {
      Sane() && InStep() && active.value.task == t && active.value.pending.None? && InProgress(supervisor.State(), t)
    }

    /** What driving Task `t` ends with. */
    ghost predicate Drove(r: Outcome, supervisor: TaskSupervisor, t: TaskId)
      reads this, tool, network, supervisor, supervisor.authority
    {
      match r
      case Ok(Completed(_)) => active.None? && Is(supervisor.State(), t, Succeeded)
      case Ok(DeniedByPolicy(_)) => active.None? && Is(supervisor.State(), t, Failed)
      case Ok(WaitsForApproval(approval)) =>
        && active.Some? && active.value.task == t
        && Is(supervisor.State(), t, WaitingApproval) && Began(supervisor.State(), t)
        && active.value.pending.Some? && active.value.pending.value.approval == approval.approval
        && PendsFor(supervisor.State(), approval.approval, t)
        && RetainedTask(GateOf(active.value.pending.value.adapter).View(), approval.approval) == Some(t)
      case Err(AgentSupervisorFailed(_)) => active.None?
      case Err(AgentConfigInvalid) => false
      case Err(AgentCapacityExceeded) => false
      case Err(InvalidState) => false
      case Err(_) => active.None? && Is(supervisor.State(), t, Failed)
    }

    constructor (maxSteps: nat, approvalTtl: nat, tool: ExecutionGate, network: ExecutionGate, networkEnabled: bool)
      requires IsValidAgentConfig(maxSteps, approvalTtl) && tool != network
      ensures Valid() && active.None? && history == [] && executions == [] && given == {}
    {
      this.maxSteps, this.approvalTtl, this.networkEnabled := maxSteps, approvalTtl, networkEnabled;
      this.tool, this.network := tool, network;
      active, prepared, history, executions, given := None, 0, [], [], {};
    }

    /** A runtime for a checked configuration: `AgentConfig::new` and `AgentRuntime::new`. */
    static method New(maxSteps: nat, approvalTtl: nat, tool: ExecutionGate, network: ExecutionGate,
                      networkEnabled: bool)
      returns (r: Result<AgentRuntime, AgentError>)
      requires tool != network
      ensures r.Ok? <==> IsValidAgentConfig(maxSteps, approvalTtl)
      ensures r.Ok? ==> fresh(r.value) && r.value.Valid() && r.value.active.None?
      ensures r.Err? ==> r.error == AgentConfigInvalid
    {
      if maxSteps == 0 || maxSteps > MAX_MODEL_STEPS || approvalTtl < MILLISECOND || approvalTtl > MAX_APPROVAL_TTL {
        return Err(AgentConfigInvalid);
      }
      var runtime := new AgentRuntime(maxSteps, approvalTtl, tool, network, networkEnabled);
      return Ok(runtime);
    }

    /** Some instant. */
    method Clock() returns (now: nat)
    {
      var reading: int := *;
      now := if reading < 0 then 0 else reading;
    }

    /** What the catalogs make of a decision: an operation with trusted capability fields, or nothing. */
    method Prepare(decision: ModelDecision) returns (operation: Option<(CapabilityRequest, string)>)
    {
      operation := *;
    }

    /** What an adapter would answer. */
    method Answer() returns (works: Result<(), AdapterFailure>)
    {
      works := *;
    }

    /** A fresh identifier. */
    method Draw(used: set<nat>) returns (id: nat)
      ensures id !in used
    {
      var ids := Ascending(used);
      assert forall x :: x in used <==> x in ids;
      var skip: int := *;
      id := if skip < 0 then 0 else skip;
      if ids != [] {
        id := id + ids[|ids| - 1] + 1;
      }
    }

    /** `fail_active` and `fail_budget_active`. */
    method FailActive(supervisor: TaskSupervisor, t: TaskId, overBudget: bool)
      returns (r: Result<(), AgentError>, ghost run: seq<GateCommand>)
      requires Sane() && t in supervisor.tasks
      modifies this`active, supervisor, supervisor.authority`pending, supervisor.authority`index
      ensures active.None? && Valid()
      ensures if r.Ok? then Is(supervisor.State(), t, Failed) else r.error.AgentSupervisorFailed?
      ensures var s := old(supervisor.State());
              var (n, failed) := if overBudget then s.FailBudgetExceeded(t) else s.Fail(t);
              supervisor.State() == n && r == if failed.Ok? then Ok(()) else Err(AgentSupervisorFailed(failed.error))
      ensures GateRun(old(World(supervisor)), run, World(supervisor))
    {
      hide GateRun, Supervisor.Transition;
      active := None;
      ghost var y := World(supervisor);
      var failed;
      if overBudget {
        failed := supervisor.FailBudgetExceeded(t);
        FinishLeavesIfOk(y.supervisor, t, Failed, Some(ErrorCode.BudgetExceeded));
        run := [Direct(CallFailBudget(t))];
      } else {
        failed := supervisor.Fail(t);
        FinishLeavesIfOk(y.supervisor, t, Failed, None);
        run := [Direct(CallFail(t))];
      }
      DirectRun(y, run[0].command);
      assert World(supervisor) == y.(supervisor := Step(y.supervisor, run[0].command));
      r := if failed.Err? then Err(AgentSupervisorFailed(failed.error)) else Ok(());
    }

    /** The call fails with `error`, after the Task was failed. */
    method GiveUp(supervisor: TaskSupervisor, t: TaskId, overBudget: bool, error: AgentError)
      returns (r: Outcome, ghost run: seq<GateCommand>)
      requires Sane() && t in supervisor.tasks && Reports(error) && (overBudget <==> error == AgentBudgetExceeded)
      modifies this`active, supervisor, supervisor.authority`pending, supervisor.authority`index
      ensures Valid() && active.None? && Drove(r, supervisor, t) && Reported(r, error)
      ensures GateRun(old(World(supervisor)), run, World(supervisor))
    {
      hide GateRun;
      var failed;
      failed, run := FailActive(supervisor, t, overBudget);
      r := if failed.Err? then Err(failed.error) else Err(error);
    }

    /** The gate request itself; `answer` is what the adapter answered, if the operation was handed to it. */
    method Submit(supervisor: TaskSupervisor, t: TaskId, adapter: PendingAdapter, request: CapabilityRequest,
                  payload: string)
      returns (outcome: Result<ExecutionOutcome, ExecutionError<AdapterFailure>>, ghost run: seq<GateCommand>,
               ghost answer: Option<Result<(), AdapterFailure>>)
      requires Sane() && Began(supervisor.State(), t)
      modifies this`prepared, this`executions, this`given, tool, network,
               supervisor, supervisor.authority`pending, supervisor.authority`index
      ensures Sane() && KeepsStart(old(supervisor.State()), supervisor.State(), t)
      ensures GateRun(old(World(supervisor)), run, World(supervisor))
      ensures outcome == Ok(Executed) ==> InProgress(supervisor.State(), t)
      ensures outcome.Ok? && outcome.value.AwaitsApproval? ==>
                && Is(supervisor.State(), t, WaitingApproval)
                && PendsFor(supervisor.State(), outcome.value.approval.approval, t)
                && RetainedTask(GateOf(adapter).View(), outcome.value.approval.approval) == Some(t)
      ensures |run| == 1 && run[0].GateRequest? && run[0].gate == GateIndex(adapter) && run[0].task == t
              && run[0].operation == Operation(old(prepared), request, payload) && run[0].ttl == approvalTtl
      ensures executions == old(executions)
              + if answer.Some? then [Execution(t, Operation(old(prepared), request, payload))] else []
      ensures if answer.Some? then outcome == GateAnswers.Outcome(answer.value, Executed)
              else outcome != Ok(Executed) && (outcome.Err? ==> outcome.error.SupervisorFailed?)
      ensures old(Sound(supervisor.State()) && ScopesSound(supervisor.State())) ==>
                Justified(old(supervisor.State()).tasks[t].spec, request, answer.Some?, outcome)
    {
      hide GateRun, GateState.Request, Sound, ScopesSound, Justified, IsValidAgentConfig, SessionsBounded, KeepsStart,
           InProgress, Is, PendsFor, RetainedTask, GateAnswers.Outcome;
      assert t in supervisor.tasks;
      hide Began;
      var gate := GateOf(adapter);
      var o := Draw(supervisor.used);
      var a := Draw(supervisor.used + {o});
      var sweptAt := Clock();
      var now := Clock();
      var works := Answer();
      var operation := Operation(prepared, request, payload);
      ghost var y := World(supervisor);
      ghost var c := GateRequest(GateIndex(adapter), t, operation, approvalTtl, sweptAt, now, o, a);
      ghost var turn := y.gates[c.gate].Request(y.supervisor, t, operation, approvalTtl, sweptAt, now, o, a, works);
      RequestFacts(y, c, works);
      RequestRun(y, c, works);
      prepared := prepared + 1;
      outcome := gate.Request(supervisor, t, operation, approvalTtl, sweptAt, now, o, a, works);
      executions := executions + Opt(turn.executed);
      given := given + {Execution(t, operation)};
      assert World(supervisor).gates == y.gates[c.gate := turn.gate];
      run, answer := [c], if turn.executed.Some? then Some(works) else None;
    }

    /** Hands one prepared operation to a gate and acts on the outcome. */
    method Perform(supervisor: TaskSupervisor, t: TaskId, adapter: PendingAdapter, request: CapabilityRequest,
                   payload: string)
      returns (r: Option<Outcome>, ghost run: seq<GateCommand>, ghost answer: Option<Result<(), AdapterFailure>>)
      requires Driving(supervisor, t) && (adapter.NetworkAdapter? ==> networkEnabled)
      modifies this`active, this`prepared, this`executions, this`given, tool, network,
               supervisor, supervisor.authority`pending, supervisor.authority`index
      ensures active.Some? ==> active.value.nextStep == old(active).value.nextStep
      ensures GateRun(old(World(supervisor)), run, World(supervisor))
      ensures if r.None? then Driving(supervisor, t) && active == old(active)
              else Valid() && Drove(r.value, supervisor, t)
      ensures r.None? ==> KeepsStart(old(supervisor.State()), supervisor.State(), t)
      ensures Performed(AdapterError(adapter), answer, r)
    {
      hide GateRun, Justified, KeepsStart, RetainedTask, Is, PendsFor, Drove, IsValidAgentConfig, SessionsBounded,
           Performed;
      ghost var y := World(supervisor);
      ghost var more: seq<GateCommand>;
      var outcome;
      outcome, run, answer := Submit(supervisor, t, adapter, request, payload);
      ghost var n := World(supervisor);
      StillBegan(y.supervisor, n.supervisor, t);
      r, more := React(supervisor, t, adapter, outcome);
      ReactionPerforms(AdapterError(adapter), answer, outcome, r);
      GateRunOn(y, run, n, more, World(supervisor));
      run := run + more;
    }

    /** Acts on the outcome of a gate request. */
    method React(supervisor: TaskSupervisor, t: TaskId, adapter: PendingAdapter,
                 outcome: Result<ExecutionOutcome, ExecutionError<AdapterFailure>>)
      returns (r: Option<Outcome>, ghost run: seq<GateCommand>)
      requires Sane() && InStep() && active.value.task == t && active.value.pending.None?
      requires Began(supervisor.State(), t) && (adapter.NetworkAdapter? ==> networkEnabled)
      requires outcome == Ok(Executed) ==> InProgress(supervisor.State(), t)
      requires outcome.Ok? && outcome.value.AwaitsApproval? ==>
                 && Is(supervisor.State(), t, WaitingApproval)
                 && PendsFor(supervisor.State(), outcome.value.approval.approval, t)
                 && RetainedTask(GateOf(adapter).View(), outcome.value.approval.approval) == Some(t)
      modifies this`active, supervisor, supervisor.authority`pending, supervisor.authority`index
      ensures active.Some? ==> active.value.nextStep == old(active).value.nextStep
      ensures GateRun(old(World(supervisor)), run, World(supervisor))
      ensures if r.None? then
                Driving(supervisor, t) && active == old(active) && supervisor.State() == old(supervisor.State())
              else Valid() && Drove(r.value, supervisor, t)
      ensures Reacted(AdapterError(adapter), outcome, r)
    {
      hide GateRun, RetainedTask, IsValidAgentConfig, SessionsBounded, PendsFor;
      NoRun(World(supervisor));
      run := [];
      match outcome {
        case Ok(Executed) =>
          r := None;
        case Ok(AwaitsApproval(approval)) =>
          active := Some(active.value.(pending := Some(PendingDecision(approval.approval, adapter))));
          r := Some(Ok(WaitsForApproval(approval)));
        case Ok(ExecutionDenied(_)) =>
          r, run := Stop(supervisor, t, adapter, outcome);
        case Err(_) =>
          r, run := Stop(supervisor, t, adapter, outcome);
      }
    }

    /** An outcome that ends the session. */
    method Stop(supervisor: TaskSupervisor, t: TaskId, adapter: PendingAdapter,
                outcome: Result<ExecutionOutcome, ExecutionError<AdapterFailure>>)
      returns (r: Option<Outcome>, ghost run: seq<GateCommand>)
      requires Sane() && t in supervisor.tasks && (outcome.Ok? ==> outcome.value.ExecutionDenied?)
      modifies this`active, supervisor, supervisor.authority`pending, supervisor.authority`index
      ensures Valid() && active.None? && r.Some? && Drove(r.value, supervisor, t)
      ensures GateRun(old(World(supervisor)), run, World(supervisor))
      ensures Reacted(AdapterError(adapter), outcome, r)
    {
      hide GateRun, IsValidAgentConfig, SessionsBounded;
      NoRun(World(supervisor));
      run := [];
      var failed, gone;
      match outcome {
        case Ok(denied) =>
          failed, run := FailActive(supervisor, t, false);
          r := Some(if failed.Err? then Err(failed.error) else Ok(DeniedByPolicy(denied.reason)));
        case Err(SupervisorFailed(error)) =>
          active := None;
          r := Some(Err(AgentSupervisorFailed(error)));
        case Err(AdapterFailed(LimitReached)) =>
          gone, run := GiveUp(supervisor, t, true, AgentBudgetExceeded);
          r := Some(gone);
        case Err(_) =>
          gone, run := GiveUp(supervisor, t, false, AdapterError(adapter));
          r := Some(gone);
      }
    }

    /** The model is asked for its decision on the next step. */
    method Decide() returns (decision: Option<ModelDecision>)
      requires Sane() && InStep() && active.value.nextStep <= maxSteps
      modifies this`history
      ensures Sane() && Grows(old(history), history) && |history| == |old(history)|
      ensures history[|history| - 1] == old(history)[|history| - 1] + [active.value.nextStep]
              == Steps(active.value.nextStep)
    {
      var step := active.value.nextStep;
      NextStep(step - 1);
      history := history[|history| - 1 := history[|history| - 1] + [step]];
      decision := *;
    }

    /** Whether the Task's wall time is used up at this instant. */
    method OutOfTime(supervisor: TaskSupervisor, t: TaskId) returns (r: Result<bool, AgentError>, ghost now: nat)
      ensures InProgress(supervisor.State(), t) ==> r == Ok(now >= BudgetEnd(supervisor.State(), t))
    {
      var instant := Clock();
      now := instant;
      if InProgress(supervisor.State(), t) {
        BudgetChecks(supervisor.State(), t, now);
      }
      var remaining := supervisor.RemainingWallTime(t, instant);
      r := if remaining.Err? then Err(AgentSupervisorFailed(remaining.error)) else Ok(remaining.value == 0);
    }

    /** Asks for a decision: one more step, or the reason why there is none. */
    method Consult(supervisor: TaskSupervisor, t: TaskId)
      returns (r: Result<ModelDecision, Outcome>, ghost run: seq<GateCommand>, ghost c: Consultation)
      requires Driving(supervisor, t)
      modifies this`active, this`history, supervisor, supervisor.authority`pending, supervisor.authority`index
      ensures Grows(old(history), history) && |history| == |old(history)|
      ensures GateRun(old(World(supervisor)), run, World(supervisor))
      ensures r.Ok? ==>
                && Driving(supervisor, t) && active.value.nextStep == old(active).value.nextStep + 1
                && supervisor.State() == old(supervisor.State())
      ensures r.Err? ==> Valid() && active.None? && Drove(r.error, supervisor, t)
      ensures var end, stepsLeft := old(BudgetEnd(supervisor.State(), t)), old(active).value.nextStep <= maxSteps;
              if r.Ok? then Decided(c, end, stepsLeft) && c.decision == Some(r.value)
              else Undecided(c, end, stepsLeft, r.error)
    {
      hide GateRun, Sane, Grows;
      GrowsNot(history);
      NoRun(World(supervisor));
      run := [];
      var gone;
      var late;
      ghost var checkedAt, recheckedAt;
      late, checkedAt := OutOfTime(supervisor, t);
      c := Consultation(checkedAt, None, 0);
      if late.value {
        gone, run := GiveUp(supervisor, t, true, AgentBudgetExceeded);
        return Err(gone), run, c;
      }
      if active.value.nextStep > maxSteps {
        gone, run := GiveUp(supervisor, t, false, StepLimitExceeded);
        return Err(gone), run, c;
      }
      var decision := Decide();
      if decision.None? {
        gone, run := GiveUp(supervisor, t, false, ModelFailed);
        return Err(gone), run, c;
      }
      late, recheckedAt := OutOfTime(supervisor, t);
      c := Consultation(checkedAt, decision, recheckedAt);
      if late.value {
        gone, run := GiveUp(supervisor, t, true, AgentBudgetExceeded);
        return Err(gone), run, c;
      }
      active := Some(active.value.(nextStep := active.value.nextStep + 1));
      r := Ok(decision.value);
    }

    method Complete(supervisor: TaskSupervisor, t: TaskId, output: string)
      returns (r: Outcome, ghost run: seq<GateCommand>)
      requires Sane() && t in supervisor.tasks
      modifies this`active, supervisor, supervisor.authority`pending, supervisor.authority`index
      ensures Valid() && active.None? && Drove(r, supervisor, t)
      ensures r == Ok(Completed(output)) || Refused(r)
      ensures GateRun(old(World(supervisor)), run, World(supervisor))
    {
      hide GateRun, Supervisor.Transition;
      active := None;
      ghost var y := World(supervisor);
      var succeeded := supervisor.Succeed(t);
      FinishLeavesIfOk(y.supervisor, t, Succeeded, None);
      run := [Direct(CallSucceed(t))];
      DirectRun(y, run[0].command);
      assert World(supervisor) == y.(supervisor := Step(y.supervisor, run[0].command));
      r := if succeeded.Err? then Err(AgentSupervisorFailed(succeeded.error)) else Ok(Completed(output));
    }

    /** Acts on one decision. */
    method Follow(supervisor: TaskSupervisor, t: TaskId, decision: ModelDecision)
      returns (r: Option<Outcome>, ghost run: seq<GateCommand>, ghost deed: Deed)
      requires Driving(supervisor, t)
      modifies this`active, this`prepared, this`executions, this`given, tool, network,
               supervisor, supervisor.authority`pending, supervisor.authority`index
      ensures active.Some? ==> active.value.nextStep == old(active).value.nextStep
      ensures GateRun(old(World(supervisor)), run, World(supervisor))
      ensures if r.None? then Driving(supervisor, t) && active == old(active)
              else Valid() && Drove(r.value, supervisor, t)
      ensures r.None? ==> KeepsStart(old(supervisor.State()), supervisor.State(), t)
      ensures Followed(decision, networkEnabled, deed, r)
    {
      hide GateRun, Drove, Performed;
      var done;
      var operation := Prepare(decision);
      deed := Deed(operation.Some?, None);
      match decision
      case Finish(output) =>
        done, run := Complete(supervisor, t, output);
        r := Some(done);
      case CallTool(_, _) =>
        if operation.None? {
          done, run := GiveUp(supervisor, t, false, InvalidDecision);
          r := Some(done);
        } else {
          ghost var answer;
          r, run, answer := Perform(supervisor, t, ToolAdapter, operation.value.0, operation.value.1);
          deed := Deed(true, answer);
        }
      case TcpExchange(_, _, _) =>
        if !networkEnabled || operation.None? {
          done, run := GiveUp(supervisor, t, false, InvalidDecision);
          r := Some(done);
        } else {
          ghost var answer;
          r, run, answer := Perform(supervisor, t, NetworkAdapter, operation.value.0, operation.value.1);
          deed := Deed(true, answer);
        }
    }

    /** One round of `drive`: a decision and what is made of it. */
    method Advance(supervisor: TaskSupervisor, t: TaskId)
      returns (r: Option<Outcome>, ghost run: seq<GateCommand>, ghost round: Round)
      requires Driving(supervisor, t)
      modifies this, tool, network, supervisor, supervisor.authority`pending, supervisor.authority`index
      ensures Grows(old(history), history) && |history| == |old(history)|
      ensures GateRun(old(World(supervisor)), run, World(supervisor))
      ensures if r.None? then
                && Driving(supervisor, t) && active.value.nextStep == old(active).value.nextStep + 1
                && KeepsStart(old(supervisor.State()), supervisor.State(), t)
              else
                && Valid() && Drove(r.value, supervisor, t)
                && (active.Some? ==> active.value.nextStep > old(active).value.nextStep)
      ensures Turned(round, old(BudgetEnd(supervisor.State(), t)), old(active).value.nextStep <= maxSteps,
                     networkEnabled, r)
    {
      hide GateRun, Drove, Grows, Followed, IsValidAgentConfig, SessionsBounded, BudgetEnd;
      ghost var y := World(supervisor);
      ghost var c: Consultation;
      ghost var deed: Deed := Deed(false, None);
      var decision;
      decision, run, c := Consult(supervisor, t);
      round := Round(c, deed);
      if decision.Err? {
        return Some(decision.error), run, round;
      }
      ghost var n, more := World(supervisor), [];
      r, more, deed := Follow(supervisor, t, decision.value);
      round := Round(c, deed);
      GateRunOn(y, run, n, more, World(supervisor));
      run := run + more;
    }

    /** `drive`: at most one decision per remaining step. `rounds` tells what happened in each: all but the
        last went on, and the last says why and how the call ended. */
    method Drive(supervisor: TaskSupervisor, t: TaskId)
      returns (r: Outcome, ghost run: seq<GateCommand>, ghost rounds: seq<Round>)
      requires Driving(supervisor, t)
      modifies this, tool, network, supervisor, supervisor.authority`pending, supervisor.authority`index
      ensures Grows(old(history), history) && |history| == |old(history)|
      ensures GateRun(old(World(supervisor)), run, World(supervisor))
      ensures Valid() && Attached(supervisor) && Drove(r, supervisor, t)
      ensures active.Some? ==> active.value.nextStep > old(active).value.nextStep
      ensures Told(rounds, old(BudgetEnd(supervisor.State(), t)), old(active).value.nextStep, maxSteps, networkEnabled,
                   r)
    {
      hide GateRun, IsValidAgentConfig, SessionsBounded, Turned;
      ghost var y, end, first := World(supervisor), BudgetEnd(supervisor.State(), t), active.value.nextStep;
      NoRun(y);
      run, rounds := [], [];
      while true
        invariant Driving(supervisor, t) && GateRun(y, run, World(supervisor))
        invariant active.value.nextStep == first + |rounds| && BudgetEnd(supervisor.State(), t) == end
        invariant forall i :: 0 <= i < |rounds| ==> Turned(rounds[i], end, first + i <= maxSteps, networkEnabled, None)
        invariant Grows(old(history), history) && |history| == |old(history)|
        decreases maxSteps + 1 - active.value.nextStep
      {
        ghost var n, more, round := World(supervisor), [], Round(Consultation(0, None, 0), Deed(false, None));
        var done;
        done, more, round := Advance(supervisor, t);
        GateRunOn(y, run, n, more, World(supervisor));
        run, rounds := run + more, rounds + [round];
        if done.Some? {
          return done.value, run, rounds;
        }
      }
    }

    /******* The calls *******/

    /** Whether a new model session could be created. */
    method StartSession() returns (created: bool)
    {
      created := *;
    }

    /** `start`: drives a Task until completion, denial or approval wait, unless a session is active. The
        call is a gated run, except that starting a Task that waits for approval comes first if it does. */
    method Start(supervisor: TaskSupervisor, t: TaskId)
      returns (r: Outcome, ghost run: seq<GateCommand>, ghost rounds: seq<Round>)
      requires Valid()
      modifies this, tool, network, supervisor, supervisor.authority`pending, supervisor.authority`index
      ensures Grows(old(history), history)
      ensures Valid()
      ensures !old(Is(supervisor.State(), t, WaitingApproval)) ==>
              GateRun(old(World(supervisor)), run, World(supervisor))
      ensures old(active).None? ==>
                && run != [] && run[0].Direct? && run[0].command.CallStart? && run[0].command.task == t
                && var y := old(World(supervisor));
                   GateRun(y.(supervisor := Step(y.supervisor, run[0].command)), run[1..], World(supervisor))
      ensures if old(active).Some? then r == Err(AgentCapacityExceeded) && World(supervisor) == old(World(supervisor))
              && active == old(active)
              else Drove(r, supervisor, t) && Attached(supervisor)
      ensures old(active).None? ==>
                var (n, started) := old(supervisor.State()).Start(t, run[0].command.now);
                if started.Err? then r == Err(AgentSupervisorFailed(started.error))
                else Began(n, t) && Launched(rounds, BudgetEnd(n, t), maxSteps, networkEnabled, r)
    {
      hide GateRun, Supervisor.Start, IsValidAgentConfig, SessionsBounded, Launched;
      ghost var y := World(supervisor);
      NoRun(y);
      run, rounds := [], [];
      if active.Some? {
        return Err(AgentCapacityExceeded), run, rounds;
      }
      var now := Clock();
      var started := supervisor.Start(t, now);
      run := [Direct(CallStart(t, now))];
      ghost var n, more := World(supervisor), [];
      assert n == y.(supervisor := Step(y.supervisor, CallStart(t, now)));
      NoRun(n);
      if !Is(y.supervisor, t, WaitingApproval) {
        StartRun(y, t, now);
      }
      if started.Err? {
        assert run[1..] == [];
        return Err(AgentSupervisorFailed(started.error)), run, rounds;
      }
      StartLeaves(y.supervisor, t, now);
      hide Drove;
      r, more, rounds := Launch(supervisor, t);
      if !Is(y.supervisor, t, WaitingApproval) {
        GateRunOn(y, run, n, more, World(supervisor));
      }
      run := run + more;
      assert run[1..] == more;
    }

    /** Creates the session of a Task that was just started, and drives it. */
    method Launch(supervisor: TaskSupervisor, t: TaskId)
      returns (r: Outcome, ghost run: seq<GateCommand>, ghost rounds: seq<Round>)
      requires Sane() && active.None? && InProgress(supervisor.State(), t)
      modifies this, tool, network, supervisor, supervisor.authority`pending, supervisor.authority`index
      ensures Grows(old(history), history)
      ensures Valid() && Attached(supervisor) && GateRun(old(World(supervisor)), run, World(supervisor))
      ensures Drove(r, supervisor, t)
      ensures Launched(rounds, old(BudgetEnd(supervisor.State(), t)), maxSteps, networkEnabled, r)
    {
      hide GateRun, Turned, Drove, IsValidAgentConfig;
      var created := StartSession();
      rounds := [];
      if !created {
        r, run := GiveUp(supervisor, t, false, ModelFailed);
      } else {
        active, history := Some(ActiveSession(t, 1, None)), history + [Steps(0)];
        r, run, rounds := Drive(supervisor, t);
      }
    }

    /** `approve_and_resume`: executes the retained operation and goes on driving. The session is kept as
        it was exactly if the gate retained the operation and the approval does not go through or is not
        used; `SessionAfterApproval` says what its approval and Task then are. */
    method ApproveAndResume(supervisor: TaskSupervisor, a: ApprovalId)
      returns (r: Outcome, ghost run: seq<GateCommand>, ghost sweptAt: nat, ghost now: nat, ghost consumedAt: nat,
               ghost answer: Option<Result<(), AdapterFailure>>, ghost rounds: seq<Round>)
      requires Valid() && Attached(supervisor)
      modifies this, tool, network, supervisor, supervisor.authority`pending, supervisor.authority`index
      ensures Grows(old(history), history) && |history| == |old(history)|
      ensures Valid() && GateRun(old(World(supervisor)), run, World(supervisor))
      ensures if !old(Awaits(a)) then
                r == Err(InvalidState) && World(supervisor) == old(World(supervisor)) && active == old(active)
              else
                || Drove(r, supervisor, old(active).value.task)
                || (r.Err? && r.error.AgentSupervisorFailed? && active == old(active))
      ensures Attached(supervisor)
      ensures old(Awaits(a)) ==>
                var t, adapter := old(active).value.task, old(active).value.pending.value.adapter;
                && (old(RetainedTask(GateOf(adapter).View(), a)).None? ==> active.None?)
                && SessionAfterApproval(old(World(supervisor)), GateIndex(adapter), a, t, sweptAt, now, consumedAt,
                                        active == old(active), World(supervisor))
                && Resumed(answer, AdapterError(adapter), rounds, old(BudgetEnd(supervisor.State(), active.value.task)),
                           old(active).value.nextStep, maxSteps, networkEnabled, r)
    {
      hide GateRun, Grows, Drove, SessionAfterApproval, Told, KeepsStart, BudgetEnd, Began, IsValidAgentConfig,
           SessionsBounded, RetainedTask;
      GrowsNot(history);
      ghost var y := World(supervisor);
      NoRun(y);
      run, sweptAt, now, consumedAt, answer, rounds := [], 0, 0, 0, None, [];
      if !Awaits(a) {
        return Err(InvalidState), run, sweptAt, now, consumedAt, answer, rounds;
      }
      var t, adapter := active.value.task, active.value.pending.value.adapter;
      var executed;
      executed, run, sweptAt, now, consumedAt, answer := Grant(supervisor, a, adapter);
      ghost var n, more := World(supervisor), [];
      SameBudget(y.supervisor, n.supervisor, t);
      match executed {
        case Ok(_) =>
          active := Some(active.value.(pending := None));
          r, more, rounds := Drive(supervisor, t);
        case Err(SupervisorFailed(error)) =>
          return Err(AgentSupervisorFailed(error)), run, sweptAt, now, consumedAt, answer, rounds;
        case Err(AdapterFailed(LimitReached)) =>
          r, more := GiveUp(supervisor, t, true, AgentBudgetExceeded);
        case Err(_) =>
          r, more := GiveUp(supervisor, t, false, AdapterError(adapter));
      }
      ResumedSession(y, GateIndex(adapter), a, t, sweptAt, now, consumedAt, n, World(supervisor));
      GateRunOn(y, run, n, more, World(supervisor));
      run := run + more;
    }

    /** The session is suspended on this approval: `require_pending`. */
    predicate Awaits(a: ApprovalId)
      reads this
    {
      active.Some? && active.value.pending.Some? && active.value.pending.value.approval == a
    }

    /** The gate's approval of the suspended operation. */
    method Grant(supervisor: TaskSupervisor, a: ApprovalId, adapter: PendingAdapter)
      returns (executed: Result<ApprovalId, ExecutionError<AdapterFailure>>, ghost run: seq<GateCommand>,
               ghost sweptAt: nat, ghost now: nat, ghost consumedAt: nat,
               ghost answer: Option<Result<(), AdapterFailure>>)
      requires Valid() && Attached(supervisor) && Awaits(a) && adapter == active.value.pending.value.adapter
      modifies this`executions, tool, network, supervisor, supervisor.authority`pending, supervisor.authority`index
      ensures Valid() && Attached(supervisor)
      ensures GateRun(old(World(supervisor)), run, World(supervisor))
      ensures executed.Ok? ==> InProgress(supervisor.State(), active.value.task)
      ensures KeepsStart(old(supervisor.State()), supervisor.State(), active.value.task)
      ensures if answer.None? then executed.Err? && !executed.error.AdapterFailed? && executions == old(executions)
              else
                && executions == old(executions) + Opt(old(RetainedFor(GateOf(adapter).View(), a)))
                && if answer.value.Err? then executed == Err(AdapterFailed(answer.value.error)) else executed.Ok?
      ensures old(RetainedTask(GateOf(adapter).View(), a)).None? ==> executed == Err(OperationNotFound)
      ensures SessionAfterApproval(old(World(supervisor)), GateIndex(adapter), a, active.value.task, sweptAt, now,
                                   consumedAt, executed.Err? && executed.error.SupervisorFailed?, World(supervisor))
    {
      hide GateRun, GateState.ApproveAndExecute, IsValidAgentConfig, SessionsBounded, SessionAfterApproval, KeepsStart,
           InProgress, RetainedTask, RetainedFor, Began, InStep;
      assert tool != network;
      hide Sane;
      var gate := GateOf(adapter);
      var sweepAt := Clock();
      var grantAt := Clock();
      var useAt := Clock();
      sweptAt, now, consumedAt := sweepAt, grantAt, useAt;
      var works := Answer();
      ghost var y := World(supervisor);
      ghost var c := GateApprove(GateIndex(adapter), a, sweptAt, now, consumedAt);
      ghost var turn := y.gates[c.gate].ApproveAndExecute(y.supervisor, a, sweptAt, now, consumedAt, works);
      answer := if turn.executed.Some? then Some(works) else None;
      ApproveRun(y, c, works);
      executed := gate.ApproveAndExecute(supervisor, a, sweepAt, grantAt, useAt, works);
      executions := executions + Opt(turn.executed);
      assert World(supervisor).gates == y.gates[c.gate := turn.gate];
      ApprovalFacts(y, c, active.value.task, works, World(supervisor));
      StillBegan(y.supervisor, supervisor.State(), active.value.task);
      run := [c];
    }

    /** `deny`: fails the Task and drops the session. The error is the adapter's exactly if the gate no
        longer retains the operation. A call that fails keeps the session. */
    method Deny(supervisor: TaskSupervisor, a: ApprovalId)
      returns (r: Result<(), AgentError>, ghost run: seq<GateCommand>, ghost sweptAt: nat)
      requires Valid()
      modifies this`active, tool, network, supervisor, supervisor.authority`pending, supervisor.authority`index
      ensures Valid() && GateRun(old(World(supervisor)), run, World(supervisor))
      ensures if !old(Awaits(a)) then
                r == Err(InvalidState) && World(supervisor) == old(World(supervisor)) && active == old(active)
              else if r.Ok? then active.None? else active == old(active)
      ensures old(Awaits(a)) ==>
                var adapter := old(active).value.pending.value.adapter;
                && (r == Err(AdapterError(adapter)) <==> a !in old(GateOf(adapter).index))
                && (if a !in old(GateOf(adapter).index) then World(supervisor) == old(World(supervisor))
                    else r.Err? ==> r.error.AgentSupervisorFailed?)
                && SessionAfterDenial(old(World(supervisor)), GateIndex(adapter), a, old(active).value.task, sweptAt,
                                      r.Ok?, World(supervisor))
    {
      hide GateRun, GateState.Deny, GateState.Consistent, IsValidAgentConfig, SessionsBounded, SessionAfterDenial;
      ghost var y := World(supervisor);
      NoRun(y);
      run, sweptAt := [], 0;
      if !Awaits(a) {
        return Err(InvalidState), run, sweptAt;
      }
      var t, adapter := active.value.task, active.value.pending.value.adapter;
      var gate := GateOf(adapter);
      var now := Clock();
      sweptAt := now;
      ghost var c := GateDeny(GateIndex(adapter), a, sweptAt);
      DenyFindsRetained<AdapterFailure>(gate.View(), y.supervisor, a, sweptAt);
      DenyRun(y, c);
      var denied := gate.Deny(supervisor, a, now);
      ghost var turn: Turn<TaskSnapshot, AdapterFailure> := y.gates[c.gate].Deny(y.supervisor, a, sweptAt);
      assert World(supervisor) == System(turn.supervisor, y.gates[c.gate := turn.gate], y.executions, y.given);
      DenialSession<AdapterFailure>(y, c.gate, a, t, sweptAt, World(supervisor));
      run := [c];
      match denied
      case Ok(_) =>
        active := None;
        return Ok(()), run, sweptAt;
      case Err(SupervisorFailed(error)) =>
        return Err(AgentSupervisorFailed(error)), run, sweptAt;
      case Err(_) =>
        return Err(AdapterError(adapter)), run, sweptAt;
    }

    /** `cancel`: succeeds exactly if the supervisor cancels, and then the runtime is idle. */
    method Cancel(supervisor: TaskSupervisor, t: TaskId)
      returns (r: Result<bool, AgentError>, ghost run: seq<GateCommand>)
      requires Valid()
      modifies this`active, tool, network, supervisor, supervisor.authority`pending, supervisor.authority`index
      ensures Valid() && GateRun(old(World(supervisor)), run, World(supervisor))
      ensures if old(active).Some? && old(active).value.task != t then
                r == Err(InvalidState) && World(supervisor) == old(World(supervisor)) && active == old(active)
              else if old(supervisor.State()).Cancel(t).1.Ok? then
                && r == Ok(old(supervisor.State()).Cancel(t).1.value) && active.None?
                && var adapter := if old(active).Some? then old(active).value.pending.value.adapter else ToolAdapter;
                   forall o :: o in GateOf(adapter).pending ==> GateOf(adapter).pending[o].task != t
              else
                r.Err? && r.error.AgentSupervisorFailed? && active == old(active)
    {
      hide GateRun, Supervisor.Cancel, GateState.Without;
      ghost var y := World(supervisor);
      NoRun(y);
      run := [];
      if active.Some? && active.value.task != t {
        return Err(InvalidState), run;
      }
      var adapter := if active.Some? && active.value.pending.Some? then active.value.pending.value.adapter
        else ToolAdapter;
      var gate := GateOf(adapter);
      ghost var c := GateCancel(GateIndex(adapter), t);
      CancelRun(y, c);
      CancelForgets(y.gates[c.gate], y.supervisor, t);
      var changed := gate.Cancel(supervisor, t);
      ghost var turn: Turn<bool, AdapterFailure> := y.gates[c.gate].Cancel(y.supervisor, t);
      assert World(supervisor) == System(turn.supervisor, y.gates[c.gate := turn.gate], y.executions, y.given);
      run := [c];
      match changed
      case Ok(value) =>
        active := None;
        return Ok(value), run;
      case Err(SupervisorFailed(error)) =>
        return Err(AgentSupervisorFailed(error)), run;
      case Err(_) =>
        return Err(AdapterError(adapter)), run;
    }

    /** `expire_adapter`. */
    method ExpireGate(supervisor: TaskSupervisor, adapter: PendingAdapter)
      returns (r: Result<nat, AgentError>, ghost run: seq<GateCommand>, ghost sweptAt: nat)
      requires Valid()
      modifies tool, network, supervisor, supervisor.authority`pending, supervisor.authority`index
      ensures supervisor.State() == old(supervisor.State()).ExpireApprovals(sweptAt).0
      ensures r.Ok? <==> old(supervisor.State()).ExpireApprovals(sweptAt).1.Ok?
      ensures r.Ok? ==> old(supervisor.State()).ExpireApprovals(sweptAt).1 == Ok(r.value)
      ensures Valid() && GateRun(old(World(supervisor)), run, World(supervisor))
      ensures r.Err? ==> r.error.AgentSupervisorFailed?
      ensures forall t :: old(Is(supervisor.State(), t, Failed)) ==> Is(supervisor.State(), t, Failed)
      ensures forall a, t :: SessionAfterExpiry(old(World(supervisor)), GateIndex(adapter), a, t, World(supervisor))
    {
      hide GateRun, Supervisor.ExpireApprovals, GateState.EndedTasks, SessionsBounded, IsValidAgentConfig,
           SessionAfterExpiry;
      var gate := GateOf(adapter);
      ghost var y := World(supervisor);
      var now := Clock();
      sweptAt := now;
      ghost var c := GateExpire(GateIndex(adapter), now);
      ExpireRun(y, c);
      ExpireKeepsFailed(y.supervisor, now);
      var expired := gate.Expire(supervisor, now);
      ghost var turn: Turn<nat, AdapterFailure> := y.gates[c.gate].Expire(y.supervisor, now);
      assert World(supervisor) == System(turn.supervisor, y.gates[c.gate := turn.gate], y.executions, y.given);
      forall a, t ensures SessionAfterExpiry(y, c.gate, a, t, World(supervisor)) {
        ExpirySession<AdapterFailure>(y, c.gate, a, t, now, World(supervisor));
      }
      run := [c];
      match expired
      case Ok(count) => r := Ok(count);
      case Err(SupervisorFailed(error)) => r := Err(AgentSupervisorFailed(error));
      case Err(_) => r := Err(AdapterError(adapter));
    }

    /** Fails a Task over its wall time and lets its gate drop the operation. */
    method DropLate(supervisor: TaskSupervisor, t: TaskId, adapter: PendingAdapter)
      returns (r: Result<nat, AgentError>, ghost run: seq<GateCommand>)
      requires Valid() && t in supervisor.tasks
      modifies this`active, tool, network, supervisor, supervisor.authority`pending, supervisor.authority`index
      ensures Valid() && active.None? && GateRun(old(World(supervisor)), run, World(supervisor))
      ensures r.Err?
      ensures if r.error.AgentBudgetExceeded? then Is(supervisor.State(), t, Failed) else r.error.AgentSupervisorFailed?
    {
      hide GateRun, Sane;
      ghost var y := World(supervisor);
      var failed;
      failed, run := FailActive(supervisor, t, true);
      if failed.Err? {
        return Err(failed.error), run;
      }
      ghost var n, more, sweptAt := World(supervisor), [], 0;
      var expired;
      expired, more, sweptAt := ExpireGate(supervisor, adapter);
      GateRunOn(y, run, n, more, World(supervisor));
      run := run + more;
      r := Err(if expired.Err? then expired.error else AgentBudgetExceeded);
    }

    /** `expire`: a session over its wall time is dropped and its Task failed; otherwise a session
        survives a successful call exactly if its Task has not ended. The session of an ended Task is
        kept, by a call that fails, if and only if the Task had ended before the call or the call's own
        sweep ends it and is refused later on. A live approval of a session that is kept stays live
        exactly if the Task has not ended. */
    method Expire(supervisor: TaskSupervisor)
      returns (r: Result<nat, AgentError>, ghost run: seq<GateCommand>, ghost checkedAt: nat, ghost sweptAt: nat)
      requires Valid()
      modifies this`active, tool, network, supervisor, supervisor.authority`pending, supervisor.authority`index
      ensures Valid() && GateRun(old(World(supervisor)), run, World(supervisor))
      ensures active.Some? ==> active == old(active)
      ensures old(active.Some? && Ended(supervisor.State(), active.value.task)) ==>
                && r == Err(AgentSupervisorFailed(TaskNotRunning)) && active == old(active)
                && World(supervisor) == old(World(supervisor))
      ensures r == Err(AgentBudgetExceeded) ==>
                old(active).Some? && active.None? && Is(supervisor.State(), old(active).value.task, Failed)
      ensures r.Err? ==> r.error.AgentBudgetExceeded? || r.error.AgentSupervisorFailed?
      ensures var late := old(active).Some?
                && old(supervisor.State()).WallTimeExceeded(old(active).value.task, checkedAt) == Ok(true);
              if late then active.None? && r.Err? else r != Err(AgentBudgetExceeded)
      ensures r.Ok? ==> old(supervisor.State()).ExpireApprovals(sweptAt).1 == Ok(r.value)
      ensures r.Ok? && old(active).Some? ==> (active.None? <==> Over(supervisor.State(), old(active).value.task))
      ensures old(Sound(supervisor.State())) ==>
                (active.Some? && Ended(supervisor.State(), active.value.task) <==>
                 old(active).Some?
                 && var s, t := old(supervisor.State()), old(active).value.task;
                    Ended(s, t) || EndsMidway(s, t, checkedAt, sweptAt))
      ensures active.Some? ==>
                var p := active.value.pending.value;
                SessionAfterExpiry(old(World(supervisor)), GateIndex(p.adapter), p.approval, active.value.task,
                                   World(supervisor))
    {
      hide GateRun, Sane, Sound, Supervisor.ExpireApprovals, SweepCloses, TakesAll, Authority.ExpiredIds,
           SessionAfterExpiry;
      ghost var y := World(supervisor);
      NoRun(y);
      run, checkedAt, sweptAt := [], 0, 0;
      var adapter := if active.Some? && active.value.pending.Some? then active.value.pending.value.adapter
        else ToolAdapter;
      if active.Some? {
        var t := active.value.task;
        var now := Clock();
        checkedAt := now;
        var late := supervisor.WallTimeExceeded(t, now);
        if late.Err? {
          UntouchedSession(y, GateIndex(adapter), active.value.pending.value.approval, t);
          return Err(AgentSupervisorFailed(late.error)), run, checkedAt, sweptAt;
        }
        if late.value {
          r, run := DropLate(supervisor, t, adapter);
          return;
        }
      }
      r, run, sweptAt := ExpireInTime(supervisor, adapter);
    }

    /** The part of `expire` for a session within its wall time, or none. */
    method ExpireInTime(supervisor: TaskSupervisor, adapter: PendingAdapter)
      returns (r: Result<nat, AgentError>, ghost run: seq<GateCommand>, ghost sweptAt: nat)
      requires Valid()
      modifies this`active, tool, network, supervisor, supervisor.authority`pending, supervisor.authority`index
      ensures Valid() && GateRun(old(World(supervisor)), run, World(supervisor))
      ensures active.Some? ==> active == old(active)
      ensures r.Err? ==> r.error.AgentSupervisorFailed?
      ensures r.Ok? ==> old(supervisor.State()).ExpireApprovals(sweptAt).1 == Ok(r.value)
      ensures r.Ok? && old(active).Some? ==> (active.None? <==> Over(supervisor.State(), old(active).value.task))
      ensures old(Sound(supervisor.State()) && active.Some? && active.value.task in supervisor.tasks) ==>
                (active.Some? && Ended(supervisor.State(), active.value.task) <==>
                 var s, t := old(supervisor.State()), old(active).value.task;
                 (Ended(s, t) || SweepCloses(s, s.authority.ExpiredIds(sweptAt), t))
                 && !TakesAll(s, s.authority.ExpiredIds(sweptAt)))
      ensures forall a, t :: SessionAfterExpiry(old(World(supervisor)), GateIndex(adapter), a, t, World(supervisor))
    {
      hide GateRun, Sane, Sound, Supervisor.ExpireApprovals, SweepCloses, TakesAll, Authority.ExpiredIds,
           SessionAfterExpiry;
      ghost var s := supervisor.State();
      r, run, sweptAt := ExpireGate(supervisor, adapter);
      if active.Some? && Sound(s) && active.value.task in s.tasks {
        ExpiryOutcome(s, active.value.task, sweptAt);
      }
      if r.Ok? && active.Some? {
        var state := supervisor.TaskStateOf(active.value.task);
        if state.Some? && state.value.IsTerminal() {
          active := None;
        }
      }
    }

    /** How the session of an ended Task comes to be kept, from any suspended session: the Task is
        cancelled at the supervisor, and `expire` then fails without dropping the session. */
    method CancelBehindTheRuntime(supervisor: TaskSupervisor)
      requires Valid() && active.Some? && supervisor.State().Cancel(active.value.task).1.Ok?
      requires active.value.task in supervisor.tasks
      modifies this`active, tool, network, supervisor, supervisor.authority`pending, supervisor.authority`index
      ensures Valid() && active == old(active) && Ended(supervisor.State(), active.value.task)
    {
      hide Supervisor.Cancel, GateRun, Sane, Sound, SweepCloses, TakesAll, Authority.ExpiredIds;
      CancelLeaves(supervisor.State(), active.value.task);
      var _ := supervisor.Cancel(active.value.task);
      var _, _, _, _ := Expire(supervisor);
    }
  }

  /** Errors that are reported after the Task was failed. */
  predicate Reports(error: AgentError) {
    error.InvalidDecision? || error.StepLimitExceeded? || error.ModelFailed? || error.ToolFailed?
      || error.NetworkFailed?
    || error.AgentBudgetExceeded?
  }

  /** What a gate request for a started Task answers and leaves. */
  lemma RequestFacts(y: System, c: GateCommand, works: Result<(), AdapterFailure>)
    requires c.GateRequest? && c.gate < |y.gates| && Began(y.supervisor, c.task)
    requires c.o !in y.supervisor.used && c.a !in y.supervisor.used
    ensures var turn := y.gates[c.gate].Request(y.supervisor, c.task, c.operation, c.ttl, c.sweptAt, c.now, c.o, c.a,
                                                works);
            var outcome := turn.result;
            && (outcome == Ok(Executed) ==> InProgress(turn.supervisor, c.task))
            && (outcome.Ok? && outcome.value.AwaitsApproval? ==>
                  && Is(turn.supervisor, c.task, WaitingApproval)
                  && PendsFor(turn.supervisor, outcome.value.approval.approval, c.task)
                  && RetainedTask(turn.gate, outcome.value.approval.approval) == Some(c.task))
            && KeepsStart(y.supervisor, turn.supervisor, c.task)
            && (turn.executed.Some? ==> turn.executed.value == Execution(c.task, c.operation))
            && (if turn.executed.Some? then outcome == GateAnswers.Outcome(works, Executed)
                else outcome != Ok(Executed) && (outcome.Err? ==> outcome.error.SupervisorFailed?))
            && (Sound(y.supervisor) && ScopesSound(y.supervisor) ==>
                  Justified(y.supervisor.tasks[c.task].spec, c.operation.request, turn.executed.Some?, outcome))
  {
    hide GateState.Request, Sound, ScopesSound, Justified;
    var g, s := y.gates[c.gate], y.supervisor;
    RequestLeaves(g, s, c.task, c.operation, c.ttl, c.sweptAt, c.now, c.o, c.a, works);
    RequestReportsAdapter(g, s, c.task, c.operation, c.ttl, c.sweptAt, c.now, c.o, c.a, works, works);
    if Sound(s) && ScopesSound(s) {
      RequestJustified(g, s, c.task, c.operation, c.ttl, c.sweptAt, c.now, c.o, c.a, works);
    }
  }

  /** What approving the operation retained for a started Task answers and leaves. */
  lemma ApprovalFacts(y: System, c: GateCommand, t: TaskId, works: Result<(), AdapterFailure>, n: System)
    requires c.GateApprove? && c.gate < |y.gates| && Began(y.supervisor, t)
    requires var kept := RetainedTask(y.gates[c.gate], c.approval); kept.None? || kept == Some(t)
    requires var turn := y.gates[c.gate].ApproveAndExecute(y.supervisor, c.approval, c.sweptAt, c.now, c.consumedAt,
                                                           works);
             n.supervisor == turn.supervisor && n.gates == y.gates[c.gate := turn.gate]
    ensures var turn := y.gates[c.gate].ApproveAndExecute(y.supervisor, c.approval, c.sweptAt, c.now, c.consumedAt,
                                                          works);
            var kept, r := RetainedTask(y.gates[c.gate], c.approval), turn.result;
            && KeepsStart(y.supervisor, turn.supervisor, t) && (r.Ok? ==> InProgress(turn.supervisor, t))
            && (RetainedTask(turn.gate, c.approval).None? || RetainedTask(turn.gate, c.approval) == Some(t))
            && (if turn.executed.None? then r.Err? && !r.error.AdapterFailed?
                else if works.Err? then r == Err(AdapterFailed(works.error)) else r.Ok?)
            && (turn.executed.Some? ==> turn.executed == RetainedFor(y.gates[c.gate], c.approval))
            && (kept.None? ==> r == Err(OperationNotFound))
            && SessionAfterApproval(y, c.gate, c.approval, t, c.sweptAt, c.now, c.consumedAt,
                                    r.Err? && r.error.SupervisorFailed?, n)
  {
    hide GateState.ApproveAndExecute, SessionAfterApproval;
    var g, s := y.gates[c.gate], y.supervisor;
    ApprovalLeaves(g, s, c.approval, c.sweptAt, c.now, c.consumedAt, works, t);
    ApprovalReportsAdapter(g, s, c.approval, c.sweptAt, c.now, c.consumedAt, works, works);
    ApprovalSession(y, c.gate, c.approval, t, c.sweptAt, c.now, c.consumedAt, works, n);
  }

  /** A gate request with fresh identifiers and a new value is a gated run of one call. */
  lemma RequestRun(y: System, c: GateCommand, works: Result<(), AdapterFailure>)
    requires c.GateRequest? && c.gate < |y.gates|
    requires c.o !in y.supervisor.used && c.a !in y.supervisor.used + {c.o}
    requires forall x :: x in y.given ==> x.operation.identity != c.operation.identity
    ensures var turn := y.gates[c.gate].Request(y.supervisor, c.task, c.operation, c.ttl, c.sweptAt, c.now, c.o, c.a,
            works);
            GateRun(y, [c], System(turn.supervisor, y.gates[c.gate := turn.gate], y.executions + Opt(turn.executed),
                                   y.given + {Execution(c.task, c.operation)}))
  {
    hide GateState.Request;
    AnswerIsIrrelevant(y.gates[c.gate], y.supervisor, c, works);
    GateRunOne(y, c);
  }

  lemma DenyRun(y: System, c: GateCommand)
    requires c.GateDeny? && c.gate < |y.gates|
    ensures var turn: Turn<TaskSnapshot, AdapterFailure> := y.gates[c.gate].Deny(y.supervisor, c.approval, c.sweptAt);
            GateRun(y, [c], System(turn.supervisor, y.gates[c.gate := turn.gate], y.executions, y.given))
  {
    hide Supervisor.DenyOperation;
    GateRunOne(y, c);
    assert y.executions + [] == y.executions;
  }

  lemma CancelRun(y: System, c: GateCommand)
    requires c.GateCancel? && c.gate < |y.gates|
    ensures var turn: Turn<bool, AdapterFailure> := y.gates[c.gate].Cancel(y.supervisor, c.task);
            GateRun(y, [c], System(turn.supervisor, y.gates[c.gate := turn.gate], y.executions, y.given))
  {
    hide Supervisor.Cancel, GateState.Without;
    GateRunOne(y, c);
    assert y.executions + [] == y.executions;
  }

  lemma CancelForgets(g: GateState, s: Supervisor, t: TaskId)
    ensures var turn: Turn<bool, AdapterFailure> := g.Cancel(s, t);
            turn.result.Ok? ==> forall o :: o in turn.gate.pending ==> turn.gate.pending[o].task != t
  {
    hide Supervisor.Cancel;
  }

  lemma ExpireRun(y: System, c: GateCommand)
    requires c.GateExpire? && c.gate < |y.gates|
    ensures var turn: Turn<nat, AdapterFailure> := y.gates[c.gate].Expire(y.supervisor, c.now);
            GateRun(y, [c], System(turn.supervisor, y.gates[c.gate := turn.gate], y.executions, y.given))
  {
    hide Supervisor.ExpireApprovals, GateState.EndedTasks, GateState.Without;
    GateRunOne(y, c);
    assert y.executions + [] == y.executions;
  }

  lemma ExpireKeepsFailed(s: Supervisor, now: nat)
    ensures forall t :: Is(s, t, Failed) ==> Is(s.ExpireApprovals(now).0, t, Failed)
  {
    SweepKeepsFailed(s, s.authority.ExpiredIds(now), 0);
  }

  lemma ApproveRun(y: System, c: GateCommand, works: Result<(), AdapterFailure>)
    requires c.GateApprove? && c.gate < |y.gates|
    ensures var turn := y.gates[c.gate].ApproveAndExecute(y.supervisor, c.approval, c.sweptAt, c.now, c.consumedAt,
            works);
            GateRun(y, [c], System(turn.supervisor, y.gates[c.gate := turn.gate], y.executions + Opt(turn.executed),
              y.given))
  {
    hide GateState.ApproveAndExecute;
    ApprovalAnswerIsIrrelevant(y.gates[c.gate], y.supervisor, c, works);
    GateRunOne(y, c);
  }

  /** A start that does not restart a waiting Task is a gated run of one call. */
  lemma StartRun(y: System, t: TaskId, now: nat)
    requires t in y.supervisor.tasks ==> !y.supervisor.tasks[t].state.WaitingApproval?
    ensures GateRun(y, [Direct(CallStart(t, now))], y.(supervisor := y.supervisor.Start(t, now).0))
  {
    hide Supervisor.Start;
    GateRunOne(y, Direct(CallStart(t, now)));
  }

  lemma FinishLeavesIfOk(s: Supervisor, t: TaskId, next: TaskState, failure: Option<ErrorCode>)
    requires t in s.tasks
    ensures s.Transition(t, next, failure).1.Ok? ==> Is(s.Transition(t, next, failure).0, t, next)
  {
    if s.Transition(t, next, failure).1.Ok? {
      FinishLeaves(s, t, next, failure);
    }
  }

  /** Calls on the supervisor alone that are always admissible. */
  lemma DirectRun(y: System, c: Command)
    requires c.CallFail? || c.CallFailBudget? || c.CallSucceed?
    ensures GateRun(y, [Direct(c)], y.(supervisor := Step(y.supervisor, c)))
  {
    hide GateRun, Step;
    GateRunOne(y, Direct(c));
  }
}
