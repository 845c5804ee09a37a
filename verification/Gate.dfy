/** The execution gate as functions on its maps and the supervisor:
    crates/aios-runtime/src/execution.rs. `GateObject.dfy` holds the mutable form. */
module Gate {
  import opened Basics
  import opened Capability
  import opened Audit
  import opened Approval
  import opened Supervision

  /** One complete operation. Operations are moved, never copied: `identity` tells two values with
      the same content apart. */
  datatype Operation = Operation(identity: nat, request: CapabilityRequest, payload: string)

  datatype PendingExecution = PendingExecution(task: TaskId, approval: ApprovalId, operation: Operation)

  /** One call of the adapter. */
  datatype Execution = Execution(task: TaskId, operation: Operation)

  datatype ExecutionOutcome =
    | Executed
    | ExecutionDenied(reason: DenialReason)
    | AwaitsApproval(approval: ApprovalRequest)

  datatype ExecutionError<+E> =
    | SupervisorFailed(error: SupervisorError)
    | AdapterFailed(failure: E)
    | OperationNotFound

  /** What a gate call leaves behind: the supervisor, the gate, the adapter call it made, if any, and
      its result. */
  datatype Turn<+R, +E> = Turn(
    supervisor: Supervisor, gate: GateState, executed: Option<Execution>, result: Result<R, ExecutionError<E>>)

  datatype GateState = GateState(
    pending: map<OperationId, PendingExecution>, index: map<ApprovalId, OperationId>)
  {
    /** The two maps are inverse. */
    ghost predicate Consistent() {
      && (forall o :: o in pending ==> pending[o].approval in index && index[pending[o].approval] == o)
      && (forall a :: a in index ==> index[a] in pending && pending[index[a]].approval == a)
    }

    function Keep(o: OperationId, entry: PendingExecution): GateState {
      GateState(pending[o := entry], index[entry.approval := o])
    }

    /** `remove_pending`. */
    function Drop(a: ApprovalId, o: OperationId): GateState {
      GateState(pending - {o}, index - {a})
    }

    /** The gate without the operations of some Tasks: `remove_task` and `purge_terminal`. */
    function Without(ts: set<TaskId>): GateState {
      GateState(
        map o | o in pending && pending[o].task !in ts :: pending[o],
        index - set o | o in pending && pending[o].task in ts :: pending[o].approval)
    }

    /** The gate after removing operations one by one, and after removing Tasks one by one. */
    function DropEach(ids: seq<OperationId>): GateState
      decreases ids
    {
      if ids == [] then this
      else if ids[0] in pending then Drop(pending[ids[0]].approval, ids[0]).DropEach(ids[1..])
      else DropEach(ids[1..])
    }

    function WithoutEach(ts: seq<TaskId>): GateState
      decreases ts
    {
      if ts == [] then this else Without({ts[0]}).WithoutEach(ts[1..])
    }

    function OperationsOf(t: TaskId): set<OperationId> { set o | o in pending && pending[o].task == t }

    function EndedTasks(s: Supervisor): set<TaskId> {
      set o | o in pending && s.StateOf(pending[o].task).Some? && s.StateOf(pending[o].task).value.IsTerminal()
        :: pending[o].task
    }

    /** `request`; `works` is what the adapter would answer. */
    function Request<E>(s: Supervisor, t: TaskId, operation: Operation, ttl: nat, sweptAt: nat, now: nat,
                        o: OperationId, a: ApprovalId, works: Result<(), E>): Turn<ExecutionOutcome, E>
    {
      var (n, authorization) := s.RequestOperation(t, operation.request, ttl, sweptAt, now, o, a);
      if authorization.Err? then Turn(n, this, None, Err(SupervisorFailed(authorization.error))) else
      match authorization.value
      case OperationPermitted =>
        Turn(n, this, Some(Execution(t, operation)), if works.Err? then Err(AdapterFailed(works.error))
          else Ok(Executed))
      case OperationRefused(reason) => Turn(n, this, None, Ok(ExecutionDenied(reason)))
      case NeedsApproval(approval) =>
        Turn(n, Keep(approval.operation, PendingExecution(t, approval.approval, operation)), None,
             Ok(AwaitsApproval(approval)))
    }

    /** `approve_and_execute`: the supervisor reads the clock for the sweep, the grant and the
        consumption. */
    function ApproveAndExecute<E>(s: Supervisor, a: ApprovalId, sweptAt: nat, now: nat, consumedAt: nat,
                                  works: Result<(), E>): Turn<ApprovalId, E>
    {
      if a !in index || index[a] !in pending then Turn(s, this, None, Err(OperationNotFound)) else
      var o, entry := index[a], pending[index[a]];
      var (n, approved) := s.ApproveOperation(a, sweptAt, now);
      if approved.Err? then Turn(n, this, None, Err(SupervisorFailed(approved.error))) else
      var (k, receipt) := n.AuthorizeOperation(entry.task, o, entry.operation.request, consumedAt);
      if receipt.Err? then Turn(k, Drop(a, o), None, Err(SupervisorFailed(receipt.error)))
      else Turn(k, Drop(a, o), Some(Execution(entry.task, entry.operation)),
                if works.Err? then Err(AdapterFailed(works.error)) else Ok(receipt.value))
    }

    function Deny<E>(s: Supervisor, a: ApprovalId, sweptAt: nat): Turn<TaskSnapshot, E> {
      if a !in index then Turn(s, this, None, Err(OperationNotFound)) else
      var (n, denied) := s.DenyOperation(a, sweptAt);
      if denied.Err? then Turn(n, this, None, Err(SupervisorFailed(denied.error)))
      else Turn(n, Drop(a, index[a]), None, Ok(denied.value))
    }

    function Expire<E>(s: Supervisor, now: nat): Turn<nat, E> {
      var (n, expired) := s.ExpireApprovals(now);
      if expired.Err? then Turn(n, this, None, Err(SupervisorFailed(expired.error)))
      else Turn(n, Without(EndedTasks(n)), None, Ok(expired.value))
    }

    function Cancel<E>(s: Supervisor, t: TaskId): Turn<bool, E> {
      var (n, cancelled) := s.Cancel(t);
      if cancelled.Err? then Turn(n, this, None, Err(SupervisorFailed(cancelled.error)))
      else Turn(n, Without({t}), None, Ok(cancelled.value))
    }
  }

  /******* The removal loops *******/

  lemma {:induction false} DropEachDrops(g: GateState, ids: seq<OperationId>)
    ensures g.DropEach(ids).pending == g.pending - set o | o in ids
    ensures g.DropEach(ids).index == g.index - set o | o in ids && o in g.pending :: g.pending[o].approval
    decreases ids
  {
    if ids != [] {
      var h := if ids[0] in g.pending then g.Drop(g.pending[ids[0]].approval, ids[0]) else g;
      DropEachDrops(h, ids[1..]);
      assert forall o :: o in ids <==> o == ids[0] || o in ids[1..];
      var rest := set o | o in ids[1..] && o in h.pending :: h.pending[o].approval;
      var all := set o | o in ids && o in g.pending :: g.pending[o].approval;
      forall a | a in all ensures a in rest || (ids[0] in g.pending && a == g.pending[ids[0]].approval) {
        var o :| o in ids && o in g.pending && g.pending[o].approval == a;
        if o != ids[0] {
          assert h.pending[o].approval == a;
        }
      }
    }
  }

  /** Removing the operations of a Task one by one removes the Task. */
  lemma {:induction false} DropEachIsWithout(g: GateState, t: TaskId, ids: seq<OperationId>)
    requires forall o :: o in ids <==> o in g.OperationsOf(t)
    ensures g.DropEach(ids) == g.Without({t})
  {
    DropEachDrops(g, ids);
    hide GateState.DropEach;
    assert g.DropEach(ids).pending == g.Without({t}).pending;
    assert (set o | o in ids && o in g.pending :: g.pending[o].approval)
        == (set o | o in g.pending && g.pending[o].task in {t} :: g.pending[o].approval);
  }

  lemma WithoutTwice(g: GateState, ts: set<TaskId>, us: set<TaskId>)
    ensures g.Without(ts).Without(us) == g.Without(ts + us)
  {
    var h := g.Without(ts);
    assert h.Without(us).pending == g.Without(ts + us).pending;
    var first := set o | o in g.pending && g.pending[o].task in ts :: g.pending[o].approval;
    var second := set o | o in h.pending && h.pending[o].task in us :: h.pending[o].approval;
    var both := set o | o in g.pending && g.pending[o].task in ts + us :: g.pending[o].approval;
    assert first + second == both by {
      forall a | a in both ensures a in first + second {
        var o :| o in g.pending && g.pending[o].task in ts + us && g.pending[o].approval == a;
        if g.pending[o].task !in ts {
          assert h.pending[o].approval == a;
        }
      }
    }
    assert h.Without(us).index == (g.index - first) - second;
  }

  /** Removing Tasks one by one removes them all. */
  lemma {:induction false} WithoutEachIsWithout(g: GateState, ts: seq<TaskId>)
    ensures g.WithoutEach(ts) == g.Without(set t | t in ts)
    decreases ts
  {
    if ts == [] {
      assert g.Without({}).pending == g.pending && g.Without({}).index == g.index;
      assert (set t | t in ts) == {};
    } else {
      WithoutEachIsWithout(g.Without({ts[0]}), ts[1..]);
      WithoutTwice(g, {ts[0]}, set t | t in ts[1..]);
      assert {ts[0]} + (set t | t in ts[1..]) == (set t | t in ts);
    }
  }

  /******* Gates sharing one supervisor *******/

  /** A supervisor with its gates, every adapter call made so far and every operation value handed to
      `request` so far, with its Task. */
  datatype System = System(
    supervisor: Supervisor, gates: seq<GateState>, executions: seq<Execution>, given: set<Execution>)

  datatype GateCommand =
    | GateRequest(gate: nat, task: TaskId, operation: Operation, ttl: nat, sweptAt: nat, now: nat, o: OperationId,
      a: ApprovalId)
    | GateApprove(gate: nat, approval: ApprovalId, sweptAt: nat, now: nat, consumedAt: nat)
    | GateDeny(gate: nat, approval: ApprovalId, sweptAt: nat)
    | GateExpire(gate: nat, now: nat)
    | GateCancel(gate: nat, task: TaskId)
    | Direct(command: Command)

  /** The call names a gate of the system, hands over a value not handed over before and draws fresh
      identifiers; operations are neither requested nor approved behind the gates, and waiting Tasks
      are not restarted. */
  predicate Admissible(y: System, c: GateCommand) {
    && (!c.Direct? ==> c.gate < |y.gates|)
    && (c.GateRequest? ==>
          && c.o !in y.supervisor.used && c.a !in y.supervisor.used && c.o != c.a
          && forall x :: x in y.given ==> x.operation.identity != c.operation.identity)
    && (c.Direct? ==> !c.command.CallRequest? && !c.command.CallApprove? && DrawsFresh(y.supervisor, c.command))
    && (c.Direct? && c.command.CallStart? && c.command.task in y.supervisor.tasks ==>
          !y.supervisor.tasks[c.command.task].state.WaitingApproval?)
  }

  function After<R, E>(y: System, i: nat, turn: Turn<R, E>): System
    requires i < |y.gates|
  {
    y.(supervisor := turn.supervisor, gates := y.gates[i := turn.gate],
       executions := y.executions + if turn.executed.Some? then [turn.executed.value] else [])
  }

  /** What the adapter answers does not matter to the state. */
  const ANSWER: Result<(), ()> := Ok(())

  function GateStep(y: System, c: GateCommand): System
    requires !c.Direct? ==> c.gate < |y.gates|
  {
    match c
    case GateRequest(i, t, operation, ttl, sweptAt, now, o, a) =>
      After(y, i, y.gates[i].Request(y.supervisor, t, operation, ttl, sweptAt, now, o, a, ANSWER))
        .(given := y.given + {Execution(t, operation)})
    case GateApprove(i, a, sweptAt, now, consumedAt) =>
      After(y, i, y.gates[i].ApproveAndExecute(y.supervisor, a, sweptAt, now, consumedAt, ANSWER))
    case GateDeny(i, a, sweptAt) => After<TaskSnapshot, ()>(y, i, y.gates[i].Deny(y.supervisor, a, sweptAt))
    case GateExpire(i, now) => After<nat, ()>(y, i, y.gates[i].Expire(y.supervisor, now))
    case GateCancel(i, t) => After<bool, ()>(y, i, y.gates[i].Cancel(y.supervisor, t))
    case Direct(command) => y.(supervisor := Step(y.supervisor, command))
  }

  function GateReadings(c: GateCommand): seq<nat> {
    match c
    case GateRequest(_, _, _, _, sweptAt, now, _, _) => [sweptAt, now]
    case GateApprove(_, _, sweptAt, now, consumedAt) => [sweptAt, now, consumedAt]
    case GateDeny(_, _, sweptAt) => [sweptAt]
    case GateExpire(_, now) => [now]
    case GateCancel(_, _) => []
    case Direct(command) => Readings(command)
  }

  /** The clock readings along a run. */
  function RunReadings(cs: seq<GateCommand>): seq<nat>
    decreases cs
  {
    if cs == [] then [] else GateReadings(cs[0]) + RunReadings(cs[1..])
  }

  ghost predicate GateRun(y: System, cs: seq<GateCommand>, n: System)
    decreases cs
  {
    if cs == [] then y == n else Admissible(y, cs[0]) && GateRun(GateStep(y, cs[0]), cs[1..], n)
  }

  function Assembled(s: Supervisor, count: nat): System {
    System(s, seq(count, i => GateState(map[], map[])), [], {})
  }
}
