/** The mutable execution gate: crates/aios-runtime/src/execution.rs. Every method is proved equal to
    the function of the same name in `Gate`. */
module GateObject {
  import opened Basics
  import opened Audit
  import opened Supervision
  import opened SupervisorObject
  import opened Gate

  /** What an adapter reports when an operation does not succeed. */
  datatype AdapterFailure = OperationFailed | LimitReached

  function Opt(executed: Option<Execution>): seq<Execution> { if executed.Some? then [executed.value] else [] }

  class ExecutionGate {
    var pending: map<OperationId, PendingExecution>
    var index: map<ApprovalId, OperationId>
    /** Every call made to the adapter so far. */
    ghost var executions: seq<Execution>

    ghost function View(): GateState
      reads this
    {
      GateState(pending, index)
    }

    /** The gate, the supervisor and the adapter are as `turn` says. */
    ghost predicate Took<R>(turn: Turn<R, AdapterFailure>, supervisor: TaskSupervisor, before: seq<Execution>)
      reads this, supervisor, supervisor.authority
    {
      supervisor.State() == turn.supervisor && View() == turn.gate && executions == before + Opt(turn.executed)
    }

    constructor ()
      ensures View() == GateState(map[], map[]) && executions == []
    {
      pending, index, executions := map[], map[], [];
    }

    /** Hands the operation to the adapter, which answers `works`. */
    method Execute(t: TaskId, operation: Operation, works: Result<(), AdapterFailure>)
      returns (r: Result<(), ExecutionError<AdapterFailure>>)
      modifies this`executions
      ensures executions == old(executions) + [Execution(t, operation)]
      ensures r == if works.Err? then Err(AdapterFailed(works.error)) else Ok(())
    {
      executions := executions + [Execution(t, operation)];
      return if works.Err? then Err(AdapterFailed(works.error)) else Ok(());
    }

    method Request(supervisor: TaskSupervisor, t: TaskId, operation: Operation, ttl: nat, sweptAt: nat, now: nat,
                   o: OperationId, a: ApprovalId, works: Result<(), AdapterFailure>)
      returns (r: Result<ExecutionOutcome, ExecutionError<AdapterFailure>>)
      modifies this, supervisor, supervisor.authority`pending, supervisor.authority`index
      ensures var turn := old(View()).Request(old(supervisor.State()), t, operation, ttl, sweptAt, now, o, a, works);
              Took(turn, supervisor, old(executions)) && r == turn.result
    {
      hide Supervisor.RequestOperation;
      var authorization := supervisor.RequestOperation(t, operation.request, ttl, sweptAt, now, o, a);
      if authorization.Err? {
        return Err(SupervisorFailed(authorization.error));
      }
      match authorization.value
      case OperationPermitted =>
        var executed := Execute(t, operation, works);
        return if executed.Err? then Err(executed.error) else Ok(Executed);
      case OperationRefused(reason) =>
        return Ok(ExecutionDenied(reason));
      case NeedsApproval(approval) =>
        pending := pending[approval.operation := PendingExecution(t, approval.approval, operation)];
        index := index[approval.approval := approval.operation];
        return Ok(AwaitsApproval(approval));
    }

    method RemovePending(a: ApprovalId, o: OperationId) returns (entry: Option<PendingExecution>)
      modifies this`pending, this`index
      ensures View() == old(View()).Drop(a, o)
      ensures entry == if o in old(pending) then Some(old(pending)[o]) else None
    {
      index := index - {a};
      entry := if o in pending then Some(pending[o]) else None;
      pending := pending - {o};
    }

    method ApproveAndExecute(supervisor: TaskSupervisor, a: ApprovalId, sweptAt: nat, now: nat, consumedAt: nat,
                             works: Result<(), AdapterFailure>)
      returns (r: Result<ApprovalId, ExecutionError<AdapterFailure>>)
      modifies this, supervisor, supervisor.authority`pending, supervisor.authority`index
      ensures var turn := old(View()).ApproveAndExecute(old(supervisor.State()), a, sweptAt, now, consumedAt, works);
              Took(turn, supervisor, old(executions)) && r == turn.result
    {
      hide Supervisor.ApproveOperation, Supervisor.AuthorizeOperation;
      if a !in index {
        return Err(OperationNotFound);
      }
      var o := index[a];
      if o !in pending {
        return Err(OperationNotFound);
      }
      var approved := supervisor.ApproveOperation(a, sweptAt, now);
      if approved.Err? {
        return Err(SupervisorFailed(approved.error));
      }
      var removed := RemovePending(a, o);
      var entry := removed.value;
      var receipt := supervisor.AuthorizeOperation(entry.task, o, entry.operation.request, consumedAt);
      if receipt.Err? {
        return Err(SupervisorFailed(receipt.error));
      }
      var executed := Execute(entry.task, entry.operation, works);
      return if executed.Err? then Err(executed.error) else Ok(receipt.value);
    }

    method Deny(supervisor: TaskSupervisor, a: ApprovalId, sweptAt: nat)
      returns (r: Result<TaskSnapshot, ExecutionError<AdapterFailure>>)
      modifies this, supervisor, supervisor.authority`pending, supervisor.authority`index
      ensures var turn := old(View()).Deny(old(supervisor.State()), a, sweptAt);
              Took(turn, supervisor, old(executions)) && r == turn.result
    {
      hide Supervisor.DenyOperation;
      if a !in index {
        return Err(OperationNotFound);
      }
      var o := index[a];
      var denied := supervisor.DenyOperation(a, sweptAt);
      if denied.Err? {
        return Err(SupervisorFailed(denied.error));
      }
      var _ := RemovePending(a, o);
      return Ok(denied.value);
    }

    /** `remove_task`: one removal per operation of the Task. */
    method RemoveTask(t: TaskId)
      modifies this`pending, this`index
      ensures View() == old(View()).Without({t})
    {
      hide Ascending, GateState.Without;
      var ids := Ascending(set o | o in pending && pending[o].task == t);
      DropEachIsWithout(View(), t, ids);
      for i := 0 to |ids|
        invariant View().DropEach(ids[i..]) == old(View()).DropEach(ids)
      {
        assert ids[i..][1..] == ids[i + 1..];
        if ids[i] in pending {
          index := index - {pending[ids[i]].approval};
          pending := pending - {ids[i]};
        }
      }
    }

    /** The Tasks of the retained operations that have ended, in map order. */
    method CollectEnded(supervisor: TaskSupervisor) returns (ended: seq<TaskId>)
      ensures (set t | t in ended) == View().EndedTasks(supervisor.State())
    {
      ended := [];
      var ids := Ascending(set o | o in pending);
      for i := 0 to |ids|
        invariant forall t :: t in ended ==> t in View().EndedTasks(supervisor.State())
        invariant forall k ::
                    0 <= k < i && ids[k] in pending
                    && pending[ids[k]].task in View().EndedTasks(supervisor.State()) ==>
                      pending[ids[k]].task in ended
      {
        assert ids[i] in ids;
        var t := pending[ids[i]].task;
        var state := supervisor.TaskStateOf(t);
        if state.Some? && state.value.IsTerminal() {
          ended := ended + [t];
        }
      }
      forall t | t in View().EndedTasks(supervisor.State()) ensures t in ended {
        var o :| o in pending && pending[o].task == t;
        assert o in ids;
      }
    }

    /** `purge_terminal`: the ended Tasks are collected first and removed one by one. */
    method PurgeTerminal(supervisor: TaskSupervisor)
      modifies this`pending, this`index
      ensures View() == old(View()).Without(old(View()).EndedTasks(supervisor.State()))
    {
      var ended := CollectEnded(supervisor);
      WithoutEachIsWithout(View(), ended);
      for i := 0 to |ended|
        invariant View().WithoutEach(ended[i..]) == old(View()).WithoutEach(ended)
      {
        assert ended[i..][1..] == ended[i + 1..];
        RemoveTask(ended[i]);
      }
    }

    method Expire(supervisor: TaskSupervisor, now: nat) returns (r: Result<nat, ExecutionError<AdapterFailure>>)
      modifies this, supervisor, supervisor.authority`pending, supervisor.authority`index
      ensures var turn := old(View()).Expire(old(supervisor.State()), now);
              Took(turn, supervisor, old(executions)) && r == turn.result
    {
      hide Supervisor.ExpireApprovals;
      var expired := supervisor.ExpireApprovals(now);
      if expired.Err? {
        return Err(SupervisorFailed(expired.error));
      }
      PurgeTerminal(supervisor);
      return Ok(expired.value);
    }

    method Cancel(supervisor: TaskSupervisor, t: TaskId) returns (r: Result<bool, ExecutionError<AdapterFailure>>)
      modifies this, supervisor, supervisor.authority`pending, supervisor.authority`index
      ensures var turn := old(View()).Cancel(old(supervisor.State()), t);
              Took(turn, supervisor, old(executions)) && r == turn.result
    {
      hide Supervisor.Cancel;
      var changed := supervisor.Cancel(t);
      if changed.Err? {
        return Err(SupervisorFailed(changed.error));
      }
      RemoveTask(t);
      return Ok(changed.value);
    }
  }
}
