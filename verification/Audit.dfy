/** Audit events, the append-only log that the supervisor writes to, and the three readings of a
    Task's log that the proofs compare with live state: replay, approval life cycle and counting. */
module Audit {
  import opened Basics
  import opened Lifecycle
  import opened Capability

  type TaskId = nat
  type ApprovalId = nat
  type OperationId = nat

  datatype TaskEventKind =
    | TaskSubmitted
    | StateTransitioned(from: TaskState, to: TaskState)
    | ValidationFailed(errorCount: nat)
    | TaskFailed(code: ErrorCode)
    | OperationAllowed
    | OperationDenied(reason: DenialReason)
    | ApprovalRequested(approval: ApprovalId, operation: OperationId)
    | ApprovalGranted(approval: ApprovalId, operation: OperationId)
    | ApprovalDenied(approval: ApprovalId, operation: OperationId)
    | ApprovalExpired(approval: ApprovalId, operation: OperationId)
    | ApprovalRevoked(approval: ApprovalId, operation: OperationId)
    | ApprovalConsumed(approval: ApprovalId, operation: OperationId)

  type Log = seq<TaskEventKind>

  datatype EventStoreError = CapacityExceeded | SequenceExhausted | Corrupt | InsecurePermissions | Unavailable

  /** An append-only store of one log per Task. `plan` decides what the backend does with the
      coming batches: it is arbitrary, so every pattern of refusals is covered; once it is used up
      the backend accepts. */
  datatype AuditLog = AuditLog(logs: map<TaskId, Log>, capacity: nat, plan: seq<Option<EventStoreError>>)
  {
    function LogOf(task: TaskId): Log { if task in logs then logs[task] else [] }

    /** `append_batch`: all of the batch or none of it. */
    function Append(task: TaskId, kinds: Log): (r: (AuditLog, Option<EventStoreError>)) {
      if kinds == [] then (this, None) else
      var rest := this.(plan := if plan == [] then [] else plan[1..]);
      if plan != [] && plan[0].Some? then (rest, plan[0])
      else if |LogOf(task)| + |kinds| > capacity then (rest, Some(CapacityExceeded))
      else (rest.(logs := logs[task := LogOf(task) + kinds]), None)
    }
  }

  /** The backend takes `n` events for Task `t` as its next batch. */
  predicate Willing(store: AuditLog, t: TaskId, n: nat) {
    (store.plan == [] || store.plan[0].None?) && |store.LogOf(t)| + n <= store.capacity
  }

  function Logged(store: AuditLog, t: TaskId, batch: Log): AuditLog {
    AuditLog(store.logs[t := store.LogOf(t) + batch], store.capacity, if store.plan == [] then [] else store.plan[1..])
  }

  /** What a backend that is not willing answers, and the log that it leaves. */
  function Refusal(store: AuditLog): EventStoreError {
    if store.plan != [] && store.plan[0].Some? then store.plan[0].value else CapacityExceeded
  }

  function Unlogged(store: AuditLog): AuditLog { store.(plan := if store.plan == [] then [] else store.plan[1..]) }

  /** A batch is taken as a whole, by a willing backend, or leaves no trace in the logs. */
  lemma AppendTakesIff(store: AuditLog, t: TaskId, batch: Log)
    requires batch != []
    ensures store.Append(t, batch) ==
            if Willing(store, t, |batch|) then (Logged(store, t, batch), None)
            else (Unlogged(store), Some(Refusal(store)))
  {
  }

  /******* Replay *******/

  /** What replaying a log prefix has established. */
  datatype Replayed = Blank | At(state: TaskState) | Failing(state: TaskState) | Broken

  function ReplayEvent(r: Replayed, e: TaskEventKind): Replayed {
    match r
    case Broken => Broken
    case Blank => if e.TaskSubmitted? then At(TaskState.Submitted) else Broken
    case Failing(state) => if e == StateTransitioned(state, Failed) then At(Failed) else Broken
    case At(state) =>
      match e
      case TaskSubmitted => Broken
      case StateTransitioned(from, to) => if state == from && from.CanTransitionTo(to) then At(to) else Broken
      case ValidationFailed(_) => if state.Validating? then r else Broken
      case TaskFailed(_) => if state.IsTerminal() then Broken else Failing(state)
      case OperationAllowed => if state.Running? then r else Broken
      case OperationDenied(_) => if state.Running? then r else Broken
      case ApprovalRequested(_, _) => if state.Running? then r else Broken
      case ApprovalGranted(_, _) => if state.WaitingApproval? then r else Broken
      case ApprovalDenied(_, _) => if state.WaitingApproval? then r else Broken
      case ApprovalExpired(_, _) => if state.WaitingApproval? then r else Broken
      case ApprovalRevoked(_, _) => if state.Running? || state.WaitingApproval? then r else Broken
      case ApprovalConsumed(_, _) => if state.Running? then r else Broken
  }

  function ReplayFrom(r: Replayed, log: Log): Replayed
    decreases log
  {
    if log == [] then r else ReplayFrom(ReplayEvent(r, log[0]), log[1..])
  }

  function Replay(log: Log): Replayed { ReplayFrom(Blank, log) }

  lemma {:induction false} ReplayConcat(r: Replayed, a: Log, b: Log)
    ensures ReplayFrom(r, a + b) == ReplayFrom(ReplayFrom(r, a), b)
    decreases a
  {
    if a == [] {
      assert a + b == b;
    } else {
      assert (a + b)[1..] == a[1..] + b;
      ReplayConcat(ReplayEvent(r, a[0]), a[1..], b);
    }
  }

  lemma Replay1(log: Log, e: TaskEventKind)
    ensures Replay(log + [e]) == ReplayEvent(Replay(log), e)
  {
    ReplayConcat(Blank, log, [e]);
    assert ReplayFrom(Replay(log), [e]) == ReplayFrom(ReplayEvent(Replay(log), e), []);
  }

  lemma Replay2(log: Log, e: TaskEventKind, f: TaskEventKind)
    ensures Replay(log + [e, f]) == ReplayEvent(ReplayEvent(Replay(log), e), f)
  {
    assert log + [e, f] == (log + [e]) + [f];
    Replay1(log, e);
    Replay1(log + [e], f);
  }

  lemma {:induction false} BrokenForever(log: Log)
    ensures ReplayFrom(Broken, log) == Broken
  {
    if log != [] {
      BrokenForever(log[1..]);
    }
  }

  /******* Last transition *******/

  /** The target of the last transition recorded in a log. */
  function LastState(log: Log): Option<TaskState> {
    if log == [] then None else
    var e := log[|log| - 1];
    if e.StateTransitioned? then Some(e.to) else LastState(log[..|log| - 1])
  }

  lemma LastState1(log: Log, e: TaskEventKind)
    ensures LastState(log + [e]) == if e.StateTransitioned? then Some(e.to) else LastState(log)
  {
    assert (log + [e])[..|log|] == log;
  }

  /******* Approval life cycle *******/

  /** Where one approval identifier stands in a log. `Misused` marks every deviation from
      Requested, then Denied, Expired, Revoked or Granted, then Consumed or Revoked. */
  datatype Life = Absent | Requested(operation: OperationId) | Granted(operation: OperationId)
                | Closed(operation: OperationId) | Consumed(operation: OperationId) | Misused

  predicate Concerns(e: TaskEventKind, a: ApprovalId) {
    || (e.ApprovalRequested? && e.approval == a)
    || (e.ApprovalGranted? && e.approval == a)
    || (e.ApprovalDenied? && e.approval == a)
    || (e.ApprovalExpired? && e.approval == a)
    || (e.ApprovalRevoked? && e.approval == a)
    || (e.ApprovalConsumed? && e.approval == a)
  }

  function LifeEvent(l: Life, e: TaskEventKind, a: ApprovalId): Life {
    if !Concerns(e, a) then l else
    match l
    case Absent => if e.ApprovalRequested? then Requested(e.operation) else Misused
    case Requested(o) =>
      if e == ApprovalGranted(a, o) then Granted(o)
      else if e == ApprovalDenied(a, o) || e == TaskEventKind.ApprovalExpired(a, o)
        || e == ApprovalRevoked(a, o) then Closed(o)
      else Misused
    case Granted(o) =>
      if e == ApprovalConsumed(a, o) then Consumed(o)
      else if e == ApprovalRevoked(a, o) then Closed(o)
      else Misused
    case Closed(_) => Misused
    case Consumed(_) => Misused
    case Misused => Misused
  }

  function LifeIn(log: Log, a: ApprovalId): Life {
    if log == [] then Absent else LifeEvent(LifeIn(log[..|log| - 1], a), log[|log| - 1], a)
  }

  lemma Life1(log: Log, e: TaskEventKind, a: ApprovalId)
    ensures LifeIn(log + [e], a) == LifeEvent(LifeIn(log, a), e, a)
  {
    assert (log + [e])[..|log|] == log;
  }

  lemma Life2(log: Log, e: TaskEventKind, f: TaskEventKind, a: ApprovalId)
    ensures LifeIn(log + [e, f], a) == LifeEvent(LifeEvent(LifeIn(log, a), e, a), f, a)
  {
    assert log + [e, f] == (log + [e]) + [f];
    Life1(log, e, a);
    Life1(log + [e], f, a);
  }

  lemma {:induction false} LifeUnconcerned(log: Log, batch: Log, a: ApprovalId)
    requires forall i :: 0 <= i < |batch| ==> !Concerns(batch[i], a)
    ensures LifeIn(log + batch, a) == LifeIn(log, a)
  {
    if batch == [] {
      assert log + batch == log;
    } else {
      var k := |batch| - 1;
      assert log + batch == (log + batch[..k]) + [batch[k]];
      Life1(log + batch[..k], batch[k], a);
      LifeUnconcerned(log, batch[..k], a);
    }
  }

  /** A batch with exactly one event about `a` moves `a` by that event. */
  lemma LifeOnce(log: Log, batch: Log, k: nat, a: ApprovalId)
    requires k < |batch|
    requires forall i :: 0 <= i < |batch| && i != k ==> !Concerns(batch[i], a)
    ensures LifeIn(log + batch, a) == LifeEvent(LifeIn(log, a), batch[k], a)
  {
    var before, after := batch[..k], batch[k + 1..];
    assert log + batch == ((log + before) + [batch[k]]) + after;
    LifeUnconcerned(log, before, a);
    Life1(log + before, batch[k], a);
    LifeUnconcerned((log + before) + [batch[k]], after, a);
  }

  /******* Releases *******/

  /** Events that release one operation to an adapter. */
  predicate Releases(e: TaskEventKind) { e.OperationAllowed? || e.ApprovalConsumed? }

  /** The releases of a log, in order. */
  function ReleaseLog(log: Log): Log {
    if log == [] then [] else
    ReleaseLog(log[..|log| - 1]) + if Releases(log[|log| - 1]) then [log[|log| - 1]] else []
  }

  lemma ReleaseLog1(log: Log, e: TaskEventKind)
    ensures ReleaseLog(log + [e]) == ReleaseLog(log) + if Releases(e) then [e] else []
  {
    assert (log + [e])[..|log|] == log;
  }

  lemma {:induction false} ReleaseLogNone(log: Log, batch: Log)
    requires forall i :: 0 <= i < |batch| ==> !Releases(batch[i])
    ensures ReleaseLog(log + batch) == ReleaseLog(log)
  {
    if batch == [] {
      assert log + batch == log;
    } else {
      var k := |batch| - 1;
      assert log + batch == (log + batch[..k]) + [batch[k]];
      ReleaseLog1(log + batch[..k], batch[k]);
      ReleaseLogNone(log, batch[..k]);
    }
  }
}
