/** Which logs replay, said event by event: `recover_snapshot` of crates/aios-storage-sqlite/src/lib.rs
    accepts exactly the logs in which every event stands in a state where it may happen. */
module Coherence {
  import opened Lifecycle
  import opened Audit

  /** The transitions that a Task makes by itself. */
  const EDGES: set<(TaskState, TaskState)> := {
    (TaskState.Submitted, Validating), (Validating, Rejected), (Validating, Queued), (Queued, Running),
    (Running, WaitingApproval), (WaitingApproval, Running), (Running, Succeeded), (Running, Failed),
    (WaitingApproval, Failed), (TaskState.Submitted, Cancelled), (Validating, Cancelled), (Queued, Cancelled),
    (Running, Cancelled), (WaitingApproval, Cancelled)}

  const FINAL: set<TaskState> := {Rejected, Succeeded, Failed, Cancelled}

  /** The state that a submitted Task has after these events: that of its last transition. */
  function StateAfter(log: Log): TaskState {
    if LastState(log).Some? then LastState(log).value else TaskState.Submitted
  }

  /** In this state the event may happen. */
  predicate MayHappen(state: TaskState, e: TaskEventKind) {
    match e
    case TaskSubmitted => false
    case StateTransitioned(from, to) => from == state && (from, to) in EDGES
    case ValidationFailed(_) => state == Validating
    case TaskFailed(_) => state !in FINAL
    case OperationAllowed => state == Running
    case OperationDenied(_) => state == Running
    case ApprovalRequested(_, _) => state == Running
    case ApprovalGranted(_, _) => state == WaitingApproval
    case ApprovalDenied(_, _) => state == WaitingApproval
    case ApprovalExpired(_, _) => state == WaitingApproval
    case ApprovalRevoked(_, _) => state == Running || state == WaitingApproval
    case ApprovalConsumed(_, _) => state == Running
  }

  /** The event may come next after a log that is not empty. After the code of a failure that is the
      transition to Failed, from whatever state, and nothing else. */
  predicate MayFollow(log: Log, e: TaskEventKind)
    requires log != []
  {
    if log[|log| - 1].TaskFailed? then e == StateTransitioned(StateAfter(log), Failed)
    else MayHappen(StateAfter(log), e)
  }

  /** The log begins with the submission, and every later event may follow those before it. */
  ghost predicate Coherent(log: Log) {
    log != [] && log[0] == TaskSubmitted && forall i :: 1 <= i < |log| ==> MayFollow(log[..i], log[i])
  }

  lemma CoherentOn(log: Log, e: TaskEventKind)
    requires log != []
    ensures Coherent(log + [e]) <==> Coherent(log) && MayFollow(log, e)
  {
    hide MayFollow;
    var more := log + [e];
    assert more[..|log|] == log;
    forall i | 1 <= i < |log| ensures more[..i] == log[..i] {
    }
    if Coherent(more) {
      assert MayFollow(more[..|log|], more[|log|]);
      forall i | 1 <= i < |log| ensures MayFollow(log[..i], log[i]) {
        assert MayFollow(more[..i], more[i]);
      }
    }
  }

  lemma EdgesAreTransitions(from: TaskState, to: TaskState)
    ensures (from, to) in EDGES <==> from.CanTransitionTo(to)
    ensures from in FINAL <==> from.IsTerminal()
  {
  }

  /** What replay makes of one more event. */
  lemma ReplayFollows(r: Replayed, log: Log, e: TaskEventKind)
    requires log != []
    requires r == if log[|log| - 1].TaskFailed? then Failing(StateAfter(log)) else At(StateAfter(log))
    ensures ReplayEvent(r, e) ==
            if !MayFollow(log, e) then Broken
            else if e.TaskFailed? then Failing(StateAfter(log + [e])) else At(StateAfter(log + [e]))
  {
    hide LastState;
    LastState1(log, e);
    if e.StateTransitioned? {
      EdgesAreTransitions(e.from, e.to);
    }
    EdgesAreTransitions(StateAfter(log), Failed);
  }

  /** A log replays if and only if it is coherent, and then to the state of its last transition: any event
      outside its state makes it corrupt. It replays to a Task at rest exactly if it does not end with the
      code of a failure. */
  lemma {:induction false} ReplaysIffCoherent(log: Log)
    ensures log != [] ==> (Replay(log) != Broken <==> Coherent(log))
    ensures Replay(log).At? <==> Coherent(log) && !log[|log| - 1].TaskFailed?
    ensures Coherent(log) ==>
              Replay(log) == if log[|log| - 1].TaskFailed? then Failing(StateAfter(log)) else At(StateAfter(log))
  {
    hide MayFollow, ReplayEvent, LastState;
    if log != [] {
      var before, e := log[..|log| - 1], log[|log| - 1];
      assert log == before + [e];
      Replay1(before, e);
      if before == [] {
        FirstEvent(e);
      } else {
        ReplaysIffCoherent(before);
        CoherentOn(before, e);
        BrokenStays(e);
        if Coherent(before) {
          ReplayFollows(Replay(before), before, e);
        }
      }
    }
  }

  lemma FirstEvent(e: TaskEventKind)
    ensures ReplayEvent(Replay([]), e) == if e.TaskSubmitted? then At(StateAfter([e])) else Broken
    ensures Coherent([e]) <==> e.TaskSubmitted?
  {
    LastState1([], e);
    assert [] + [e] == [e];
  }

  lemma BrokenStays(e: TaskEventKind)
    ensures ReplayEvent(Broken, e) == Broken
  {
  }
}
