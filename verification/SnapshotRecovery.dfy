/** `recover_snapshot` and `recover_task_snapshots` of crates/aios-storage-sqlite/src/lib.rs: the loop
    over stored events, proved equal to the replay of `Audit`. */
module SnapshotRecovery {
  import opened Basics
  import opened Lifecycle
  import opened Audit
  import opened Supervision
  import opened Stores
  import opened Recovery

  /** The loop's two variables as one replay value. */
  function Progress(state: Option<TaskState>, pendingFailure: bool): Replayed
    requires pendingFailure ==> state.Some?
  {
    if state.None? then Blank else if pendingFailure then Failing(state.value) else At(state.value)
  }

  lemma BrokenPrefix(log: Log, k: nat)
    requires k < |log| && ReplayEvent(Replay(log[..k]), log[k]) == Broken
    ensures Replay(log) == Broken
  {
    Replay1(log[..k], log[k]);
    assert log == (log[..k] + [log[k]]) + log[k + 1..];
    ReplayConcat(Blank, log[..k] + [log[k]], log[k + 1..]);
    BrokenForever(log[k + 1..]);
  }

  lemma PrefixGrows(events: seq<TaskEvent>, k: nat)
    requires k < |events|
    ensures Kinds(events)[..k + 1] == Kinds(events)[..k] + [events[k].kind]
    ensures Replay(Kinds(events)[..k + 1]) == ReplayEvent(Replay(Kinds(events)[..k]), events[k].kind)
  {
    Replay1(Kinds(events)[..k], events[k].kind);
  }

  /** Sequences 1, 2, 3 and so on. */
  ghost predicate Counted(events: seq<TaskEvent>) {
    forall i :: 0 <= i < |events| ==> events[i].sequence == i + 1
  }

  /** One iteration's match on the event kind, outside a pending failure. */
  method Accept(state: Option<TaskState>, kind: TaskEventKind) returns (r: Option<(Option<TaskState>, bool)>)
    ensures var next := ReplayEvent(Progress(state, false), kind);
            if r.None? then next == Broken
            else (r.value.1 ==> r.value.0.Some?) && r.value.0.Some? && next == Progress(r.value.0, r.value.1)
  {
    match kind {
    case TaskSubmitted =>
      if state.None? {
        return Some((Some(TaskState.Submitted), false));
      }
    case StateTransitioned(from, to) =>
      if state == Some(from) && from.CanTransitionTo(to) {
        return Some((Some(to), false));
      }
    case ValidationFailed(_) =>
      if state == Some(Validating) {
        return Some((state, false));
      }
    case TaskFailed(_) =>
      if state.Some? && !state.value.IsTerminal() {
        return Some((state, true));
      }
    case OperationAllowed =>
      if state == Some(Running) {
        return Some((state, false));
      }
    case OperationDenied(_) =>
      if state == Some(Running) {
        return Some((state, false));
      }
    case ApprovalRequested(_, _) =>
      if state == Some(Running) {
        return Some((state, false));
      }
    case ApprovalGranted(_, _) =>
      if state == Some(WaitingApproval) {
        return Some((state, false));
      }
    case ApprovalDenied(_, _) =>
      if state == Some(WaitingApproval) {
        return Some((state, false));
      }
    case ApprovalExpired(_, _) =>
      if state == Some(WaitingApproval) {
        return Some((state, false));
      }
    case ApprovalRevoked(_, _) =>
      if state == Some(Running) || state == Some(WaitingApproval) {
        return Some((state, false));
      }
    case ApprovalConsumed(_, _) =>
      if state == Some(Running) {
        return Some((state, false));
      }
    }
    return None;
  }

  /** `recover_snapshot`: a snapshot exactly for events that are numbered from 1 without gaps, do not
      exhaust the sequence range and replay to a state, which is then the snapshot's. */
  method RecoverSnapshot(task: TaskId, events: seq<TaskEvent>) returns (r: Result<TaskSnapshot, EventStoreError>)
    ensures r.Ok? <==> Counted(events) && |events| < U64_MAX && Replay(Kinds(events)).At?
    ensures r.Ok? ==> r.value == TaskSnapshot(task, Replay(Kinds(events)).state)
    ensures r.Err? ==> r.error == Corrupt || r.error == SequenceExhausted
    ensures r.Err? && |events| < U64_MAX ==> r.error == Corrupt
  {
    var state: Option<TaskState> := None;
    var expected := 1;
    var pendingFailure := false;
    ghost var log := Kinds(events);
    for i := 0 to |events|
      invariant expected == i + 1 && expected <= U64_MAX
      invariant forall k :: 0 <= k < i ==> events[k].sequence == k + 1
      invariant (pendingFailure ==> state.Some?) && (i > 0 ==> state.Some?)
      invariant Replay(log[..i]) == Progress(state, pendingFailure)
    {
      PrefixGrows(events, i);
      var event := events[i];
      if event.sequence != expected {
        return Err(Corrupt);
      }
      if expected == U64_MAX {
        return Err(SequenceExhausted);
      }
      expected := expected + 1;
      if pendingFailure {
        if event.kind == StateTransitioned(state.value, Failed) {
          state, pendingFailure := Some(Failed), false;
        } else {
          BrokenPrefix(log, i);
          return Err(Corrupt);
        }
      } else {
        var next := Accept(state, event.kind);
        if next.None? {
          BrokenPrefix(log, i);
          return Err(Corrupt);
        }
        state, pendingFailure := next.value.0, next.value.1;
      }
    }
    assert log[..|events|] == log;
    if pendingFailure || state.None? {
      return Err(Corrupt);
    }
    return Ok(TaskSnapshot(task, state.value));
  }

  /******* The whole table *******/

  function TasksIn(rows: Table): set<TaskId> { set k | k in rows :: k.0 }

  /** The table as the supervisor's model sees it. */
  ghost function TableLogs(rows: Table): Logs
    requires forall t :: Contiguous(rows, t)
  {
    map t | t in TasksIn(rows) :: Kinds(EventList(rows, t))
  }

  /** `recover_task_snapshots`: one snapshot per Task, in order, exactly if no query fails, which `fault`
      says, and every log replays. */
  method RecoverTaskSnapshots(store: SqliteEventStore, fault: bool)
    returns (r: Result<seq<TaskSnapshot>, EventStoreError>)
    requires store.Valid()
    ensures forall t :: Contiguous(store.rows, t)
    ensures r.Ok? <==> !fault && AllReplay(TableLogs(store.rows))
    ensures r.Ok? ==>
              var ids := Ascending(TasksIn(store.rows));
              |r.value| == |ids| && forall i :: 0 <= i < |ids| ==>
                r.value[i] == TaskSnapshot(ids[i], StateIn(TableLogs(store.rows), ids[i]))
    ensures r.Err? ==> r.error == if fault then Unavailable else Corrupt
  {
    ValidIsContiguous(store);
    if fault {
      return Err(Unavailable);
    }
    var ids := Ascending(TasksIn(store.rows));
    ghost var logs := TableLogs(store.rows);
    assert forall t :: t in ids <==> t in logs;
    var snapshots: seq<TaskSnapshot> := [];
    for i := 0 to |ids|
      invariant |snapshots| == i
      invariant forall k :: 0 <= k < i ==>
                  Replay(logs[ids[k]]).At? && snapshots[k] == TaskSnapshot(ids[k], StateIn(logs, ids[k]))
    {
      hide Replay, Ascending, Contiguous, Sequences;
      var events := store.List(ids[i], 0, false);
      EventsAreCounted(store, ids[i]);
      assert events.value == EventList(store.rows, ids[i]);
      assert ids[i] in ids && logs[ids[i]] == Kinds(events.value);
      var snapshot := RecoverSnapshot(ids[i], events.value);
      if snapshot.Err? {
        return Err(snapshot.error);
      }
      snapshots := snapshots + [snapshot.value];
    }
    forall t | t in logs ensures Replay(logs[t]).At? {
      assert t in ids;
    }
    return Ok(snapshots);
  }

  lemma ValidIsContiguous(store: SqliteEventStore)
    requires store.Valid()
    ensures forall t :: Contiguous(store.rows, t)
  {
    forall t ensures Contiguous(store.rows, t) {
      assert Dense(store.rows, t, store.maxEvents);
    }
  }

  lemma EventsAreCounted(store: SqliteEventStore, t: TaskId)
    requires store.Valid() && Contiguous(store.rows, t)
    ensures Counted(EventList(store.rows, t)) && |EventList(store.rows, t)| < U64_MAX
  {
    assert Dense(store.rows, t, store.maxEvents);
  }
}
