/** Restart: `TaskSupervisor::recover` in crates/aios-runtime/src/supervisor.rs, over the replay of
    crates/aios-storage-sqlite/src/lib.rs. */
module Recovery {
  import opened Basics
  import opened Lifecycle
  import opened Audit
  import opened Approval
  import opened Supervision
  import opened Capability
  import opened Soundness
  import opened Moves
  import opened Calls
  import opened Replaying
  import opened Coherence
  import opened Synchrony
  import opened Runs
  import opened Corruption

  type Logs = map<TaskId, Log>

  /** Every log replays: no `Corrupt`. */
  predicate AllReplay(logs: Logs) { forall t :: t in logs ==> Replay(logs[t]).At? }

  function StateIn(logs: Logs, t: TaskId): TaskState
    requires t in logs && Replay(logs[t]).At?
  {
    Replay(logs[t]).state
  }

  /** The states that replay reconstructs. */
  function Snapshots(logs: Logs): map<TaskId, TaskState>
    requires AllReplay(logs)
  {
    map t | t in logs :: StateIn(logs, t)
  }

  function RestartBatch(state: TaskState): Log {
    [TaskFailed(RuntimeRestarted), StateTransitioned(state, Failed)]
  }

  function Interrupted(states: map<TaskId, TaskState>): set<TaskId> {
    set t | t in states && !states[t].IsTerminal()
  }

  /** The loop over interrupted Tasks; it stops at the first refused batch. */
  function FailEach(log: AuditLog, states: map<TaskId, TaskState>, ids: seq<TaskId>)
    : (AuditLog, map<TaskId, TaskState>, Option<EventStoreError>)
    requires forall t :: t in ids ==> t in states
    decreases ids
  {
    if ids == [] then (log, states, None) else
    var (next, refusal) := log.Append(ids[0], RestartBatch(states[ids[0]]));
    if refusal.Some? then (next, states, refusal)
    else FailEach(next, states[ids[0] := Failed], ids[1..])
  }

  function FailInterrupted(log: AuditLog): (AuditLog, map<TaskId, TaskState>, Option<EventStoreError>)
    requires AllReplay(log.logs)
  {
    var states := Snapshots(log.logs);
    FailEach(log, states, Ascending(Interrupted(states)))
  }

  /** `recover`. The store outlives a failed recovery, so it is returned in every case; `used` holds
      the identifiers drawn before the restart, and `fault` says that the store cannot be read. */
  function Recover(log: AuditLog, maxTasks: nat, used: set<nat>, fault: Option<EventStoreError>)
    : (AuditLog, Result<Supervisor, SupervisorError>)
  {
    if maxTasks == 0 then (log, Err(TaskCapacityExceeded))
    else if fault.Some? then (log, Err(EventStore(fault.value)))
    else if !AllReplay(log.logs) then (log, Err(EventStore(Corrupt)))
    else if |log.logs| > maxTasks then (log, Err(TaskCapacityExceeded))
    else
      var (next, recovered, refusal) := FailInterrupted(log);
      (next, if refusal.Some? then Err(EventStore(refusal.value)) else Ok(Recovered(next, recovered, maxTasks, used)))
  }

  function Recovered(log: AuditLog, recovered: map<TaskId, TaskState>, maxTasks: nat, used: set<nat>): Supervisor {
    Supervisor(map[], recovered, map[], log, Fresh(DEFAULT_MAX_PENDING_APPROVALS, DEFAULT_MAX_TTL), map[], map[],
      maxTasks, used)
  }

  /******* What a restart means *******/

  /** The log of a Task after a restart: closed as failed if it was open. */
  function RestartedLog(log: Log): Log {
    var r := Replay(log);
    if r.At? && !r.state.IsTerminal() then log + RestartBatch(r.state) else log
  }

  function Restarted(logs: Logs): Logs { map t | t in logs :: RestartedLog(logs[t]) }

  lemma RestartReplays(log: Log)
    requires Replay(log).At?
    ensures Replay(RestartedLog(log)).At? && Replay(RestartedLog(log)).state.IsTerminal()
    ensures Replay(log).state.IsTerminal() ==> RestartedLog(log) == log
    ensures !Replay(log).state.IsTerminal() ==> Replay(RestartedLog(log)) == At(Failed)
  {
    var state := Replay(log).state;
    if !state.IsTerminal() {
      Replay2(log, TaskFailed(RuntimeRestarted), StateTransitioned(state, Failed));
    }
  }

  /** Restarting twice is restarting once. */
  lemma RestartedTwice(log: Log)
    ensures RestartedLog(RestartedLog(log)) == RestartedLog(log)
  {
    if Replay(log).At? {
      RestartReplays(log);
    }
  }

  /** How far the loop has come: the logs in `done` are closed, the others as they were. */
  ghost predicate Partly(logs: Logs, now: Logs, done: set<TaskId>) {
    && now.Keys == logs.Keys
    && forall t :: t in logs ==> now[t] == if t in done then RestartedLog(logs[t]) else logs[t]
  }

  ghost predicate StatesPartly(logs: Logs, states: map<TaskId, TaskState>, done: set<TaskId>)
    requires AllReplay(logs)
  {
    && states.Keys == logs.Keys
    && forall t :: t in logs ==> states[t] == if t in done then Failed else StateIn(logs, t)
  }

  /** However the loop ends, some of the interrupted Tasks are closed; all of them unless a batch was
      refused. */
  lemma {:induction false} FailEachCloses(logs: Logs, log: AuditLog, states: map<TaskId, TaskState>, ids: seq<TaskId>,
                                          done: set<TaskId>)
    returns (closed: set<TaskId>)
    requires AllReplay(logs) && Partly(logs, log.logs, done) && StatesPartly(logs, states, done)
    requires Increasing(ids) && forall t :: t in ids ==> t in logs && t !in done && !StateIn(logs, t).IsTerminal()
    ensures var (next, after, refusal) := FailEach(log, states, ids);
            && Partly(logs, next.logs, closed) && StatesPartly(logs, after, closed)
            && done <= closed && (forall t :: t in closed ==> t in done || t in ids)
            && (refusal.None? ==> forall t :: t in ids ==> t in closed)
            && next.capacity == log.capacity
    decreases ids
  {
    closed := done;
    if ids != [] {
      var t := ids[0];
      var (next, refusal) := log.Append(t, RestartBatch(states[t]));
      if refusal.None? {
        assert next.logs == log.logs[t := log.logs[t] + RestartBatch(states[t])];
        assert t in logs && log.logs[t] == logs[t];
        closed := FailEachCloses(logs, next, states[t := Failed], ids[1..], done + {t});
      }
    }
  }

  /** The loop as `recover` enters it. */
  lemma LoopCloses(log: AuditLog) returns (closed: set<TaskId>)
    requires AllReplay(log.logs)
    ensures var (next, after, refusal) := FailInterrupted(log);
            && Partly(log.logs, next.logs, closed) && StatesPartly(log.logs, after, closed)
            && closed <= Interrupted(Snapshots(log.logs))
            && (refusal.None? ==> closed == Interrupted(Snapshots(log.logs)))
            && next.capacity == log.capacity
  {
    hide FailEach;
    var states := Snapshots(log.logs);
    var ids := Ascending(Interrupted(states));
    closed := FailEachCloses(log.logs, log, states, ids, {});
    assert forall t :: t in closed ==> t in ids;
  }

  lemma PartlyRestarts(logs: Logs, now: Logs, done: set<TaskId>)
    requires Partly(logs, now, done)
    ensures Restarted(now) == Restarted(logs)
  {
    forall t | t in logs ensures RestartedLog(now[t]) == RestartedLog(logs[t]) {
      RestartedTwice(logs[t]);
    }
  }

  /** Crash safety: however recovery ends, whatever batches were refused and wherever it stopped, the
      logs are such that a restart leads to the same result as before. */
  lemma {:induction false} RecoverIsCrashSafe(log: AuditLog, maxTasks: nat, used: set<nat>,
                                              fault: Option<EventStoreError>)
    ensures Restarted(Recover(log, maxTasks, used, fault).0.logs) == Restarted(log.logs)
  {
    hide FailInterrupted, AllReplay, Restarted, RestartedLog, Replay, Recovered;
    if AllReplay(log.logs) {
      var closed := LoopCloses(log);
      PartlyRestarts(log.logs, FailInterrupted(log).0.logs, closed);
    }
  }

  /** A successful recovery closes the open logs and holds the state that each then replays to. */
  lemma RecoverRestarts(log: AuditLog, maxTasks: nat, used: set<nat>, fault: Option<EventStoreError>)
    requires Recover(log, maxTasks, used, fault).1.Ok?
    ensures var (next, r) := Recover(log, maxTasks, used, fault);
            && next.logs == Restarted(log.logs) && r.value == Recovered(next, r.value.recovered, maxTasks, used)
            && r.value.recovered.Keys == log.logs.Keys
            && forall t :: t in log.logs ==>
                             Replay(next.logs[t]) == At(r.value.recovered[t]) && r.value.recovered[t].IsTerminal()
  {
    hide FailInterrupted, Restarted, RestartedLog, StateIn;
    var closed := LoopCloses(log);
    var (next, r) := Recover(log, maxTasks, used, fault);
    assert FailInterrupted(log).2.None?;
    assert closed == Interrupted(Snapshots(log.logs));
    AllClosed(log.logs, next.logs, r.value.recovered, closed);
  }

  /** Task `t` was recovered: its log is as it was if its last transition was to a final state, and was
      otherwise extended by exactly the failure of the restart; the state held is the last one. */
  predicate RecoveredFrom(log: Log, next: Log, state: TaskState) {
    var last := StateAfter(log);
    if last in FINAL then next == log && state == last
    else next == log + [TaskFailed(RuntimeRestarted), StateTransitioned(last, Failed)] && state == Failed
  }

  lemma RestartIsFailure(log: Log)
    requires Replay(log).At?
    ensures Replay(RestartedLog(log)).At? && RecoveredFrom(log, RestartedLog(log), Replay(RestartedLog(log)).state)
  {
    hide Replay, LastState;
    RestartReplays(log);
    ReplaysIffCoherent(log);
    EdgesAreTransitions(StateAfter(log), Failed);
  }

  /** A successful recovery leaves terminal logs unchanged, extends every other log by exactly the failure
      of the restart, holds the final state of every Task, and nothing else. */
  lemma {:induction false} RecoverCloses(log: AuditLog, maxTasks: nat, used: set<nat>, fault: Option<EventStoreError>)
    requires Recover(log, maxTasks, used, fault).1.Ok?
    ensures var (next, r) := Recover(log, maxTasks, used, fault);
            var n := r.value;
            && next.logs.Keys == n.recovered.Keys == log.logs.Keys && n.store == next
            && (forall t :: t in log.logs ==> RecoveredFrom(log.logs[t], next.logs[t], n.recovered[t]))
            && n.tasks == map[] && n.idempotency == map[] && n.pending == map[] && n.approved == map[]
            && n.authority.pending == map[] && n.authority.index == map[]
            && n.maxTasks == maxTasks && n.used == used
  {
    RecoverRestarts(log, maxTasks, used, fault);
    RecoveredReplays(log, maxTasks, used, fault);
    hide Recover, RestartedLog, Replay, RecoveredFrom;
    var (next, r) := Recover(log, maxTasks, used, fault);
    forall t | t in log.logs ensures RecoveredFrom(log.logs[t], next.logs[t], r.value.recovered[t]) {
      RestartIsFailure(log.logs[t]);
    }
  }

  lemma RecoveredReplays(log: AuditLog, maxTasks: nat, used: set<nat>, fault: Option<EventStoreError>)
    requires Recover(log, maxTasks, used, fault).1.Ok?
    ensures AllReplay(log.logs)
  {
    hide FailInterrupted, AllReplay;
  }

  /** The store holds a log that is not coherent or breaks off before the transition of a failure. */
  ghost predicate HoldsCorrupt(logs: Logs) {
    exists t :: t in logs && (!Coherent(logs[t]) || logs[t][|logs[t]| - 1].TaskFailed?)
  }

  lemma CorruptIffNotAllReplay(logs: Logs)
    ensures HoldsCorrupt(logs) <==> !AllReplay(logs)
  {
    hide Replay, MayFollow;
    forall t | t in logs
      ensures Replay(logs[t]).At? <==> Coherent(logs[t]) && !logs[t][|logs[t]| - 1].TaskFailed?
    {
      ReplaysIffCoherent(logs[t]);
    }
  }

  /** Why recovery fails, and that it has then changed nothing unless the backend refused a batch. */
  lemma {:induction false} RecoverAnswers(log: AuditLog, maxTasks: nat, used: set<nat>, fault: Option<EventStoreError>)
    ensures var (next, r) := Recover(log, maxTasks, used, fault);
            if maxTasks == 0 then next == log && r == Err(TaskCapacityExceeded)
            else if fault.Some? then next == log && r == Err(EventStore(fault.value))
            else if HoldsCorrupt(log.logs) then next == log && r == Err(EventStore(Corrupt))
            else if |log.logs| > maxTasks then next == log && r == Err(TaskCapacityExceeded)
            else r.Err? ==>
              && r.error.EventStore?
              && (Some(r.error.store) in log.plan || r.error.store == EventStoreError.CapacityExceeded)
  {
    hide HoldsCorrupt, AllReplay;
    CorruptIffNotAllReplay(log.logs);
    if AllReplay(log.logs) {
      var states := Snapshots(log.logs);
      RefusalIsPlanned(log, states, Ascending(Interrupted(states)));
    }
  }

  lemma {:induction false} RefusalIsPlanned(log: AuditLog, states: map<TaskId, TaskState>, ids: seq<TaskId>)
    requires forall t :: t in ids ==> t in states
    ensures var refusal := FailEach(log, states, ids).2;
            refusal.Some? ==> refusal in log.plan || refusal == Some(EventStoreError.CapacityExceeded)
    decreases ids
  {
    if ids != [] {
      var (next, refusal) := log.Append(ids[0], RestartBatch(states[ids[0]]));
      if refusal.None? {
        RefusalIsPlanned(next, states[ids[0] := Failed], ids[1..]);
        assert forall x :: x in next.plan ==> x in log.plan;
      }
    }
  }

  lemma AllClosed(logs: Logs, now: Logs, states: map<TaskId, TaskState>, closed: set<TaskId>)
    requires AllReplay(logs) && closed == Interrupted(Snapshots(logs))
    requires Partly(logs, now, closed) && StatesPartly(logs, states, closed)
    ensures now == Restarted(logs) && states.Keys == logs.Keys
    ensures forall t :: t in logs ==> Replay(now[t]) == At(states[t]) && states[t].IsTerminal()
  {
    forall t | t in logs
      ensures now[t] == RestartedLog(logs[t]) && Replay(now[t]) == At(states[t]) && states[t].IsTerminal()
    {
      RestartReplays(logs[t]);
    }
  }

  /** Against a backend that refuses nothing but full logs, recovery succeeds exactly if the limit is
      not zero, the store can be read, every log replays, the Tasks fit and every open log has room for two events. */
  lemma {:induction false} RecoverSucceedsIff(log: AuditLog, maxTasks: nat, used: set<nat>,
                                              fault: Option<EventStoreError>)
    requires log.plan == []
    ensures Recover(log, maxTasks, used, fault).1.Ok? <==>
            && 0 < maxTasks && fault.None? && AllReplay(log.logs) && |log.logs| <= maxTasks
            && forall t :: t in log.logs && !StateIn(log.logs, t).IsTerminal() ==> |log.logs[t]| + 2 <= log.capacity
  {
    if AllReplay(log.logs) {
      var states := Snapshots(log.logs);
      var ids := Ascending(Interrupted(states));
      FailEachAccepts(log, states, ids);
      hide FailEach, Ascending;
      forall t | t in ids ensures t in log.logs && !StateIn(log.logs, t).IsTerminal() {
      }
      forall t | t in log.logs && !StateIn(log.logs, t).IsTerminal() ensures t in ids {
        assert t in Interrupted(states);
      }
    }
  }

  lemma {:induction false} FailEachAccepts(log: AuditLog, states: map<TaskId, TaskState>, ids: seq<TaskId>)
    requires log.plan == [] && Increasing(ids) && forall t :: t in ids ==> t in states && t in log.logs
    ensures FailEach(log, states, ids).2.None? <==> forall t :: t in ids ==> |log.logs[t]| + 2 <= log.capacity
    decreases ids
  {
    if ids != [] {
      var t := ids[0];
      var (next, refusal) := log.Append(t, RestartBatch(states[t]));
      assert refusal.None? <==> |log.logs[t]| + 2 <= log.capacity;
      if refusal.None? {
        assert forall u :: u in ids[1..] ==> u != t && next.logs[u] == log.logs[u];
        FailEachAccepts(next, states[t := Failed], ids[1..]);
        assert forall u :: u in ids <==> u == t || u in ids[1..];
      }
    }
  }

  /** Once every log has ended, recovery appends nothing, whatever the backend would do: in particular
      after a successful recovery. */
  lemma {:induction false} RecoverTwice(log: AuditLog, maxTasks: nat, used: set<nat>, fault: Option<EventStoreError>)
    requires Recover(log, maxTasks, used, fault).1.Ok?
    ensures var (next, r) := Recover(log, maxTasks, used, fault);
            Recover(next, maxTasks, used, None) == (next, Ok(r.value))
  {
    hide FailInterrupted, Replay, Restarted;
    RecoverRestarts(log, maxTasks, used, fault);
    var (next, r) := Recover(log, maxTasks, used, fault);
    RestartedKeys(log.logs);
    assert next.logs.Keys == log.logs.Keys && |next.logs.Keys| == |log.logs.Keys|;
    assert AllReplay(next.logs);
    NothingInterrupted(next, r.value.recovered);
  }

  lemma NothingInterrupted(log: AuditLog, recovered: map<TaskId, TaskState>)
    requires recovered.Keys == log.logs.Keys
    requires forall t :: t in log.logs ==> Replay(log.logs[t]) == At(recovered[t]) && recovered[t].IsTerminal()
    ensures AllReplay(log.logs) && Snapshots(log.logs) == recovered
    ensures FailInterrupted(log) == (log, recovered, None)
  {
    assert Interrupted(recovered) == {};
    assert Ascending(Interrupted(recovered)) == [];
  }

  /******* Runs across restarts *******/

  lemma RestartBatchIsUnconcerned(log: Log, a: ApprovalId)
    ensures LifeIn(RestartedLog(log), a) == LifeIn(log, a)
  {
    var r := Replay(log);
    if r.At? && !r.state.IsTerminal() {
      LifeUnconcerned(log, RestartBatch(r.state), a);
    }
  }

  lemma RecoveredLives(s: Supervisor, n: Supervisor)
    requires LivesSound(s) && n.store.logs == Restarted(s.store.logs) && n.tasks == map[] && n.used == s.used
    ensures LivesSound(n)
  {
    forall t, a ensures LifeSound(n, t, a) {
      assert LifeSound(s, t, a);
      if t in n.store.logs {
        RestartBatchIsUnconcerned(s.store.logs[t], a);
      }
    }
    forall t, u, a | t in n.store.logs && u in n.store.logs && t != u && LifeIn(n.store.logs[t], a) != Absent
      ensures LifeIn(n.store.logs[u], a) == Absent
    {
      RestartBatchIsUnconcerned(s.store.logs[t], a);
      RestartBatchIsUnconcerned(s.store.logs[u], a);
    }
  }

  /** A supervisor recovered from the store of a sound one, possibly after recoveries that failed, is
      sound and synchronous, so everything proved of runs holds across restarts. */
  lemma {:induction false} RecoveredIsSound(s: Supervisor, log: AuditLog, maxTasks: nat, fault: Option<EventStoreError>)
    requires Sound(s) && Restarted(log.logs) == Restarted(s.store.logs) && Recover(log, maxTasks, s.used, fault).1.Ok?
    ensures var n := Recover(log, maxTasks, s.used, fault).1.value; Sound(n) && Synced(n)
  {
    hide Recover, LivesSound, TasksSound, Replay, Restarted, Authority.Consistent;
    RecoverRestarts(log, maxTasks, s.used, fault);
    var (next, r) := Recover(log, maxTasks, s.used, fault);
    var n := r.value;
    RestartedKeys(s.store.logs);
    RestartedKeys(log.logs);
    assert n.store == next;
    RecoveredLives(s, n);
    RecoveredTasks(s, n);
    FreshIsConsistent();
  }

  lemma FreshIsConsistent()
    ensures Fresh(DEFAULT_MAX_PENDING_APPROVALS, DEFAULT_MAX_TTL).Consistent()
  {
  }

  lemma RestartedKeys(logs: Logs)
    ensures Restarted(logs).Keys == logs.Keys
  {
  }

  lemma RecoveredTasks(s: Supervisor, n: Supervisor)
    requires TasksSound(s) && n.store.logs.Keys == s.store.logs.Keys && n.recovered.Keys == s.store.logs.Keys
    requires n.tasks == map[] && n.idempotency == map[] && n.used == s.used
    requires forall t :: t in n.recovered ==> n.recovered[t].IsTerminal()
    ensures TasksSound(n)
  {
    forall t | t in n.recovered ensures RecoveredSound(n, t) {
      assert t in n.store.logs.Keys && t in s.store.logs;
    }
  }

  /******* Every run leaves a store that can be recovered *******/

  /** Every log belongs to a Task that the supervisor knows. */
  ghost predicate LogsKnown(s: Supervisor) {
    forall t :: t in s.store.logs ==> t in s.tasks || t in s.recovered
  }

  lemma MoveKnowsLogs(s: Supervisor, m: Move, n: Supervisor)
    requires LogsKnown(s) && Does(s, m, n)
    ensures LogsKnown(n)
  {
    hide ErrorCount, Batch;
    if Advances(m) {
      hide Does;
      MoveAdvances(s, m, n);
    }
  }

  lemma {:induction false} ChainKnowsLogs(s: Supervisor, path: Path, n: Supervisor)
    requires LogsKnown(s) && Reaches(s, path, n)
    ensures LogsKnown(n)
    decreases path
  {
    hide Does, LogsKnown;
    if path != [] {
      MoveKnowsLogs(s, path[0].move, path[0].to);
      ChainKnowsLogs(path[0].to, path[1..], n);
    }
  }

  lemma {:induction false} RunKnowsLogs(s: Supervisor, cs: seq<Command>)
    requires Sound(s) && LogsKnown(s) && Drawn(s, cs)
    ensures LogsKnown(Run(s, cs))
    decreases cs
  {
    hide Sound, LogsKnown, Step, DrawsFresh;
    if cs != [] {
      var path := StepReaches(s, cs[0]);
      ChainKnowsLogs(s, path, Step(s, cs[0]));
      StepSound(s, cs[0]);
      RunKnowsLogs(Step(s, cs[0]), cs[1..]);
    }
  }

  lemma ReplayingStore(s: Supervisor)
    requires LogsKnown(s) && LogsReplay(s)
    ensures AllReplay(s.store.logs)
  {
    forall t | t in s.store.logs ensures Replay(s.store.logs[t]).At? {
      assert TaskSynced(s, t);
    }
  }

  lemma BrokenStore(s: Supervisor)
    requires SomeLogBroken(s)
    ensures !AllReplay(s.store.logs)
  {
    hide Replay;
    var t :| t in s.tasks && t in s.store.logs && Replay(s.store.logs[t]) == Broken;
  }

  /** After any run, orderly or not, every log replays if and only if no call of the run closed the pending
      operation of a running Task. If one did, then every later recovery of that store fails as corrupt,
      whatever the backend accepts. */
  lemma {:induction false} RunsAreRecoverable(s: Supervisor, cs: seq<Command>)
    requires Sound(s) && LogsReplay(s) && LogsKnown(s) && Drawn(s, cs)
    ensures AllReplay(Run(s, cs).store.logs) <==> Uncorrupted(s, cs)
    ensures !Uncorrupted(s, cs) ==>
              forall log: AuditLog, maxTasks: nat, used :: log.logs == Run(s, cs).store.logs && maxTasks > 0 ==>
                Recover(log, maxTasks, used, None) == (log, Err(EventStore(Corrupt)))
  {
    hide Sound, LogsReplay, LogsKnown, Run, Uncorrupted, Drawn, AllReplay, SomeLogBroken;
    RunReplaysIff(s, cs);
    if Uncorrupted(s, cs) {
      RunKnowsLogs(s, cs);
      ReplayingStore(Run(s, cs));
    } else {
      BrokenStore(Run(s, cs));
    }
  }

  /******* Lives of a supervisor *******/

  /** One attempt to recover, against a backend with its own read fault and pattern of refusals. */
  datatype Attempt = Attempt(maxTasks: nat, plan: seq<Option<EventStoreError>>, fault: Option<EventStoreError>)

  /** A run, then any number of attempts to recover, and a last one. */
  datatype Era = Era(commands: seq<Command>, attempts: seq<Attempt>, last: Attempt)

  function Attempted(log: AuditLog, attempts: seq<Attempt>, used: set<nat>): AuditLog
    decreases attempts
  {
    if attempts == [] then log
    else Attempted(Recover(log.(plan := attempts[0].plan), attempts[0].maxTasks, used, attempts[0].fault).0,
      attempts[1..], used)
  }

  function Outcome(s: Supervisor, e: Era): (AuditLog, Result<Supervisor, SupervisorError>) {
    var end := Run(s, e.commands);
    Recover(Attempted(end.store, e.attempts, end.used).(plan := e.last.plan), e.last.maxTasks, end.used, e.last.fault)
  }

  /** `n` is reached from `s` through orderly runs with successful restarts in between. */
  ghost predicate Survives(s: Supervisor, eras: seq<Era>, n: Supervisor)
    decreases eras
  {
    if eras == [] then s == n
    else
      && Drawn(s, eras[0].commands) && OrderlyRun(s, eras[0].commands) && Outcome(s, eras[0]).1.Ok?
      && Survives(Outcome(s, eras[0]).1.value, eras[1..], n)
  }

  lemma {:induction false} AttemptsAreCrashSafe(log: AuditLog, attempts: seq<Attempt>, used: set<nat>)
    ensures Restarted(Attempted(log, attempts, used).logs) == Restarted(log.logs)
    decreases attempts
  {
    hide Recover, Restarted;
    if attempts != [] {
      RecoverIsCrashSafe(log.(plan := attempts[0].plan), attempts[0].maxTasks, used, attempts[0].fault);
      AttemptsAreCrashSafe(Recover(log.(plan := attempts[0].plan), attempts[0].maxTasks, used, attempts[0].fault).0,
        attempts[1..], used);
    }
  }

  /** One era keeps the invariants of runs and ends with exactly the restarted logs of its run, however
      many attempts it took. */
  lemma {:induction false} EraIsSound(s: Supervisor, e: Era)
    requires Sound(s) && Synced(s) && Drawn(s, e.commands) && OrderlyRun(s, e.commands) && Outcome(s, e).1.Ok?
    ensures var n := Outcome(s, e).1.value;
            Sound(n) && Synced(n) && LogsKnown(n) && n.store.logs == Restarted(Run(s, e.commands).store.logs)
  {
    hide Sound, Synced, Recover, Restarted, Drawn, OrderlyRun, Run;
    var end := Run(s, e.commands);
    RunSynced(s, e.commands);
    AttemptsAreCrashSafe(end.store, e.attempts, end.used);
    var log := Attempted(end.store, e.attempts, end.used).(plan := e.last.plan);
    RecoveredIsSound(end, log, e.last.maxTasks, e.last.fault);
    RecoverRestarts(log, e.last.maxTasks, end.used, e.last.fault);
    RestartedKeys(log.logs);
  }

  /** Everything proved of sound and synchronous states holds through any number of lives. */
  lemma {:induction false} LivesAreSound(s: Supervisor, eras: seq<Era>, n: Supervisor)
    requires Sound(s) && Synced(s) && LogsKnown(s) && Survives(s, eras, n)
    ensures Sound(n) && Synced(n) && LogsKnown(n)
    decreases eras
  {
    hide Sound, Synced, LogsKnown, Outcome, Drawn, OrderlyRun;
    if eras != [] {
      EraIsSound(s, eras[0]);
      LivesAreSound(Outcome(s, eras[0]).1.value, eras[1..], n);
    }
  }

  /** In every life of a supervisor, after every orderly run, replaying a Task's log gives the state in
      memory, and the store can be recovered again. */
  lemma {:induction false} ReplaySurvivesRestarts(maxTasks: nat, capacity: nat, plan: seq<Option<EventStoreError>>,
                                                  eras: seq<Era>, n: Supervisor, cs: seq<Command>)
    requires Survives(Empty(maxTasks, capacity, plan), eras, n) && Drawn(n, cs) && OrderlyRun(n, cs)
    ensures var end := Run(n, cs);
            && AllReplay(end.store.logs)
            && forall t :: t in end.tasks ==> t in end.store.logs && Replay(end.store.logs[t]) == At(end.tasks[t].state)
  {
    EmptyIsSound(maxTasks, capacity, plan);
    hide Sound, Survives, Drawn, OrderlyRun, Run, Replay;
    LivesAreSound(Empty(maxTasks, capacity, plan), eras, n);
    RunKnowsLogs(n, cs);
    RunSynced(n, cs);
    var end := Run(n, cs);
    ReplayingStore(end);
    forall t | t in end.tasks ensures t in end.store.logs && Replay(end.store.logs[t]) == At(end.tasks[t].state) {
      assert TaskSynced(end, t);
    }
  }

  /** A log that replays has no event after a terminal transition, and none at all if its Task is open. */
  lemma {:induction false} ReplayedEndsOnce(log: Log)
    requires Replay(log) != Broken
    ensures EndsOnce(log)
    ensures !(Replay(log).At? && Replay(log).state.IsTerminal()) ==>
              forall i :: 0 <= i < |log| ==> !(log[i].StateTransitioned? && log[i].to.IsTerminal())
  {
    if log != [] {
      var k := |log| - 1;
      var before := log[..k];
      assert log == before + [log[k]];
      Replay1(before, log[k]);
      ReplayedEndsOnce(before);
    }
  }

  /** Through any number of lives and after any run, orderly or not, a log that holds a terminal
      transition ends with it: also those of recovered Tasks. */
  lemma {:induction false} TerminalSurvivesRestarts(maxTasks: nat, capacity: nat, plan: seq<Option<EventStoreError>>,
                                                    eras: seq<Era>, n: Supervisor, cs: seq<Command>)
    requires Survives(Empty(maxTasks, capacity, plan), eras, n) && Drawn(n, cs)
    ensures LogsEndOnce(Run(n, cs))
  {
    EmptyIsSound(maxTasks, capacity, plan);
    hide Sound, Survives, Drawn, Run, Replay;
    LivesAreSound(Empty(maxTasks, capacity, plan), eras, n);
    forall t | t in n.store.logs ensures EndsOnce(n.store.logs[t]) {
      assert TaskSynced(n, t);
      ReplayedEndsOnce(n.store.logs[t]);
    }
    RunEndsLogsOnce(n, cs);
  }
}
