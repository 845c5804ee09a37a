/** Three runs from the empty supervisor that show what goes wrong: a restart of a waiting Task whose
    later denial breaks its log, a denial that leaves an approved operation behind, and a sweep that fails
    one Task before it is refused. */
module Disorder {
  import opened Basics
  import opened Lifecycle
  import opened Capability
  import opened Audit
  import opened Approval
  import opened Supervision
  import opened Soundness
  import opened Replaying
  import opened Runs
  import opened Sweeps
  import opened Corruption
  import opened Subsidence
  import opened Lingering
  import opened AgentCalls
  import opened Scenarios

  /** A Task that waits for approval 2 of operation 1 since 7. */
  const BEGINNING: seq<Command> := OpeningOf("k", 0, 1, 2, 7)

  function Asked(maxTasks: nat, plan: seq<Option<EventStoreError>>): Supervisor {
    Waiting(Empty(maxTasks, 100, plan), "k", 0, 1, 2, 7)
  }

  const FIRST: PendingApproval := PendingApproval(0, 1, "a", 7 + MILLISECOND)

  lemma EmptyIsRoomy(maxTasks: nat, plan: seq<Option<EventStoreError>>)
    requires maxTasks > 0 && forall j :: 0 <= j < |plan| && j < 3 ==> plan[j].None?
    ensures Roomy(Empty(maxTasks, 100, plan), "k", 0, 1, 7)
  {
    AsciiLength("k");
    assert Empty(maxTasks, 100, plan).authority.ExpiredIds(7) == [];
  }

  lemma Begins(maxTasks: nat, plan: seq<Option<EventStoreError>>)
    requires maxTasks > 0 && forall j :: 0 <= j < |plan| && j < 3 ==> plan[j].None?
    ensures Drawn(Empty(maxTasks, 100, plan), BEGINNING)
    ensures Run(Empty(maxTasks, 100, plan), BEGINNING) == Asked(maxTasks, plan)
    ensures var w := Asked(maxTasks, plan);
            && w.pending == map[2 := PendingOperation(0, 1, CALL)] && w.approved == map[] && w.used == {0, 1, 2}
            && w.authority == Fresh(DEFAULT_MAX_PENDING_APPROVALS, DEFAULT_MAX_TTL).Insert(2, FIRST)
            && w.authority.pending == map[2 := FIRST] && w.recovered == map[] && w.maxTasks == maxTasks
            && w.tasks == map[0 := TaskRecord(SpecOf("k"), WaitingApproval, Some(7))] && w.idempotency == map["k" := 0]
            && |w.store.LogOf(0)| == 6 && (forall u :: u != 0 ==> w.store.LogOf(u) == [])
            && w.store.capacity == 100 && w.store.plan == plan[if |plan| < 3 then |plan| else 3..]
  {
    hide Roomy, Drawn, Run, Waiting;
    EmptyIsRoomy(maxTasks, plan);
    OpeningRuns(Empty(maxTasks, 100, plan), "k", 0, 1, 2, 7);
    WaitingState(Empty(maxTasks, 100, plan), "k", 0, 1, 2, 7);
  }

  /** A call that sweeps nothing and denies nothing keeps logs replaying. */
  lemma QuietCallKeeps(s: Supervisor, c: Command)
    requires Sound(s) && LogsReplay(s) && DrawsFresh(s, c) && Swept(s, c) == [] && !c.CallDeny?
    ensures Sound(Step(s, c)) && LogsReplay(Step(s, c))
  {
    hide Sound, LogsReplay, DrawsFresh, Step, Swept, SweepCorrupts, DenialCorrupts;
    NothingSwept(s);
    StepSound(s, c);
    StepReplaysIff(s, c);
  }

  lemma OpeningKeeps(s: Supervisor, key: string, t: TaskId, o: OperationId, a: ApprovalId, now: nat)
    requires Sound(s) && LogsReplay(s) && Roomy(s, key, t, o, now)
    requires t !in s.used && o !in s.used && a !in s.used && t != o && t != a && o != a
    ensures Sound(Waiting(s, key, t, o, a, now)) && LogsReplay(Waiting(s, key, t, o, a, now))
  {
    hide Sound, LogsReplay, Roomy, Waiting, Supervisor.RequestOperation, Supervisor.Start, Supervisor.Submit, Logged,
         Authority.ExpiredIds;
    var s1, s2 := AfterSubmit(s, key, t), AfterStart(s, key, t, now);
    Submits(s, key, t, o, now);
    QuietCallKeeps(s, CallSubmit(SpecOf(key), t));
    Starts(s, key, t, o, now);
    QuietCallKeeps(s1, CallStart(t, now));
    Asks(s, key, t, o, a, now);
    StartedIsOpenable(s, key, t, o, now);
    QuietCallKeeps(s2, CallRequest(t, CALL, MILLISECOND, now, now, o, a));
  }

  lemma BeginningReplays(maxTasks: nat, plan: seq<Option<EventStoreError>>)
    requires maxTasks > 0 && forall j :: 0 <= j < |plan| && j < 3 ==> plan[j].None?
    ensures Sound(Asked(maxTasks, plan)) && LogsReplay(Asked(maxTasks, plan))
  {
    var s := Empty(maxTasks, 100, plan);
    EmptyIsSound(maxTasks, 100, plan);
    assert LogsReplay(s);
    hide Sound, LogsReplay, Roomy, Waiting;
    EmptyIsRoomy(maxTasks, plan);
    OpeningKeeps(s, "k", 0, 1, 2, 7);
  }

  /******* A restart, then a denial *******/

  const RESTART: Command := CallStart(0, 8)
  const DENIAL: Command := CallDeny(2, 9)

  lemma Restarted()
    ensures var w := Asked(1, []);
            Step(w, RESTART) ==
            w.(store := Logged(w.store, 0, [StateTransitioned(WaitingApproval, Running)]),
               tasks := map[0 := TaskRecord(SpecOf("k"), Running, Some(8))])
  {
    hide Waiting, Step, Drawn, Run;
    Begins(1, []);
    StartStep(Asked(1, []), 0, 8);
  }

  lemma RestartedDenied()
    ensures var n := Step(Asked(1, []), RESTART);
            && Step(n, DENIAL).tasks == map[0 := TaskRecord(SpecOf("k"), Failed, Some(8))]
            && Corrupts(n, DENIAL)
  {
    hide Waiting, Step, Drawn, Run, Authority.ExpiredIds;
    Begins(1, []);
    Restarted();
    var n := Step(Asked(1, []), RESTART);
    OneExpired(n.authority, 2, FIRST, 9);
    DenyStep(n, 2, 9);
    assert Orphan(n, 2) && Takes(n, 2, 0);
  }

  /** Five calls, every one accepted, that restart a waiting Task: its start is rewritten from 7 to 8,
      its approval is denied while it is running, and its log no longer replays. */
  lemma {:induction false} RestartBreaksReplay()
    ensures Drawn(Empty(1, 100, []), BEGINNING)
    ensures var waiting := Run(Empty(1, 100, []), BEGINNING);
            var restarted := Step(waiting, RESTART);
            var denied := Step(restarted, DENIAL);
            && waiting.tasks == map[0 := TaskRecord(SpecOf("k"), WaitingApproval, Some(7))]
            && restarted.tasks == map[0 := TaskRecord(SpecOf("k"), Running, Some(8))]
            && denied.tasks == map[0 := TaskRecord(SpecOf("k"), Failed, Some(8))]
            && Replay(denied.store.LogOf(0)) == Broken
  {
    hide Step, Drawn, Run, Waiting, Corrupts, Sound, LogsReplay;
    Begins(1, []);
    BeginningReplays(1, []);
    Restarted();
    RestartedDenied();
    var w := Asked(1, []);
    NoSweepToStart(w);
    QuietCallKeeps(w, RESTART);
    StepReplaysIff(Step(w, RESTART), DENIAL);
  }

  lemma NoSweepToStart(s: Supervisor)
    ensures Swept(s, RESTART) == []
  {
  }

  /******* A grant that is not used, then a denial *******/

  const APPROVAL: Command := CallApprove(2, 8, 8)
  const ASK_AGAIN: Command := CallRequest(0, CALL, MILLISECOND, 9, 9, 3, 4)
  const REFUSAL: Command := CallDeny(4, 9)
  const UNUSED: ApprovedOperation := ApprovedOperation(0, CALL, ApprovalGrant(2, 0, 1, "a", 7 + MILLISECOND))
  const NOTHING: Authority := Fresh(DEFAULT_MAX_PENDING_APPROVALS, DEFAULT_MAX_TTL)

  lemma Approved()
    ensures var n := Step(Asked(1, []), APPROVAL);
            && n.tasks == map[0 := TaskRecord(SpecOf("k"), Running, Some(7))] && n.approved == map[1 := UNUSED]
            && n.pending == map[] && n.authority == NOTHING && |n.store.LogOf(0)| == 8
            && n.store.capacity == 100 && n.store.plan == [] && n.used == {0, 1, 2}
  {
    hide Waiting, Step, Drawn, Run, Authority.ExpiredIds;
    Begins(1, []);
    var w := Asked(1, []);
    OneExpired(w.authority, 2, FIRST, 8);
    ApproveStep(w, 2, 8);
    RemoveUndoesInsert(NOTHING, 2, FIRST);
    assert w.pending - {2} == map[];
  }

  lemma AskedAgain(s: Supervisor)
    requires s.tasks == map[0 := TaskRecord(SpecOf("k"), Running, Some(7))] && s.pending == map[]
             && s.authority == NOTHING
    requires |s.store.LogOf(0)| == 8 && s.store.capacity == 100 && s.store.plan == []
    ensures var n := Step(s, ASK_AGAIN);
            && n.tasks == map[0 := TaskRecord(SpecOf("k"), WaitingApproval, Some(7))] && n.approved == s.approved
            && n.pending == map[4 := PendingOperation(0, 3, CALL)]
            && n.authority.pending == map[4 := PendingApproval(0, 3, "a", 9 + MILLISECOND)]
            && |n.store.LogOf(0)| == 10 && n.store.capacity == 100 && n.store.plan == []
  {
    hide Step, ErrorCount, Evaluate, IsValidAction;
    AsciiLength("k");
    SpecIsValid("k");
    assert s.PendingOf(0) == {};
    assert NOTHING.ExpiredIds(9) == [];
    RequestStep(s, 0, CALL, MILLISECOND, 9, 3, 4);
  }

  lemma DeniedAgain(s: Supervisor)
    requires s.tasks == map[0 := TaskRecord(SpecOf("k"), WaitingApproval, Some(7))]
    requires s.pending == map[4 := PendingOperation(0, 3, CALL)]
    requires s.authority.pending == map[4 := PendingApproval(0, 3, "a", 9 + MILLISECOND)]
    requires |s.store.LogOf(0)| == 10 && s.store.capacity == 100 && s.store.plan == []
    ensures Step(s, REFUSAL).tasks == map[0 := TaskRecord(SpecOf("k"), Failed, Some(7))]
    ensures Step(s, REFUSAL).approved == s.approved
  {
    hide Step, Authority.ExpiredIds, Authority.Remove;
    OneExpired(s.authority, 4, PendingApproval(0, 3, "a", 9 + MILLISECOND), 9);
    DenyStep(s, 4, 9);
  }

  /** Six calls, every one accepted, that leave an approved operation at a Task that has ended: it is
      granted, a second operation is requested, and that one is denied. */
  lemma {:induction false} DenialLeavesApproved()
    ensures Drawn(Empty(1, 100, []), BEGINNING)
    ensures var n := Step(Step(Step(Run(Empty(1, 100, []), BEGINNING), APPROVAL), ASK_AGAIN), REFUSAL);
            && n.tasks == map[0 := TaskRecord(SpecOf("k"), Failed, Some(7))] && n.approved == map[1 := UNUSED]
            && Lingers(n, 0)
  {
    hide Step, Drawn, Run, Waiting;
    Begins(1, []);
    Approved();
    var s := Step(Asked(1, []), APPROVAL);
    AskedAgain(s);
    DeniedAgain(Step(s, ASK_AGAIN));
    var n := Step(Step(s, ASK_AGAIN), REFUSAL);
    assert 1 in n.ApprovedOf(0);
  }

  /******* A sweep that is refused midway *******/

  const PLAN: seq<Option<EventStoreError>> := [None, None, None, None, None, None, None, Some(Unavailable)]
  const OTHER: seq<Command> := OpeningOf("l", 3, 4, 5, 7)
  const LATE: nat := 7 + MILLISECOND

  function BothAsked(): Supervisor { Waiting(Asked(2, PLAN), "l", 3, 4, 5, 7) }

  lemma SecondIsRoomy()
    ensures Roomy(Asked(2, PLAN), "l", 3, 4, 7)
  {
    hide Drawn, Run, Waiting, Authority.ExpiredIds;
    AsciiLength("l");
    Begins(2, PLAN);
    OneExpired(Asked(2, PLAN).authority, 2, FIRST, 7);
  }

  lemma BothBegin()
    ensures Drawn(Asked(2, PLAN), OTHER) && Run(Asked(2, PLAN), OTHER) == BothAsked()
    ensures var w := BothAsked();
            && w.pending == map[2 := PendingOperation(0, 1, CALL), 5 := PendingOperation(3, 4, CALL)]
            && w.authority.pending == map[2 := FIRST, 5 := PendingApproval(3, 4, "a", LATE)]
            && w.tasks == map[0 := TaskRecord(SpecOf("k"), WaitingApproval, Some(7)),
                              3 := TaskRecord(SpecOf("l"), WaitingApproval, Some(7))]
            && |w.store.LogOf(0)| == 6 && |w.store.LogOf(3)| == 6 && w.store.capacity == 100
            && w.store.plan == [None, Some(Unavailable)]
  {
    hide Roomy, Drawn, Run, Waiting;
    Begins(2, PLAN);
    SecondIsRoomy();
    OpeningRuns(Asked(2, PLAN), "l", 3, 4, 5, 7);
    WaitingState(Asked(2, PLAN), "l", 3, 4, 5, 7);
  }

  lemma BothExpired()
    ensures BothAsked().authority.ExpiredIds(LATE) == [2, 5]
  {
    hide Drawn, Run, Waiting, Authority.ExpiredIds;
    BothBegin();
    TwoExpired(BothAsked().authority, 2, FIRST, 5, PendingApproval(3, 4, "a", LATE), LATE);
  }

  /** Six accepted calls after which the sweep fails the first Task and is then refused, so that
      `expire_approvals` fails although it has ended a Task: a session of that Task would be kept. */
  lemma {:induction false} SweepFailsMidway()
    ensures Drawn(Empty(2, 100, PLAN), BEGINNING) && Drawn(Run(Empty(2, 100, PLAN), BEGINNING), OTHER)
    ensures var s := Run(Run(Empty(2, 100, PLAN), BEGINNING), OTHER);
            && Sound(s) && s.authority.ExpiredIds(LATE) == [2, 5]
            && Is(s, 0, WaitingApproval) && Owns(s, 2, 0) && EndsMidway(s, 0, LATE, LATE)
            && s.ExpireApprovals(LATE).1.Err? && Ended(s.ExpireApprovals(LATE).0, 0)
  {
    hide Drawn, Run, Waiting, Sound, Authority.ExpiredIds, LogsReplay, Roomy;
    Begins(2, PLAN);
    BeginningReplays(2, PLAN);
    BothBegin();
    BothExpired();
    SecondIsRoomy();
    OpeningKeeps(Asked(2, PLAN), "l", 3, 4, 5, 7);
    var s := BothAsked();
    assert !Takes(s, 5, 1);
    ClosesFirst(s, [2, 5], 0);
    hide SweepCloses;
    ExpiryOutcome(s, 0, LATE);
  }
}
