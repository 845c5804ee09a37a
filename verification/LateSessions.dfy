/** Gated runs after which a session suspended on an approval would have nothing left to decide. They
    make the calls of `Agent.AgentRuntime.Start` on a system of two gates, then one decision. */
module LateSessions {
  import opened Basics
  import opened Lifecycle
  import opened Audit
  import opened Approval
  import opened Supervision
  import opened Soundness
  import opened Sweeps
  import opened Subsidence
  import opened Gate
  import opened GateSafety
  import opened AgentCalls
  import opened Scenarios
  import opened GateSurplus
  import opened Decisions

  const TASK: TaskId := 0
  const PENDING: ApprovalId := 2
  const START: System := Assembled(Empty(1, 8, []), 2)

  /** Task 0 waits for approval 2, which expires a millisecond after it was asked for, and gate 0 retains
      its operation. */
  ghost predicate Suspends(w: System) {
    && Safe(w) && |w.gates| == 2 && IsLive(w.supervisor, w.gates[0], PENDING, TASK)
    && Is(w.supervisor, TASK, WaitingApproval) && DeadlineOf(w.supervisor, PENDING) == Tick(1)
    && w.supervisor.authority.pending.Keys == {PENDING}
    && w.supervisor.store.plan == [] && w.supervisor.store.capacity == 8 && |w.supervisor.store.LogOf(TASK)| == 6
  }

  lemma StartIsStage()
    ensures Stage(START, 0, 1)
  {
    AssembledIsSafe(1, 8, [], 2);
    EmptyIsSound(1, 8, []);
    hide Safe, Sound;
  }

  lemma Suspend() returns (w: System, cs: seq<GateCommand>)
    ensures GateRun(START, cs, w) && Suspends(w) && RunReadings(cs) == [Tick(0), Tick(0), Tick(0)]
  {
    hide GateRun, Safe, Quiet, Waiting, Roomy, RunReadings;
    StartIsStage();
    w, cs := AskRound(START, 0, 1);
    StageIsSafe(START, 0, 1);
    GateRunIsSafe(START, cs, w);
    QuietIsRoomy(START.supervisor, 0, 1);
    WaitingState(START.supervisor, Key(0), 0, 1, 2, Tick(0));
  }

  lemma StageIsSafe(y: System, k: nat, bound: nat)
    requires Stage(y, k, bound)
    ensures Safe(y) && Quiet(y.supervisor, k, bound)
  {
    hide Safe, Quiet;
  }

  lemma Due(w: System, now: nat)
    requires Suspends(w)
    ensures SweptAt(w.supervisor, now) == (if now >= Tick(1) then [PENDING] else [])
    ensures Takes(w.supervisor, PENDING, 0) && TakesAll(w.supervisor, SweptAt(w.supervisor, now))
  {
    hide Safe, Authority.ExpiredIds;
    var au := w.supervisor.authority;
    assert au.pending == map[PENDING := au.pending[PENDING]];
    OneExpired(au, PENDING, au.pending[PENDING], now);
  }

  /** A decision at the deadline, from a run of three accepted calls with a clock that never goes back:
      approving and denying both answer NotFound, the Task has ended, nothing is pending and the gate
      still retains the operation. */
  lemma {:induction false} LateDecisionStrands<E>(works: Result<(), E>) returns (w: System, cs: seq<GateCommand>)
    ensures GateRun(START, cs, w) && |w.gates| == 2 && IsLive(w.supervisor, w.gates[0], PENDING, TASK)
    ensures Monotone(RunReadings(cs) + [Tick(1), Tick(1), Tick(1)])
    ensures var approved := w.gates[0].ApproveAndExecute(w.supervisor, PENDING, Tick(1), Tick(1), Tick(1), works);
            && approved.result == Err(SupervisorFailed(ApprovalFailed(NotFound)))
            && Ended(approved.supervisor, TASK) && PENDING !in approved.supervisor.pending
            && PENDING in approved.gate.index
    ensures var denied: Turn<TaskSnapshot, E> := w.gates[0].Deny(w.supervisor, PENDING, Tick(1));
            && denied.result == Err(SupervisorFailed(ApprovalFailed(NotFound)))
            && Ended(denied.supervisor, TASK) && PENDING !in denied.supervisor.pending && PENDING in denied.gate.index
  {
    hide GateRun, Safe, GateState.ApproveAndExecute, GateState.Deny, RunReadings, GoesThrough, SweptAt, TakesAll,
         SweepCloses, DenialLeft, ApprovalLeft;
    w, cs := Suspend();
    Due(w, Tick(1));
    LateDecision(w, 0, PENDING, TASK, Tick(1), Tick(1), Tick(1), works);
  }

  /** An approval in time whose grant is used too late, from the same run: the call fails, the Task runs,
      nothing is pending and the gate has dropped the operation, so that denying it afterwards answers
      OperationNotFound and changes nothing. */
  lemma {:induction false} LateUseStrands<E>(works: Result<(), E>) returns (w: System, cs: seq<GateCommand>)
    ensures GateRun(START, cs, w) && |w.gates| == 2 && IsLive(w.supervisor, w.gates[0], PENDING, TASK)
    ensures Monotone(RunReadings(cs) + [Tick(0), Tick(0), Tick(1)] + [Tick(1)])
    ensures var turn := w.gates[0].ApproveAndExecute(w.supervisor, PENDING, Tick(0), Tick(0), Tick(1), works);
            && turn.result.Err? && turn.result.error.SupervisorFailed? && turn.executed.None?
            && Is(turn.supervisor, TASK, Running) && PENDING !in turn.supervisor.pending && PENDING !in turn.gate.index
            && var denied: Turn<TaskSnapshot, E> := turn.gate.Deny(turn.supervisor, PENDING, Tick(1));
               denied.result == Err(OperationNotFound) && denied.supervisor == turn.supervisor
  {
    hide GateRun, Safe, GateState.ApproveAndExecute, GateState.Deny, RunReadings, SweptAt, TakesAll, Takes,
         SweepCloses;
    w, cs := Suspend();
    Due(w, Tick(0));
    assert GoesThrough(w.supervisor, PENDING, Tick(0), Tick(0)) && !Usable(w.supervisor, PENDING, Tick(0), Tick(1));
    ApprovalOutcome(w, 0, PENDING, TASK, Tick(0), Tick(0), Tick(1), works);
    var turn := w.gates[0].ApproveAndExecute(w.supervisor, PENDING, Tick(0), Tick(0), Tick(1), works);
    DenyFindsRetained<E>(turn.gate, turn.supervisor, PENDING, Tick(1));
  }
}
