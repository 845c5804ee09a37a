/** The sweep of expired approvals that begins most calls: when it succeeds, what it closes and what it
    leaves, said of the state before it. */
module Sweeps {
  import opened Basics
  import opened Lifecycle
  import opened Audit
  import opened Approval
  import opened Supervision
  import opened Soundness
  import opened SoundSteps
  import opened Moves
  import opened Calls

  /** The backend takes two events for the Task of `a` if they are the batch number `k` from now. */
  predicate Takes(s: Supervisor, a: ApprovalId, k: nat) {
    && a in s.pending
    && (k < |s.store.plan| ==> s.store.plan[k].None?)
    && |s.store.LogOf(s.pending[a].task)| + 2 <= s.store.capacity
  }

  /** Approval `b` and its Task are in `n` as in `s`. */
  predicate Stands(s: Supervisor, n: Supervisor, b: ApprovalId) {
    && b in s.pending && b in n.pending && n.pending[b] == s.pending[b]
    && s.StateOf(s.pending[b].task) == n.StateOf(s.pending[b].task)
    && (s.pending[b].task in s.tasks <==> s.pending[b].task in n.tasks)
  }

  /** It takes the batches for all of these approvals, in order, or for those up to number `i`. */
  predicate TakesAll(s: Supervisor, ids: seq<ApprovalId>) { forall j :: 0 <= j < |ids| ==> Takes(s, ids[j], j) }

  predicate TakesTo(s: Supervisor, ids: seq<ApprovalId>, i: int) {
    forall j :: 0 <= j < |ids| && j <= i ==> Takes(s, ids[j], j)
  }

  /******* One close *******/

  lemma TakenIffAccepted(s: Supervisor, a: ApprovalId, e: TaskEventKind, f: TaskEventKind)
    requires a in s.pending
    ensures Takes(s, a, 0) <==> s.store.Append(s.pending[a].task, [e, f]).1.None?
  {
  }

  /** The rest of the state after one close: every other pending operation stands as before, one batch
      later. */
  lemma CloseLeavesOthers(s: Supervisor, a: ApprovalId, e: TaskEventKind, log: AuditLog, b: ApprovalId, k: nat)
    requires PendingsSound(s) && a in s.pending && s.pending[a].task in s.tasks && b != a && b in s.pending
    requires s.store.Append(s.pending[a].task, [e, StateTransitioned(s.tasks[s.pending[a].task].state, Failed)])
             == (log, None)
    ensures var n := s.CloseFailed(a, log);
            b in n.pending && Stands(s, n, b) && (Takes(n, b, k) <==> Takes(s, b, k + 1))
  {
    hide Authority.Remove;
  }

  /******* The sweep *******/

  lemma ExpireOneOutcome(s: Supervisor, a: ApprovalId)
    requires PendingsSound(s) && a in s.pending
    ensures s.pending[a].task in s.tasks
    ensures var p := s.pending[a];
            var e, f := TaskEventKind.ApprovalExpired(a, p.operation), StateTransitioned(s.tasks[p.task].state, Failed);
            var (log, refusal) := s.store.Append(p.task, [e, f]);
            if Takes(s, a, 0) then refusal.None? && s.ExpireOne(a) == (s.CloseFailed(a, log), None)
            else s.ExpireOne(a).1.Some? && SameButPlan(s, s.ExpireOne(a).0)
  {
    assert PendingSound(s, a);
    var p := s.pending[a];
    TakenIffAccepted(s, a, TaskEventKind.ApprovalExpired(a, p.operation),
      StateTransitioned(s.tasks[p.task].state, Failed));
    hide PendingsSound, Supervisor.CloseFailed;
  }

  /** Every approval of `rest` stands in `n` as in `s`, one batch later. */
  ghost predicate Shifted(s: Supervisor, n: Supervisor, rest: seq<ApprovalId>) {
    && (forall b :: b in rest ==> b in n.pending && Stands(s, n, b))
    && (forall b, k: nat :: b in rest ==> (Takes(n, b, k) <==> Takes(s, b, k + 1)))
  }

  lemma CloseShifts(s: Supervisor, a: ApprovalId, e: TaskEventKind, log: AuditLog, rest: seq<ApprovalId>)
    requires PendingsSound(s) && a in s.pending && s.pending[a].task in s.tasks
    requires a !in rest && forall b :: b in rest ==> b in s.pending
    requires s.store.Append(s.pending[a].task, [e, StateTransitioned(s.tasks[s.pending[a].task].state, Failed)])
             == (log, None)
    ensures Shifted(s, s.CloseFailed(a, log), rest)
  {
    hide PendingsSound, AuditLog.Append, Supervisor.CloseFailed, Stands, Takes;
    var n := s.CloseFailed(a, log);
    forall b | b in rest ensures b in n.pending && Stands(s, n, b) {
      CloseLeavesOthers(s, a, e, log, b, 0);
    }
    forall b, k: nat | b in rest ensures Takes(n, b, k) <==> Takes(s, b, k + 1) {
      CloseLeavesOthers(s, a, e, log, b, k);
    }
  }

  lemma ShiftedTakes(s: Supervisor, n: Supervisor, a: ApprovalId, rest: seq<ApprovalId>, i: nat)
    requires Takes(s, a, 0) && Shifted(s, n, rest) && i <= |rest|
    ensures TakesTo(s, [a] + rest, i) <==> TakesTo(n, rest, i - 1)
    ensures TakesAll(s, [a] + rest) <==> TakesAll(n, rest)
  {
    hide Takes, Stands;
    var ids := [a] + rest;
    forall j | 0 <= j < |rest| ensures Takes(n, rest[j], j) <==> Takes(s, ids[j + 1], j + 1) {
      assert rest[j] in rest;
    }
  }

  /** Each step of a sweep keeps soundness. */
  lemma CloseKeepsSound(s: Supervisor, a: ApprovalId, e: TaskEventKind, log: AuditLog)
    requires Sound(s) && a in s.pending && s.pending[a].task in s.tasks && Closing(e, a, s.pending[a].operation)
    requires s.store.Append(s.pending[a].task, [e, StateTransitioned(s.tasks[s.pending[a].task].state, Failed)])
             == (log, None)
    ensures Sound(s.CloseFailed(a, log)) && a !in s.CloseFailed(a, log).pending
  {
    assert TasksSound(s) && PendingsSound(s);
    CloseIsMove(s, a, e, log);
    hide Does, Sound, TasksSound, PendingsSound, AuditLog.Append;
    MoveSound(s, Close(s.pending[a].task, e, a, s.pending[a].operation), s.CloseFailed(a, log));
  }

  /** After a sweep of which the backend took every batch: the swept approvals are gone and every other
      pending operation stands as before, as many batches later. */
  ghost predicate SweptTo(s: Supervisor, ids: seq<ApprovalId>, n: Supervisor) {
    && (forall a :: a in ids ==> a !in n.pending)
    && (forall b :: b in n.pending ==> b in s.pending && b !in ids && Stands(s, n, b))
    && (forall b :: b in s.pending && b !in ids ==> b in n.pending)
    && (forall b, k: nat :: b in n.pending ==> (Takes(n, b, k) <==> Takes(s, b, k + |ids|)))
  }

  lemma {:induction false} SweepSucceedsIff(s: Supervisor, ids: seq<ApprovalId>, count: nat)
    requires Sound(s) && Increasing(ids) && forall a :: a in ids ==> a in s.pending
    ensures var (n, r) := s.Sweep(ids, count);
            (r.Ok? <==> TakesAll(s, ids)) && (r.Ok? ==> SweptTo(s, ids, n))
    decreases ids
  {
    hide Sound, TakesAll, Takes, AuditLog.Append, Supervisor.CloseFailed, Supervisor.ExpireOne, PendingsSound;
    if ids == [] {
      NothingTaken(s);
    } else {
      var a, rest := ids[0], ids[1..];
      assert ids == [a] + rest && a !in rest;
      SoundPendings(s);
      ExpireOneOutcome(s, a);
      var p := s.pending[a];
      var e, f := TaskEventKind.ApprovalExpired(a, p.operation), StateTransitioned(s.tasks[p.task].state, Failed);
      var log := s.store.Append(p.task, [e, f]).0;
      if !Takes(s, a, 0) {
        RefusedAtOnce(s, ids);
      } else {
        var n := s.CloseFailed(a, log);
        CloseKeepsSound(s, a, e, log);
        CloseShifts(s, a, e, log, rest);
        ShiftedTakes(s, n, a, rest, 0);
        SweepSucceedsIff(n, rest, count + 1);
        if TakesAll(s, ids) {
          SweptOn(s, a, e, log, rest, n.Sweep(rest, count + 1).0);
        }
      }
    }
  }

  lemma SoundPendings(s: Supervisor)
    requires Sound(s)
    ensures PendingsSound(s)
  {
  }

  lemma SoundAuthority(s: Supervisor)
    requires Sound(s)
    ensures s.authority.Consistent()
  {
  }

  lemma SweptOn(s: Supervisor, a: ApprovalId, e: TaskEventKind, log: AuditLog, rest: seq<ApprovalId>, k: Supervisor)
    requires PendingsSound(s) && a in s.pending && s.pending[a].task in s.tasks
    requires s.store.Append(s.pending[a].task, [e, StateTransitioned(s.tasks[s.pending[a].task].state, Failed)])
             == (log, None)
    requires SweptTo(s.CloseFailed(a, log), rest, k)
    ensures SweptTo(s, [a] + rest, k)
  {
    hide PendingsSound, AuditLog.Append, Supervisor.CloseFailed, Takes;
    var n, ids := s.CloseFailed(a, log), [a] + rest;
    ClosePending(s, a, log);
    assert forall b :: b in ids <==> b == a || b in rest;
    forall b | b in k.pending ensures Stands(s, k, b) {
      CloseLeavesOthers(s, a, e, log, b, 0);
    }
    forall b, j: nat | b in k.pending ensures Takes(k, b, j) <==> Takes(s, b, j + |ids|) {
      assert b in n.pending && (Takes(k, b, j) <==> Takes(n, b, j + |rest|));
      CloseLeavesOthers(s, a, e, log, b, j + |rest|);
    }
  }

  lemma ClosePending(s: Supervisor, a: ApprovalId, log: AuditLog)
    requires a in s.pending && s.pending[a].task in s.tasks
    ensures forall b :: b in s.CloseFailed(a, log).pending <==> b in s.pending && b != a
  {
    hide Authority.Remove;
  }

  lemma ExpiredArePending(s: Supervisor, now: nat)
    requires Sound(s)
    ensures Increasing(s.authority.ExpiredIds(now)) && forall a :: a in s.authority.ExpiredIds(now) ==> a in s.pending
  {
    hide TasksSound, PendingsSound, ApprovedsSound, LivesSound, WaitersHavePending, Authority.Consistent;
  }

  lemma NothingTaken(s: Supervisor)
    ensures TakesAll(s, [])
  {
  }

  lemma RefusedAtOnce(s: Supervisor, ids: seq<ApprovalId>)
    requires ids != [] && !Takes(s, ids[0], 0)
    ensures !TakesAll(s, ids)
  {
    hide Takes;
  }

  lemma SweepKeepsSound(s: Supervisor, ids: seq<ApprovalId>, count: nat)
    requires Sound(s)
    ensures Sound(s.Sweep(ids, count).0)
  {
    hide Does, Sound;
    var path := SweepReaches(s, ids, count);
    ChainSound(s, path, s.Sweep(ids, count).0);
  }

  function Dropped(plan: seq<Option<EventStoreError>>, m: nat): seq<Option<EventStoreError>> {
    if m <= |plan| then plan[m..] else []
  }

  lemma CloseStore(s: Supervisor, a: ApprovalId, e: TaskEventKind, log: AuditLog, b: ApprovalId)
    requires PendingsSound(s) && a in s.pending && s.pending[a].task in s.tasks
    requires s.store.Append(s.pending[a].task, [e, StateTransitioned(s.tasks[s.pending[a].task].state, Failed)])
             == (log, None)
    ensures var n := s.CloseFailed(a, log);
            && n.store.plan == Dropped(s.store.plan, 1) && n.store.capacity == s.store.capacity
            && (b in s.pending && b != a ==> n.store.LogOf(s.pending[b].task) == s.store.LogOf(s.pending[b].task))
  {
    hide Authority.Remove;
  }

  /** What is left of the backend's plan after a sweep of which it took every batch; and the log of a Task
      with another pending operation is as before. */
  lemma {:induction false} SweepStore(s: Supervisor, ids: seq<ApprovalId>, count: nat, b: ApprovalId)
    requires Sound(s) && Increasing(ids) && (forall a :: a in ids ==> a in s.pending) && TakesAll(s, ids)
    requires b in s.pending && b !in ids
    ensures var n := s.Sweep(ids, count).0;
            && n.store.plan == Dropped(s.store.plan, |ids|) && n.store.capacity == s.store.capacity
            && n.store.LogOf(s.pending[b].task) == s.store.LogOf(s.pending[b].task)
    decreases ids
  {
    hide Sound, Takes, AuditLog.Append, Supervisor.CloseFailed, Supervisor.ExpireOne, PendingsSound, AuditLog.LogOf;
    if ids != [] {
      var a, rest := ids[0], ids[1..];
      assert ids == [a] + rest && a !in rest;
      SoundPendings(s);
      ExpireOneOutcome(s, a);
      assert Takes(s, a, 0);
      var p := s.pending[a];
      var e, f := TaskEventKind.ApprovalExpired(a, p.operation), StateTransitioned(s.tasks[p.task].state, Failed);
      var log := s.store.Append(p.task, [e, f]).0;
      var n := s.CloseFailed(a, log);
      CloseKeepsSound(s, a, e, log);
      CloseShifts(s, a, e, log, [b] + rest);
      CloseShifts(s, a, e, log, rest);
      ShiftedTakes(s, n, a, rest, 0);
      CloseStore(s, a, e, log, b);
      assert b in [b] + rest && Stands(s, n, b);
      SweepStore(n, rest, count + 1, b);
    }
  }

  /** The log of a Task none of whose approvals is swept. */
  lemma {:induction false} SweepSparesLog(s: Supervisor, ids: seq<ApprovalId>, count: nat, t: TaskId)
    requires forall a :: a in ids && a in s.pending ==> s.pending[a].task != t
    ensures s.Sweep(ids, count).0.store.LogOf(t) == s.store.LogOf(t)
    decreases ids
  {
    hide Authority.Remove;
    if ids != [] {
      var (n, failure) := s.ExpireOne(ids[0]);
      if failure.None? {
        SweepSparesLog(n, ids[1..], if ids[0] in s.pending then count + 1 else count, t);
      }
    }
  }

  /** The record of an expired approval. */
  function ExpiryBatch(s: Supervisor, a: ApprovalId): Log
    requires a in s.pending && s.pending[a].task in s.tasks
  {
    [TaskEventKind.ApprovalExpired(a, s.pending[a].operation),
     StateTransitioned(s.tasks[s.pending[a].task].state, Failed)]
  }

  predicate ExpiryLogged(s: Supervisor, n: Supervisor, a: ApprovalId) {
    && a in s.pending && s.pending[a].task in s.tasks
    && n.store.LogOf(s.pending[a].task) == s.store.LogOf(s.pending[a].task) + ExpiryBatch(s, a)
  }

  lemma CloseLogs(s: Supervisor, a: ApprovalId, log: AuditLog)
    requires PendingsSound(s) && a in s.pending && s.pending[a].task in s.tasks
    requires s.store.Append(s.pending[a].task, ExpiryBatch(s, a)) == (log, None)
    ensures var n, t := s.CloseFailed(a, log), s.pending[a].task;
            && n.store.LogOf(t) == s.store.LogOf(t) + ExpiryBatch(s, a)
            && (forall b :: b in n.pending ==> b in s.pending && n.pending[b] == s.pending[b] && n.pending[b].task != t)
            && (forall u :: u != t ==> n.store.LogOf(u) == s.store.LogOf(u) && (u in n.tasks <==> u in s.tasks))
            && (forall u :: u != t && u in s.tasks ==> n.tasks[u] == s.tasks[u])
  {
    hide Authority.Remove, PendingSound;
  }

  lemma SameExpiry(s: Supervisor, n: Supervisor, b: ApprovalId)
    requires b in s.pending && s.pending[b].task in s.tasks && b in n.pending && n.pending[b] == s.pending[b]
    requires s.pending[b].task in n.tasks && n.tasks[s.pending[b].task] == s.tasks[s.pending[b].task]
    ensures ExpiryBatch(n, b) == ExpiryBatch(s, b)
  {
  }

  lemma ExpiryIs(s: Supervisor, a: ApprovalId)
    requires a in s.pending && s.pending[a].task in s.tasks
    ensures ExpiryBatch(s, a) == [TaskEventKind.ApprovalExpired(a, s.pending[a].operation),
                                  StateTransitioned(s.tasks[s.pending[a].task].state, Failed)]
  {
  }

  /** A successful sweep counts the approvals it closes, and records each in the log of its Task. */
  lemma {:induction false} SweepCounts(s: Supervisor, ids: seq<ApprovalId>, count: nat)
    requires Sound(s) && Increasing(ids) && (forall a :: a in ids ==> a in s.pending) && s.Sweep(ids, count).1.Ok?
    ensures s.Sweep(ids, count).1 == Ok(count + |ids|)
    ensures forall a :: a in ids ==> ExpiryLogged(s, s.Sweep(ids, count).0, a)
    decreases ids
  {
    hide Sound, Takes, AuditLog.Append, Supervisor.CloseFailed, Supervisor.ExpireOne, PendingsSound, AuditLog.LogOf,
         ExpiryBatch;
    if ids != [] {
      var a, rest := ids[0], ids[1..];
      assert ids == [a] + rest && a !in rest;
      SoundPendings(s);
      ExpireOneOutcome(s, a);
      var t := s.pending[a].task;
      ExpiryIs(s, a);
      var log := s.store.Append(t, ExpiryBatch(s, a)).0;
      var n := s.CloseFailed(a, log);
      CloseLogs(s, a, log);
      CloseKeepsSound(s, a, TaskEventKind.ApprovalExpired(a, s.pending[a].operation), log);
      CloseShifts(s, a, TaskEventKind.ApprovalExpired(a, s.pending[a].operation), log, rest);
      assert forall b :: b in rest ==> Stands(s, n, b);
      SweepCounts(n, rest, count + 1);
      SweepSparesLog(n, rest, count + 1, t);
      forall b | b in rest ensures ExpiryLogged(s, s.Sweep(ids, count).0, b) {
        assert Stands(s, n, b) && s.pending[b].task != t;
        assert ExpiryLogged(n, s.Sweep(ids, count).0, b);
        SameExpiry(s, n, b);
      }
    }
  }

  /******* What a sweep closes *******/

  predicate Owns(s: Supervisor, a: ApprovalId, t: TaskId) { a in s.pending && s.pending[a].task == t }

  /** Sweeping these approvals closes the pending operation of `t`: the backend takes its batch and all
      before it. */
  predicate SweepCloses(s: Supervisor, ids: seq<ApprovalId>, t: TaskId) {
    exists i :: 0 <= i < |ids| && Owns(s, ids[i], t) && TakesTo(s, ids, i)
  }

  lemma ClosesFirst(s: Supervisor, ids: seq<ApprovalId>, t: TaskId)
    requires ids != []
    ensures !Takes(s, ids[0], 0) ==> !SweepCloses(s, ids, t)
    ensures Takes(s, ids[0], 0) && Owns(s, ids[0], t) ==> SweepCloses(s, ids, t)
  {
    hide Takes;
    if Takes(s, ids[0], 0) && Owns(s, ids[0], t) {
      assert TakesTo(s, ids, 0);
    }
  }

  lemma ShiftedCloses(s: Supervisor, n: Supervisor, a: ApprovalId, rest: seq<ApprovalId>, t: TaskId)
    requires Takes(s, a, 0) && !Owns(s, a, t) && Shifted(s, n, rest)
    ensures SweepCloses(s, [a] + rest, t) <==> SweepCloses(n, rest, t)
  {
    hide Takes, TakesTo;
    var ids := [a] + rest;
    if SweepCloses(s, ids, t) {
      var i :| 0 <= i < |ids| && Owns(s, ids[i], t) && TakesTo(s, ids, i);
      ShiftedTakes(s, n, a, rest, i);
      assert rest[i - 1] in rest && Stands(s, n, rest[i - 1]);
    }
    if SweepCloses(n, rest, t) {
      var i :| 0 <= i < |rest| && Owns(n, rest[i], t) && TakesTo(n, rest, i);
      ShiftedTakes(s, n, a, rest, i + 1);
      assert rest[i] in rest && ids[i + 1] == rest[i] && Stands(s, n, rest[i]);
    }
  }

  /** After its own close no pending operation of `t` is left. */
  lemma ClosesOnce(s: Supervisor, a: ApprovalId, log: AuditLog, rest: seq<ApprovalId>)
    requires PendingsSound(s) && a in s.pending && s.pending[a].task in s.tasks
    ensures !SweepCloses(s.CloseFailed(a, log), rest, s.pending[a].task)
  {
    hide Authority.Remove, TakesTo;
  }

  lemma CloseRecords(s: Supervisor, a: ApprovalId, log: AuditLog, t: TaskId)
    requires a in s.pending && s.pending[a].task in s.tasks && t in s.tasks
    ensures var n := s.CloseFailed(a, log);
            && t in n.tasks && n.tasks[t] == (if Owns(s, a, t) then s.tasks[t].(state := Failed) else s.tasks[t])
            && n.approved == s.approved
  {
    hide Authority.Remove;
  }

  /** Exactly what a sweep does to a Task: it fails if its pending operation is closed, and otherwise
      keeps its record; approved operations all stay. */
  lemma {:induction false} SweepRecords(s: Supervisor, ids: seq<ApprovalId>, count: nat, t: TaskId)
    requires Sound(s) && Increasing(ids) && (forall a :: a in ids ==> a in s.pending) && t in s.tasks
    ensures var n := s.Sweep(ids, count).0;
            && t in n.tasks
            && n.tasks[t] == (if SweepCloses(s, ids, t) then s.tasks[t].(state := Failed) else s.tasks[t])
            && n.approved == s.approved
    decreases ids
  {
    hide Sound, Takes, AuditLog.Append, Supervisor.CloseFailed, Supervisor.ExpireOne, PendingsSound, SweepCloses,
         Stands;
    if ids == [] {
      NothingCloses(s, t);
    } else {
      var a, rest := ids[0], ids[1..];
      assert ids == [a] + rest && a !in rest;
      SoundPendings(s);
      ExpireOneOutcome(s, a);
      ClosesFirst(s, ids, t);
      if Takes(s, a, 0) {
        var p := s.pending[a];
        var e, f := TaskEventKind.ApprovalExpired(a, p.operation), StateTransitioned(s.tasks[p.task].state, Failed);
        var log := s.store.Append(p.task, [e, f]).0;
        CloseKeepsSound(s, a, e, log);
        CloseShifts(s, a, e, log, rest);
        CloseRecords(s, a, log, t);
        if Owns(s, a, t) {
          ClosesOnce(s, a, log, rest);
        } else {
          ShiftedCloses(s, s.CloseFailed(a, log), a, rest, t);
        }
        SweepRecords(s.CloseFailed(a, log), rest, count + 1, t);
      }
    }
  }

  lemma NothingCloses(s: Supervisor, t: TaskId)
    ensures !SweepCloses(s, [], t)
  {
  }

  /******* Calls that sweep first *******/

  /** The approvals that a call sweeps, if it sweeps at all. */
  function Swept(s: Supervisor, c: Command): seq<ApprovalId> {
    match c
    case CallRequest(_, _, _, sweptAt, _, _, _) => s.authority.ExpiredIds(sweptAt)
    case CallApprove(_, sweptAt, _) => s.authority.ExpiredIds(sweptAt)
    case CallDeny(_, sweptAt) => s.authority.ExpiredIds(sweptAt)
    case CallExpire(now) => s.authority.ExpiredIds(now)
    case CallSubmit(_, _) => []
    case CallStart(_, _) => []
    case CallAuthorize(_, _, _, _) => []
    case CallSucceed(_) => []
    case CallFail(_) => []
    case CallFailBudget(_) => []
    case CallCancel(_) => []
  }

  predicate SweepsFirst(c: Command) { c.CallRequest? || c.CallApprove? || c.CallDeny? || c.CallExpire? }

  /** What a sweeping call does once its sweep has succeeded. */
  function Rest(k: Supervisor, c: Command): Supervisor
    requires SweepsFirst(c)
  {
    match c
    case CallRequest(t, request, ttl, _, now, o, a) => k.RequestSwept(t, request, ttl, now, o, a).0
    case CallApprove(a, _, now) => k.ApproveSwept(a, now).0
    case CallDeny(a, _) => k.DenySwept(a).0
    case CallExpire(_) => k
  }

  lemma StepIsSweepThenRest(s: Supervisor, c: Command)
    requires SweepsFirst(c)
    ensures var (k, r) := s.Sweep(Swept(s, c), 0);
            Step(s, c) == (if r.Ok? then Rest(k, c) else k) && k.used == s.used
  {
    hide Supervisor.RequestSwept, Supervisor.ApproveSwept, Supervisor.DenySwept;
    SweepDrawsNothing(s, Swept(s, c), 0);
  }

  lemma SweptArePending(s: Supervisor, c: Command)
    requires Sound(s) && SweepsFirst(c)
    ensures Increasing(Swept(s, c)) && forall a :: a in Swept(s, c) ==> a in s.pending
  {
    hide Sound;
    ExpiredArePending(s, if c.CallExpire? then c.now else c.sweptAt);
  }
}
