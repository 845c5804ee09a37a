/** Every call keeps the invariant of all runs. */
module SoundSteps {
  import opened Basics
  import opened Lifecycle
  import opened Capability
  import opened Audit
  import opened Approval
  import opened Supervision
  import opened Soundness

  /******* A batch without approvals *******/

  lemma WaitersKept(s: Supervisor, n: Supervisor, t: TaskId)
    requires WaitersHavePending(s)
    requires forall u :: u in n.tasks && u != t ==> u in s.tasks && n.tasks[u] == s.tasks[u]
    requires forall a, u :: u != t ==> (PendsFor(n, a, u) <==> PendsFor(s, a, u))
    requires t in n.tasks && n.tasks[t].state.WaitingApproval? ==> HasPending(n, t)
    ensures WaitersHavePending(n)
  {
    forall u | u in n.tasks && n.tasks[u].state.WaitingApproval? ensures HasPending(n, u) {
      if u != t {
        assert HasPending(s, u);
        var a :| a in s.pending && s.pending[a].task == u;
        assert PendsFor(s, a, u);
        assert PendsFor(n, a, u);
      }
    }
  }

  /** Task `t` advances by a batch that mentions no approval, staying in or entering an active state. */
  lemma PlainAdvance(s: Supervisor, n: Supervisor, t: TaskId, r: TaskRecord, batch: Log)
    requires Sound(s) && Advanced(s, n, t, r, batch)
    requires n.pending == s.pending && n.approved == s.approved && n.authority == s.authority && n.used == s.used
    requires forall i, a :: 0 <= i < |batch| ==> !Concerns(batch[i], a)
    requires LastState(s.store.logs[t] + batch) == Some(r.state)
    requires Active(r.state) && r.startedAt.Some?
    requires r.state.WaitingApproval? ==> s.tasks[t].state.WaitingApproval?
    ensures Sound(n)
  {
    hide TasksSound, Authority.Consistent, PendingsSound, ApprovedsSound, LivesSound, WaitersHavePending, LastState,
         Concerns;
    AdvanceTasks(s, n, t, r, batch);
    PlainLives(s, n, t, r, batch);
    PlainApproveds(s, n, t, r, batch);
    PlainPendings(s, n, t, r, batch);
    PlainWaiters(s, n, t, r, batch);
  }

  lemma PlainLives(s: Supervisor, n: Supervisor, t: TaskId, r: TaskRecord, batch: Log)
    requires LivesSound(s) && Advanced(s, n, t, r, batch)
    requires n.pending == s.pending && n.used == s.used
    requires forall i, a :: 0 <= i < |batch| ==> !Concerns(batch[i], a)
    ensures LivesSound(n)
  {
    forall a ensures LifeIn(s.store.logs[t] + batch, a) == LifeIn(s.store.logs[t], a) && LifeSound(n, t, a) {
      LifeUnconcerned(s.store.logs[t], batch, a);
      assert LifeSound(s, t, a);
    }
    AdvanceLives(s, n, t, r, batch);
  }

  lemma PlainApproveds(s: Supervisor, n: Supervisor, t: TaskId, r: TaskRecord, batch: Log)
    requires ApprovedsSound(s) && Advanced(s, n, t, r, batch) && Active(r.state)
    requires n.approved == s.approved
    requires forall i, a :: 0 <= i < |batch| ==> !Concerns(batch[i], a)
    ensures ApprovedsSound(n)
  {
    forall o | o in n.approved && n.approved[o].task == t
      ensures LifeIn(n.store.logs[t], n.approved[o].grant.approval) == Granted(o)
    {
      assert ApprovedSound(s, o);
      LifeUnconcerned(s.store.logs[t], batch, n.approved[o].grant.approval);
    }
    AdvanceApproveds(s, n, t, r, batch);
  }

  lemma PlainPendings(s: Supervisor, n: Supervisor, t: TaskId, r: TaskRecord, batch: Log)
    requires PendingsSound(s) && Advanced(s, n, t, r, batch) && Active(r.state)
    requires n.pending == s.pending && n.approved.Keys <= s.approved.Keys && n.authority == s.authority
    ensures PendingsSound(n)
  {
    forall a | a in n.pending ensures PendingSound(n, a) {
      assert PendingSound(s, a);
    }
  }

  lemma PlainWaiters(s: Supervisor, n: Supervisor, t: TaskId, r: TaskRecord, batch: Log)
    requires WaitersHavePending(s) && Advanced(s, n, t, r, batch)
    requires n.pending == s.pending
    requires r.state.WaitingApproval? ==> s.tasks[t].state.WaitingApproval?
    ensures WaitersHavePending(n)
  {
    if r.state.WaitingApproval? {
      assert HasPending(s, t);
      var a :| a in s.pending && s.pending[a].task == t;
      assert a in n.pending && n.pending[a].task == t;
    }
    WaitersKept(s, n, t);
  }

  /******* A request opens *******/

  /** Identifiers not drawn yet occur nowhere. */
  lemma FreshIsAbsent(s: Supervisor, x: nat)
    requires AuthoritySound(s) && PendingsSound(s) && ApprovedsSound(s) && LivesSound(s) && x !in s.used
    ensures x !in s.pending && x !in s.approved && x !in s.authority.pending
    ensures forall b :: b in s.pending ==> s.pending[b].operation != x
    ensures forall t :: (t, x) !in s.authority.index
    ensures forall t :: t in s.store.logs ==> LifeIn(s.store.logs[t], x) == Absent
  {
    forall b | b in s.pending ensures b != x && s.pending[b].operation != x {
      assert PendingSound(s, b);
    }
    forall o | o in s.approved ensures o != x {
      assert ApprovedSound(s, o);
    }
    forall k | k in s.authority.index ensures k.1 != x {
      var b := s.authority.index[k];
      assert b in s.authority.pending && s.authority.KeyOf(b) == k;
      assert PendingSound(s, b);
    }
    forall t | t in s.store.logs ensures LifeIn(s.store.logs[t], x) == Absent {
      assert LifeSound(s, t, x);
    }
  }

  /** The approval maps gain one entry for Task `t`. */
  ghost predicate OpensAs(s: Supervisor, n: Supervisor, t: TaskId, request: CapabilityRequest,
                          a: ApprovalId, o: OperationId, deadline: nat) {
    && a !in s.used && o !in s.used && a != o
    && (forall b :: b in s.pending ==> s.pending[b].task != t)
    && |s.authority.pending| < s.authority.maxPending
    && n.authority == s.authority.Insert(a, PendingApproval(t, o, ActionOf(request), deadline))
    && n.pending == s.pending[a := PendingOperation(t, o, request)]
    && n.approved == s.approved && n.used == s.used + {a, o}
  }

  lemma OpenPendings(s: Supervisor, n: Supervisor, t: TaskId, r: TaskRecord, batch: Log,
                     request: CapabilityRequest, a: ApprovalId, o: OperationId, deadline: nat)
    requires PendingsSound(s) && Advanced(s, n, t, r, batch) && r.state.WaitingApproval?
    requires OpensAs(s, n, t, request, a, o, deadline)
    requires a !in s.pending && o !in s.approved
    requires forall b :: b in s.pending ==> s.pending[b].operation != o
    ensures PendingsSound(n)
  {
    forall b | b in n.pending ensures PendingSound(n, b) {
      if b != a {
        assert PendingSound(s, b);
      }
    }
  }

  lemma OpenAuthority(s: Supervisor, n: Supervisor, t: TaskId,
                      request: CapabilityRequest, a: ApprovalId, o: OperationId, deadline: nat)
    requires AuthoritySound(s) && OpensAs(s, n, t, request, a, o, deadline)
    requires a !in s.pending && (t, o) !in s.authority.index
    ensures AuthoritySound(n)
  {
    InsertStaysConsistent(s.authority, a, PendingApproval(t, o, ActionOf(request), deadline));
  }

  lemma OpenLives(s: Supervisor, n: Supervisor, t: TaskId, r: TaskRecord,
                  request: CapabilityRequest, a: ApprovalId, o: OperationId, deadline: nat)
    requires LivesSound(s) && OpensAs(s, n, t, request, a, o, deadline)
    requires Advanced(s, n, t, r, [ApprovalRequested(a, o), StateTransitioned(Running, WaitingApproval)])
    requires a !in s.pending
    ensures LivesSound(n)
    ensures forall b :: b in s.used ==> LifeIn(n.store.logs[t], b) == LifeIn(s.store.logs[t], b)
  {
    var e, f := ApprovalRequested(a, o), StateTransitioned(Running, WaitingApproval);
    var log := s.store.logs[t];
    forall b ensures LifeSound(n, t, b) && (b != a ==> LifeIn(n.store.logs[t], b) == LifeIn(log, b)) {
      assert LifeSound(s, t, b);
      Life2(log, e, f, b);
    }
    AdvanceLives(s, n, t, r, [e, f]);
  }

  lemma OpenSound(s: Supervisor, n: Supervisor, t: TaskId, r: TaskRecord,
                  request: CapabilityRequest, a: ApprovalId, o: OperationId, deadline: nat)
    requires Sound(s) && OpensAs(s, n, t, request, a, o, deadline)
    requires Advanced(s, n, t, r, [ApprovalRequested(a, o), StateTransitioned(Running, WaitingApproval)])
    requires s.tasks[t].state.Running? && r == s.tasks[t].(state := WaitingApproval)
    ensures Sound(n)
  {
    FreshIsAbsent(s, a);
    FreshIsAbsent(s, o);
    OpenTasks(s, n, t, r, request, a, o, deadline);
    OpenAuthority(s, n, t, request, a, o, deadline);
    OpenWaiters(s, n, t, r, request, a, o, deadline);
    var batch := [ApprovalRequested(a, o), StateTransitioned(Running, WaitingApproval)];
    OpenPendings(s, n, t, r, batch, request, a, o, deadline);
    OpenLives(s, n, t, r, request, a, o, deadline);
    OpenApproveds(s, n, t, r, batch);
  }

  lemma OpenWaiters(s: Supervisor, n: Supervisor, t: TaskId, r: TaskRecord,
                    request: CapabilityRequest, a: ApprovalId, o: OperationId, deadline: nat)
    requires WaitersHavePending(s) && OpensAs(s, n, t, request, a, o, deadline) && a !in s.pending
    requires n.tasks == s.tasks[t := r]
    ensures WaitersHavePending(n)
  {
    assert a in n.pending && n.pending[a].task == t;
    WaitersKept(s, n, t);
  }

  lemma OpenTasks(s: Supervisor, n: Supervisor, t: TaskId, r: TaskRecord,
                  request: CapabilityRequest, a: ApprovalId, o: OperationId, deadline: nat)
    requires TasksSound(s) && OpensAs(s, n, t, request, a, o, deadline)
    requires Advanced(s, n, t, r, [ApprovalRequested(a, o), StateTransitioned(Running, WaitingApproval)])
    requires s.tasks[t].state.Running? && r == s.tasks[t].(state := WaitingApproval)
    ensures TasksSound(n)
  {
    var batch := [ApprovalRequested(a, o), StateTransitioned(Running, WaitingApproval)];
    assert TaskSound(s, t);
    LastStateOfPair(s.store.logs[t], batch[0], batch[1]);
    AdvanceTasks(s, n, t, r, batch);
  }

  lemma LastStateOfPair(log: Log, e: TaskEventKind, f: TaskEventKind)
    requires f.StateTransitioned?
    ensures LastState(log + [e, f]) == Some(f.to)
  {
    assert log + [e, f] == (log + [e]) + [f];
    LastState1(log + [e], f);
  }

  lemma OpenApproveds(s: Supervisor, n: Supervisor, t: TaskId, r: TaskRecord, batch: Log)
    requires ApprovedsSound(s) && Advanced(s, n, t, r, batch) && Active(r.state)
    requires n.approved == s.approved
    requires forall b :: b in s.used ==> LifeIn(n.store.logs[t], b) == LifeIn(s.store.logs[t], b)
    ensures ApprovedsSound(n)
  {
    forall o | o in n.approved && n.approved[o].task == t
      ensures LifeIn(n.store.logs[t], n.approved[o].grant.approval) == Granted(o)
    {
      assert ApprovedSound(s, o);
    }
    AdvanceApproveds(s, n, t, r, batch);
  }

  /******* The pending approval of a Task leaves *******/

  /** Task `t` loses its pending approval, if it has one; other entries stay. */
  ghost predicate DropsPending(s: Supervisor, n: Supervisor, t: TaskId) {
    && n.used == s.used
    && (forall a :: a in n.pending <==> a in s.pending && s.pending[a].task != t)
    && (forall a :: a in n.pending ==> n.pending[a] == s.pending[a])
  }

  lemma DropPendings(s: Supervisor, n: Supervisor, t: TaskId, r: TaskRecord, batch: Log)
    requires PendingsSound(s) && Advanced(s, n, t, r, batch) && DropsPending(s, n, t)
    requires forall a :: a in n.pending ==> n.pending[a].operation !in n.approved
    requires forall a :: a in n.pending ==> a in n.authority.pending && n.authority.pending[a] == s.authority.pending[a]
    ensures PendingsSound(n)
  {
    forall a | a in n.pending ensures PendingSound(n, a) {
      assert PendingSound(s, a);
    }
  }

  lemma DropWaiters(s: Supervisor, n: Supervisor, t: TaskId, r: TaskRecord)
    requires WaitersHavePending(s) && DropsPending(s, n, t)
    requires n.tasks == s.tasks[t := r] && !r.state.WaitingApproval?
    ensures WaitersHavePending(n)
  {
    WaitersKept(s, n, t);
  }

  /** No approval of `t` is misused or left open by the batch, and none appears. */
  ghost predicate SettlesLives(s: Supervisor, t: TaskId, batch: Log)
    requires t in s.store.logs
  {
    forall a ::
      var l := LifeIn(s.store.logs[t] + batch, a);
      l != Misused && !l.Requested? && (l != Absent ==> LifeIn(s.store.logs[t], a) != Absent)
  }

  lemma DropLives(s: Supervisor, n: Supervisor, t: TaskId, r: TaskRecord, batch: Log)
    requires LivesSound(s) && Advanced(s, n, t, r, batch) && DropsPending(s, n, t)
    requires SettlesLives(s, t, batch)
    ensures LivesSound(n)
  {
    forall a ensures LifeSound(n, t, a) {
      assert LifeSound(s, t, a);
      assert n.store.logs[t] == s.store.logs[t] + batch;
    }
    AdvanceLives(s, n, t, r, batch);
  }

  /** The authority drops exactly what the supervisor drops. */
  lemma RemoveAuthority(s: Supervisor, n: Supervisor, t: TaskId, a: ApprovalId)
    requires AuthoritySound(s) && DropsPending(s, n, t)
    requires a in s.pending && s.pending[a].task == t
    requires forall b :: b in s.pending && b != a ==> s.pending[b].task != t
    requires n.authority == s.authority.Remove(a)
    ensures AuthoritySound(n)
    ensures forall b :: b in n.pending ==> b in n.authority.pending && n.authority.pending[b] == s.authority.pending[b]
  {
    RemoveStaysConsistent(s.authority, a);
  }

  /******* Denial and expiry *******/

  ghost predicate Closing(e: TaskEventKind, a: ApprovalId, o: OperationId) {
    e == ApprovalDenied(a, o) || e == TaskEventKind.ApprovalExpired(a, o)
  }

  /** An event about one pending approval that ends its pending phase, then a transition. */
  lemma SettleOne(s: Supervisor, t: TaskId, a: ApprovalId, o: OperationId, e: TaskEventKind, f: TaskEventKind)
    requires LivesSound(s) && PendingsSound(s) && t in s.tasks && t in s.store.logs && f.StateTransitioned?
    requires PendsFor(s, a, t) && s.pending[a].operation == o
    requires Closing(e, a, o) || e == ApprovalGranted(a, o)
    ensures SettlesLives(s, t, [e, f])
    ensures LifeIn(s.store.logs[t] + [e, f], a) == if Closing(e, a, o) then Closed(o) else Granted(o)
    ensures forall b :: b != a ==> LifeIn(s.store.logs[t] + [e, f], b) == LifeIn(s.store.logs[t], b)
  {
    assert LifeSound(s, t, a);
    Life2(s.store.logs[t], e, f, a);
    forall b | b != a
      ensures LifeIn(s.store.logs[t] + [e, f], b) == LifeIn(s.store.logs[t], b)
      ensures LifeIn(s.store.logs[t], b) != Misused && !LifeIn(s.store.logs[t], b).Requested?
    {
      Life2(s.store.logs[t], e, f, b);
      assert LifeSound(s, t, b);
      assert b in s.pending ==> s.pending[b].task != s.pending[a].task;
    }
  }

  /** Entries approved before keep standing as granted when only `a`, still pending, moves. */
  lemma GrantsKept(s: Supervisor, n: Supervisor, t: TaskId, r: TaskRecord, batch: Log, a: ApprovalId)
    requires ApprovedsSound(s) && LivesSound(s) && Advanced(s, n, t, r, batch)
    requires Active(r.state) || r.state.IsTerminal()
    requires PendsFor(s, a, t)
    requires forall b :: b != a ==> LifeIn(s.store.logs[t] + batch, b) == LifeIn(s.store.logs[t], b)
    requires forall o :: o in n.approved && o in s.approved ==> n.approved[o] == s.approved[o]
    requires forall o :: o in n.approved && n.approved[o].task != t ==> o in s.approved
    requires forall o :: o in n.approved && o !in s.approved ==> ApprovedSound(n, o)
    ensures ApprovedsSound(n)
  {
    hide LastState, ReplayFrom, OneHome;
    assert LifeSound(s, t, a);
    forall o | o in n.approved && n.approved[o].task == t && o in s.approved
      ensures LifeIn(n.store.logs[t], n.approved[o].grant.approval) == Granted(o)
    {
      assert ApprovedSound(s, o);
    }
    AdvanceApproveds(s, n, t, r, batch);
  }

  ghost predicate Closes(s: Supervisor, n: Supervisor, t: TaskId, r: TaskRecord, batch: Log, a: ApprovalId,
                         o: OperationId) {
    && Advanced(s, n, t, r, batch) && r.state == Failed
    && PendsFor(s, a, t) && s.pending[a].operation == o
    && |batch| == 2 && Closing(batch[0], a, o) && batch[1].StateTransitioned? && batch[1].to == Failed
    && n.pending == s.pending - {a} && n.approved == s.approved && n.authority == s.authority.Remove(a)
       && n.used == s.used
  }

  lemma RemovalDrops(s: Supervisor, n: Supervisor, t: TaskId, a: ApprovalId)
    requires PendingsSound(s) && PendsFor(s, a, t) && n.pending == s.pending - {a} && n.used == s.used
    ensures DropsPending(s, n, t)
    ensures forall b :: b in s.pending && b != a ==> s.pending[b].task != t
  {
  }

  lemma RemovalWaiters(s: Supervisor, n: Supervisor, t: TaskId, r: TaskRecord, a: ApprovalId)
    requires WaitersHavePending(s) && PendingsSound(s) && PendsFor(s, a, t) && n.pending == s.pending - {a}
             && n.used == s.used
    requires n.tasks == s.tasks[t := r] && !r.state.WaitingApproval?
    ensures WaitersHavePending(n)
  {
    RemovalDrops(s, n, t, a);
    DropWaiters(s, n, t, r);
  }

  lemma CloseTasks(s: Supervisor, n: Supervisor, t: TaskId, r: TaskRecord, batch: Log, a: ApprovalId, o: OperationId)
    requires TasksSound(s) && Closes(s, n, t, r, batch, a, o)
    ensures TasksSound(n)
  {
    assert batch == [batch[0], batch[1]];
    LastStateOfPair(s.store.logs[t], batch[0], batch[1]);
    AdvanceTasks(s, n, t, r, batch);
  }

  lemma CloseLives(s: Supervisor, n: Supervisor, t: TaskId, r: TaskRecord, batch: Log, a: ApprovalId, o: OperationId)
    requires LivesSound(s) && PendingsSound(s) && ApprovedsSound(s) && Closes(s, n, t, r, batch, a, o)
    ensures LivesSound(n) && ApprovedsSound(n)
  {
    assert batch == [batch[0], batch[1]];
    SettleOne(s, t, a, o, batch[0], batch[1]);
    RemovalDrops(s, n, t, a);
    DropLives(s, n, t, r, batch);
    GrantsKept(s, n, t, r, batch, a);
  }

  lemma CloseApprovals(s: Supervisor, n: Supervisor, t: TaskId, r: TaskRecord, batch: Log, a: ApprovalId,
                       o: OperationId)
    requires AuthoritySound(s) && PendingsSound(s) && Closes(s, n, t, r, batch, a, o)
    ensures AuthoritySound(n) && PendingsSound(n)
  {
    RemovalDrops(s, n, t, a);
    RemoveAuthority(s, n, t, a);
    KeptApart(s, n, t);
    DropPendings(s, n, t, r, batch);
  }

  lemma CloseSound(s: Supervisor, n: Supervisor, t: TaskId, r: TaskRecord, batch: Log, a: ApprovalId, o: OperationId)
    requires Sound(s) && Closes(s, n, t, r, batch, a, o)
    ensures Sound(n)
  {
    CloseTasks(s, n, t, r, batch, a, o);
    CloseLives(s, n, t, r, batch, a, o);
    CloseApprovals(s, n, t, r, batch, a, o);
    RemovalWaiters(s, n, t, r, a);
  }

  lemma KeptApart(s: Supervisor, n: Supervisor, t: TaskId)
    requires PendingsSound(s) && DropsPending(s, n, t) && n.approved.Keys <= s.approved.Keys
    ensures forall a :: a in n.pending ==> n.pending[a].operation !in n.approved
  {
    forall a | a in n.pending ensures n.pending[a].operation !in n.approved {
      assert PendingSound(s, a);
    }
  }

  /******* Grant *******/

  ghost predicate Grants(s: Supervisor, n: Supervisor, t: TaskId, r: TaskRecord, batch: Log, a: ApprovalId,
                         o: OperationId, entry: ApprovedOperation) {
    && Advanced(s, n, t, r, batch) && r == s.tasks[t].(state := Running)
    && PendsFor(s, a, t) && s.pending[a].operation == o
    && |batch| == 2 && batch[0] == ApprovalGranted(a, o) && batch[1].StateTransitioned? && batch[1].to == Running
    && entry.task == t && entry.grant == ApprovalGrant(a, t, o, ActionOf(entry.request), entry.grant.deadline)
    && n.pending == s.pending - {a} && n.approved == s.approved[o := entry]
    && n.authority == s.authority.Remove(a) && n.used == s.used
  }

  lemma GrantTasks(s: Supervisor, n: Supervisor, t: TaskId, r: TaskRecord, batch: Log, a: ApprovalId, o: OperationId,
                   entry: ApprovedOperation)
    requires TasksSound(s) && PendingsSound(s) && Grants(s, n, t, r, batch, a, o, entry)
    ensures TasksSound(n)
  {
    assert PendingSound(s, a) && TaskSound(s, t);
    assert batch == [batch[0], batch[1]];
    LastStateOfPair(s.store.logs[t], batch[0], batch[1]);
    AdvanceTasks(s, n, t, r, batch);
  }

  lemma GrantLives(s: Supervisor, n: Supervisor, t: TaskId, r: TaskRecord, batch: Log, a: ApprovalId, o: OperationId,
                   entry: ApprovedOperation)
    requires LivesSound(s) && PendingsSound(s) && ApprovedsSound(s) && Grants(s, n, t, r, batch, a, o, entry)
    ensures LivesSound(n) && ApprovedsSound(n)
  {
    assert PendingSound(s, a);
    assert batch == [batch[0], batch[1]];
    SettleOne(s, t, a, o, batch[0], batch[1]);
    RemovalDrops(s, n, t, a);
    DropLives(s, n, t, r, batch);
    assert ApprovedSound(n, o);
    GrantsKept(s, n, t, r, batch, a);
  }

  lemma GrantApprovals(s: Supervisor, n: Supervisor, t: TaskId, r: TaskRecord, batch: Log, a: ApprovalId,
                       o: OperationId, entry: ApprovedOperation)
    requires AuthoritySound(s) && PendingsSound(s) && Grants(s, n, t, r, batch, a, o, entry)
    ensures AuthoritySound(n) && PendingsSound(n)
  {
    RemovalDrops(s, n, t, a);
    RemoveAuthority(s, n, t, a);
    forall b | b in n.pending ensures n.pending[b].operation !in n.approved {
      assert PendingSound(s, b);
    }
    DropPendings(s, n, t, r, batch);
  }

  lemma GrantSound(s: Supervisor, n: Supervisor, t: TaskId, r: TaskRecord, batch: Log, a: ApprovalId, o: OperationId,
                   entry: ApprovedOperation)
    requires Sound(s) && Grants(s, n, t, r, batch, a, o, entry)
    ensures Sound(n)
  {
    GrantTasks(s, n, t, r, batch, a, o, entry);
    GrantLives(s, n, t, r, batch, a, o, entry);
    GrantApprovals(s, n, t, r, batch, a, o, entry);
    RemovalWaiters(s, n, t, r, a);
  }

  /******* Consumption *******/

  lemma SpendQuietly(s: Supervisor, n: Supervisor, o: OperationId)
    requires Sound(s) && n == s.(approved := s.approved - {o})
    ensures Sound(n)
  {
    SpendTasks(s, n);
    SpendPendings(s, n);
    SpendWaiters(s, n);
    SpendApproveds(s, n, o);
    SpendLives(s, n);
  }

  lemma SpendTasks(s: Supervisor, n: Supervisor)
    requires TasksSound(s) && n == s.(approved := n.approved)
    ensures TasksSound(n)
  {
    forall t | t in n.tasks ensures TaskSound(n, t) {
      assert TaskSound(s, t);
    }
    forall t | t in n.recovered ensures RecoveredSound(n, t) {
      assert RecoveredSound(s, t);
    }
  }

  lemma SpendApproveds(s: Supervisor, n: Supervisor, o: OperationId)
    requires ApprovedsSound(s) && n == s.(approved := s.approved - {o})
    ensures ApprovedsSound(n)
  {
    forall p | p in n.approved ensures ApprovedSound(n, p) {
      assert ApprovedSound(s, p);
    }
  }

  lemma SpendLives(s: Supervisor, n: Supervisor)
    requires LivesSound(s) && n == s.(approved := n.approved)
    ensures LivesSound(n)
  {
    forall t, a ensures LifeSound(n, t, a) {
      assert LifeSound(s, t, a);
    }
  }

  lemma SpendPendings(s: Supervisor, n: Supervisor)
    requires PendingsSound(s) && n.approved.Keys <= s.approved.Keys && n == s.(approved := n.approved)
    ensures PendingsSound(n)
  {
    forall a | a in n.pending ensures PendingSound(n, a) {
      assert PendingSound(s, a);
    }
  }

  lemma SpendWaiters(s: Supervisor, n: Supervisor)
    requires WaitersHavePending(s) && n == s.(approved := n.approved)
    ensures WaitersHavePending(n)
  {
    forall t | t in n.tasks && n.tasks[t].state.WaitingApproval? ensures HasPending(n, t) {
      assert HasPending(s, t);
      var a :| a in s.pending && s.pending[a].task == t;
      assert a in n.pending && n.pending[a].task == t;
    }
  }

  ghost predicate Consumes(s: Supervisor, n: Supervisor, t: TaskId, batch: Log, a: ApprovalId, o: OperationId) {
    && t in s.tasks && Advanced(s, n, t, s.tasks[t], batch) && s.tasks[t].state.Running?
    && o in s.approved && s.approved[o].task == t && s.approved[o].grant.approval == a
    && batch == [ApprovalConsumed(a, o)]
    && n.pending == s.pending && n.authority == s.authority && n.used == s.used && n.approved == s.approved - {o}
  }

  lemma ConsumeTasks(s: Supervisor, n: Supervisor, t: TaskId, batch: Log, a: ApprovalId, o: OperationId)
    requires TasksSound(s) && Consumes(s, n, t, batch, a, o)
    ensures TasksSound(n)
  {
    assert TaskSound(s, t);
    LastState1(s.store.logs[t], batch[0]);
    AdvanceTasks(s, n, t, s.tasks[t], batch);
  }

  lemma ConsumeLife(s: Supervisor, n: Supervisor, t: TaskId, batch: Log, a: ApprovalId, o: OperationId)
    requires ApprovedsSound(s) && Consumes(s, n, t, batch, a, o)
    ensures LifeIn(s.store.logs[t], a) == Granted(o) && LifeIn(s.store.logs[t] + batch, a) == Life.Consumed(o)
    ensures forall b :: b != a ==> LifeIn(s.store.logs[t] + batch, b) == LifeIn(s.store.logs[t], b)
  {
    assert ApprovedSound(s, o);
    forall b ensures LifeIn(s.store.logs[t] + batch, b) == LifeEvent(LifeIn(s.store.logs[t], b), batch[0], b) {
      Life1(s.store.logs[t], batch[0], b);
    }
  }

  lemma ConsumeLives(s: Supervisor, n: Supervisor, t: TaskId, batch: Log, a: ApprovalId, o: OperationId)
    requires LivesSound(s) && ApprovedsSound(s) && Consumes(s, n, t, batch, a, o)
    ensures LivesSound(n)
  {
    ConsumeLife(s, n, t, batch, a, o);
    forall b ensures LifeSound(n, t, b) {
      assert LifeSound(s, t, b);
    }
    AdvanceLives(s, n, t, s.tasks[t], batch);
  }

  lemma ConsumeApproveds(s: Supervisor, n: Supervisor, t: TaskId, batch: Log, a: ApprovalId, o: OperationId)
    requires ApprovedsSound(s) && Consumes(s, n, t, batch, a, o)
    ensures ApprovedsSound(n)
  {
    ConsumeLife(s, n, t, batch, a, o);
    forall p | p in n.approved && n.approved[p].task == t
      ensures LifeIn(n.store.logs[t], n.approved[p].grant.approval) == Granted(p)
    {
      assert ApprovedSound(s, p);
    }
    AdvanceApproveds(s, n, t, s.tasks[t], batch);
  }

  lemma ConsumeSound(s: Supervisor, n: Supervisor, t: TaskId, batch: Log, a: ApprovalId, o: OperationId)
    requires Sound(s) && Consumes(s, n, t, batch, a, o)
    ensures Sound(n)
  {
    ConsumeTasks(s, n, t, batch, a, o);
    ConsumeLives(s, n, t, batch, a, o);
    ConsumeApproveds(s, n, t, batch, a, o);
    PlainPendings(s, n, t, s.tasks[t], batch);
    PlainWaiters(s, n, t, s.tasks[t], batch);
  }

  /******* Termination *******/

  ghost predicate Finishes(s: Supervisor, n: Supervisor, t: TaskId, r: TaskRecord, batch: Log) {
    && Advanced(s, n, t, r, batch) && r.state.IsTerminal() && !r.state.Rejected?
    && (exists failure :: batch == s.TransitionBatch(t, s.tasks[t].state, r.state, failure))
    && n.authority == s.authority.RemoveAll(Ascending(s.PendingOf(t)))
    && n.pending == (map a | a in s.pending && s.pending[a].task != t :: s.pending[a])
    && n.approved == (map o | o in s.approved && s.approved[o].task != t :: s.approved[o])
    && n.used == s.used
  }

  lemma TransitionBatchEnds(s: Supervisor, t: TaskId, current: TaskState, next: TaskState, failure: Option<ErrorCode>,
                            log: Log)
    ensures LastState(log + s.TransitionBatch(t, current, next, failure)) == Some(next)
  {
    var batch := s.TransitionBatch(t, current, next, failure);
    var k := |batch| - 1;
    assert log + batch == (log + batch[..k]) + [batch[k]];
    LastState1(log + batch[..k], batch[k]);
  }

  lemma FinishTasks(s: Supervisor, n: Supervisor, t: TaskId, r: TaskRecord, batch: Log)
    requires TasksSound(s) && Finishes(s, n, t, r, batch)
    ensures TasksSound(n)
  {
    var failure :| batch == s.TransitionBatch(t, s.tasks[t].state, r.state, failure);
    TransitionBatchEnds(s, t, s.tasks[t].state, r.state, failure, s.store.logs[t]);
    AdvanceTasks(s, n, t, r, batch);
  }

  lemma FinishAuthority(s: Supervisor, n: Supervisor, t: TaskId, r: TaskRecord, batch: Log)
    requires AuthoritySound(s) && Finishes(s, n, t, r, batch)
    ensures AuthoritySound(n)
    ensures forall b :: b in n.pending ==> b in n.authority.pending && n.authority.pending[b] == s.authority.pending[b]
  {
    var ids := Ascending(s.PendingOf(t));
    RemoveAllRemoves(s.authority, ids);
    forall b ensures b in n.authority.pending <==> b in n.pending {
      assert b in ids <==> b in s.PendingOf(t);
    }
  }

  lemma FinishPendings(s: Supervisor, n: Supervisor, t: TaskId, r: TaskRecord, batch: Log)
    requires PendingsSound(s) && AuthoritySound(s) && Finishes(s, n, t, r, batch)
    ensures PendingsSound(n)
  {
    FinishAuthority(s, n, t, r, batch);
    KeptApart(s, n, t);
    DropPendings(s, n, t, r, batch);
  }

  lemma FinishApproveds(s: Supervisor, n: Supervisor, t: TaskId, r: TaskRecord, batch: Log)
    requires ApprovedsSound(s) && Finishes(s, n, t, r, batch)
    ensures ApprovedsSound(n)
  {
    AdvanceApproveds(s, n, t, r, batch);
  }

  lemma PendingRevocation(s: Supervisor, t: TaskId, k: nat)
    requires k < |Ascending(s.PendingOf(t))|
    ensures k < |s.Revocations(t)|
    ensures var a := Ascending(s.PendingOf(t))[k];
            PendsFor(s, a, t) && s.Revocations(t)[k] == ApprovalRevoked(a, s.pending[a].operation)
  {
    var ps := Ascending(s.PendingOf(t));
    assert ps[k] in ps;
    assert s.RevokePending(ps)[k] == ApprovalRevoked(ps[k], s.pending[ps[k]].operation);
  }

  lemma ApprovedRevocation(s: Supervisor, t: TaskId, k: nat)
    requires k < |Ascending(s.ApprovedOf(t))|
    ensures |s.Revocations(t)| == |Ascending(s.PendingOf(t))| + |Ascending(s.ApprovedOf(t))|
    ensures var o := Ascending(s.ApprovedOf(t))[k];
            && o in s.approved && s.approved[o].task == t
            && s.Revocations(t)[|Ascending(s.PendingOf(t))| + k] == ApprovalRevoked(s.approved[o].grant.approval, o)
  {
    hide Ascending;
    var os := Ascending(s.ApprovedOf(t));
    assert os[k] in os;
    assert s.RevokeApproved(os)[k] == ApprovalRevoked(s.approved[os[k]].grant.approval, os[k]);
  }

  /** No approval is revoked twice. */
  lemma RevokedOnce(s: Supervisor, t: TaskId, k: nat, j: nat)
    requires LivesSound(s) && ApprovedsSound(s) && t in s.tasks && t in s.store.logs
    requires k < j < |s.Revocations(t)|
    ensures s.Revocations(t)[k].ApprovalRevoked? && s.Revocations(t)[j].ApprovalRevoked?
    ensures s.Revocations(t)[k].approval != s.Revocations(t)[j].approval
  {
    var ps := Ascending(s.PendingOf(t));
    RevocationLife(s, t, k);
    RevocationLife(s, t, j);
    if j < |ps| {
      PendingRevocation(s, t, k);
      PendingRevocation(s, t, j);
    } else if k >= |ps| {
      ApprovedRevocation(s, t, k - |ps|);
      ApprovedRevocation(s, t, j - |ps|);
    }
  }

  /** The event revokes an approval that the log shows as requested or granted for that operation. */
  lemma RevocationLife(s: Supervisor, t: TaskId, k: nat)
    requires LivesSound(s) && ApprovedsSound(s) && t in s.tasks && t in s.store.logs
    requires k < |s.Revocations(t)|
    ensures s.Revocations(t)[k].ApprovalRevoked?
    ensures var e := s.Revocations(t)[k];
            LifeIn(s.store.logs[t], e.approval)
            == (if k < |Ascending(s.PendingOf(t))| then Requested(e.operation) else Granted(e.operation))
  {
    var ps, os := Ascending(s.PendingOf(t)), Ascending(s.ApprovedOf(t));
    if k < |ps| {
      PendingRevocation(s, t, k);
      assert LifeSound(s, t, ps[k]);
    } else {
      ApprovedRevocation(s, t, k - |ps|);
      assert ApprovedSound(s, os[k - |ps|]);
    }
  }

  /** Revocations of distinct approvals that the log shows as standing. */
  ghost predicate Revocable(log: Log, rs: Log) {
    && (forall i :: 0 <= i < |rs| ==> rs[i].ApprovalRevoked?)
    && (forall i, j :: 0 <= i < j < |rs| ==> rs[i].approval != rs[j].approval)
    && (forall i :: 0 <= i < |rs| ==>
                      LifeIn(log, rs[i].approval) in {Requested(rs[i].operation), Granted(rs[i].operation)})
  }

  /** Such revocations, followed by events about no approval, leave nothing open. */
  lemma RevocationSettles(log: Log, rs: Log, tail: Log, a: ApprovalId)
    requires Revocable(log, rs)
    requires forall i :: 0 <= i < |tail| ==> !Concerns(tail[i], a)
    requires LifeIn(log, a) != Misused
    requires LifeIn(log, a).Requested? ==> exists k :: 0 <= k < |rs| && Concerns(rs[k], a)
    ensures var l := LifeIn(log + (rs + tail), a);
            l != Misused && !l.Requested? && (l != Absent ==> LifeIn(log, a) != Absent)
  {
    var batch := rs + tail;
    if k :| 0 <= k < |rs| && Concerns(rs[k], a) {
      LifeOnce(log, batch, k, a);
    } else {
      LifeUnconcerned(log, batch, a);
    }
  }

  lemma RevocationsAreRevocable(s: Supervisor, t: TaskId)
    requires LivesSound(s) && ApprovedsSound(s) && t in s.tasks && t in s.store.logs
    ensures Revocable(s.store.logs[t], s.Revocations(t))
  {
    var rs := s.Revocations(t);
    forall i | 0 <= i < |rs|
      ensures rs[i].ApprovalRevoked?
      ensures LifeIn(s.store.logs[t], rs[i].approval) in {Requested(rs[i].operation), Granted(rs[i].operation)}
    {
      RevocationLife(s, t, i);
    }
    forall i, j | 0 <= i < j < |rs| ensures rs[i].approval != rs[j].approval {
      RevokedOnce(s, t, i, j);
    }
  }

  lemma RevocationsSettle(s: Supervisor, t: TaskId, rs: Log, tail: Log)
    requires t in s.store.logs && Revocable(s.store.logs[t], rs)
    requires forall i, a :: 0 <= i < |tail| ==> !Concerns(tail[i], a)
    requires forall a :: LifeIn(s.store.logs[t], a) != Misused
    requires forall a :: LifeIn(s.store.logs[t], a).Requested? ==> exists k :: 0 <= k < |rs| && Concerns(rs[k], a)
    ensures SettlesLives(s, t, rs + tail)
  {
    forall a
      ensures var l := LifeIn(s.store.logs[t] + (rs + tail), a);
              l != Misused && !l.Requested? && (l != Absent ==> LifeIn(s.store.logs[t], a) != Absent)
    {
      RevocationSettles(s.store.logs[t], rs, tail, a);
    }
  }

  /** After the closing batch no approval of `t` is open. */
  lemma FinishSettles(s: Supervisor, t: TaskId, next: TaskState, failure: Option<ErrorCode>)
    requires LivesSound(s) && ApprovedsSound(s) && t in s.tasks && t in s.store.logs && next.IsTerminal()
    ensures SettlesLives(s, t, s.TransitionBatch(t, s.tasks[t].state, next, failure))
  {
    RevocationsAreRevocable(s, t);
    forall a
      ensures LifeIn(s.store.logs[t], a) != Misused
      ensures LifeIn(s.store.logs[t], a).Requested? ==>
                exists k :: 0 <= k < |s.Revocations(t)| && Concerns(s.Revocations(t)[k], a)
    {
      OpenIsRevoked(s, t, a);
    }
    RevocationsSettle(s, t, s.Revocations(t), TransitionEvents(s.tasks[t].state, next, failure));
  }

  lemma OpenIsRevoked(s: Supervisor, t: TaskId, a: ApprovalId)
    requires LivesSound(s) && t in s.tasks && t in s.store.logs
    ensures LifeIn(s.store.logs[t], a) != Misused
    ensures LifeIn(s.store.logs[t], a).Requested? ==>
              exists k :: 0 <= k < |s.Revocations(t)| && Concerns(s.Revocations(t)[k], a)
  {
    assert LifeSound(s, t, a);
    if PendsFor(s, a, t) {
      RevokedIfPending(s, t, a);
    }
  }

  lemma RevokedIfPending(s: Supervisor, t: TaskId, a: ApprovalId)
    requires PendsFor(s, a, t)
    ensures exists k :: 0 <= k < |s.Revocations(t)| && Concerns(s.Revocations(t)[k], a)
  {
    var ps := Ascending(s.PendingOf(t));
    assert a in ps;
    var k :| 0 <= k < |ps| && ps[k] == a;
    PendingRevocation(s, t, k);
  }

  lemma FinishLives(s: Supervisor, n: Supervisor, t: TaskId, r: TaskRecord, batch: Log)
    requires LivesSound(s) && ApprovedsSound(s) && Finishes(s, n, t, r, batch)
    ensures LivesSound(n)
  {
    var failure :| batch == s.TransitionBatch(t, s.tasks[t].state, r.state, failure);
    FinishSettles(s, t, r.state, failure);
    DropLives(s, n, t, r, batch);
  }

  lemma FinishSound(s: Supervisor, n: Supervisor, t: TaskId, r: TaskRecord, batch: Log)
    requires Sound(s) && Finishes(s, n, t, r, batch)
    ensures Sound(n)
  {
    FinishTasks(s, n, t, r, batch);
    FinishAuthority(s, n, t, r, batch);
    FinishPendings(s, n, t, r, batch);
    FinishApproveds(s, n, t, r, batch);
    FinishLives(s, n, t, r, batch);
    DropWaiters(s, n, t, r);
  }

  /******* Submission *******/

  ghost predicate Enrolls(s: Supervisor, n: Supervisor, t: TaskId, r: TaskRecord, batch: Log) {
    && t !in s.used && r.startedAt.None? && (r.state.Queued? || r.state.Rejected?)
    && r.spec.idempotencyKey !in s.idempotency
    && LastState(batch) == Some(r.state)
    && (forall i, a :: 0 <= i < |batch| ==> !Concerns(batch[i], a))
    && n.tasks == s.tasks[t := r] && n.store.logs == s.store.logs[t := batch]
    && n.idempotency == s.idempotency[r.spec.idempotencyKey := t]
    && n.recovered == s.recovered && n.authority == s.authority && n.pending == s.pending
    && n.approved == s.approved && n.used == s.used + {t}
  }

  lemma EnrollTasks(s: Supervisor, n: Supervisor, t: TaskId, r: TaskRecord, batch: Log)
    requires TasksSound(s) && Enrolls(s, n, t, r, batch)
    ensures TasksSound(n)
  {
    forall u | u in s.recovered ensures u != t {
      assert RecoveredSound(s, u);
    }
    forall u | u in n.tasks ensures TaskSound(n, u) {
      if u != t {
        assert TaskSound(s, u);
      }
    }
    forall u | u in n.recovered ensures RecoveredSound(n, u) {
      assert RecoveredSound(s, u);
    }
    forall k | k in n.idempotency
      ensures n.idempotency[k] in n.tasks && n.tasks[n.idempotency[k]].spec.idempotencyKey == k {
      if k != r.spec.idempotencyKey {
        assert s.idempotency[k] in s.tasks && TaskSound(s, s.idempotency[k]);
      }
    }
  }

  lemma EnrollPendings(s: Supervisor, n: Supervisor, t: TaskId, r: TaskRecord, batch: Log)
    requires PendingsSound(s) && WaitersHavePending(s) && Enrolls(s, n, t, r, batch)
    requires t !in s.tasks
    ensures PendingsSound(n) && WaitersHavePending(n)
  {
    forall a | a in n.pending ensures PendingSound(n, a) {
      assert PendingSound(s, a);
    }
    WaitersKept(s, n, t);
  }

  lemma EnrollApproveds(s: Supervisor, n: Supervisor, t: TaskId, r: TaskRecord, batch: Log)
    requires ApprovedsSound(s) && Enrolls(s, n, t, r, batch) && t !in s.tasks
    ensures ApprovedsSound(n)
  {
    forall o | o in n.approved ensures ApprovedSound(n, o) {
      assert ApprovedSound(s, o);
    }
  }

  lemma EnrollLives(s: Supervisor, n: Supervisor, t: TaskId, r: TaskRecord, batch: Log)
    requires LivesSound(s) && PendingsSound(s) && Enrolls(s, n, t, r, batch) && t !in s.tasks
    ensures LivesSound(n)
  {
    forall a ensures LifeIn(batch, a) == Absent {
      LifeUnconcerned([], batch, a);
      assert [] + batch == batch;
    }
    forall u, a ensures LifeSound(n, u, a) {
      assert LifeSound(s, u, a);
      if u == t && a in s.pending {
        assert PendingSound(s, a);
      }
    }
  }

  lemma EnrollSound(s: Supervisor, n: Supervisor, t: TaskId, r: TaskRecord, batch: Log)
    requires Sound(s) && Enrolls(s, n, t, r, batch)
    ensures Sound(n)
  {
    assert t !in s.tasks by {
      assert forall u :: u in s.tasks ==> TaskSound(s, u);
    }
    EnrollTasks(s, n, t, r, batch);
    EnrollPendings(s, n, t, r, batch);
    EnrollApproveds(s, n, t, r, batch);
    EnrollLives(s, n, t, r, batch);
  }
}
