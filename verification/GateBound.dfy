/** How many operations gates can retain. The authority's limit does not bound it, because approvals that
    the supervisor expires leave their operations in the gate: the surplus is exactly the operations of
    ended Tasks, and the number of Tasks is the bound. */
module GateBound {
  import opened Audit
  import opened Supervision
  import opened Soundness
  import opened Synchrony
  import opened Subsidence
  import opened GateCalls
  import opened Gate
  import opened GateSafety

  /******* Counting *******/

  ghost predicate Injects<X, Y>(s: set<X>, f: map<X, Y>, t: set<Y>) {
    && (forall x :: x in s ==> x in f && f[x] in t)
    && (forall x, y :: x in s && y in s && f[x] == f[y] ==> x == y)
  }

  lemma {:induction false} InjectionCount<X, Y>(s: set<X>, f: map<X, Y>, t: set<Y>)
    requires Injects(s, f, t)
    ensures |s| <= |t|
    decreases s
  {
    if s != {} {
      var x :| x in s;
      InjectionCount(s - {x}, f, t - {f[x]});
    }
  }

  /** All retained operations: gate and operation identifier. */
  function Entries(gates: Gates): set<(int, OperationId)> {
    set i, o | 0 <= i < |gates| && o in gates[i].pending :: (i, o)
  }

  /** Those of Tasks that have ended. */
  function EndedEntries(y: System): set<(int, OperationId)> {
    set e | e in Entries(y.gates) && Ended(y.supervisor, EntryAt(y.gates, e.0, e.1).task)
  }

  /** A retained operation is pending in the supervisor if and only if its Task has not ended. */
  lemma {:induction false} EntryIsPendingIff(y: System, i: int, o: OperationId)
    requires Safe(y) && Holds(y.gates, i, o)
    ensures EntryAt(y.gates, i, o).approval in y.supervisor.pending <==>
            !Ended(y.supervisor, EntryAt(y.gates, i, o).task)
  {
    hide IdentitiesSound, Accounted, Synced, ScopesSound;
    var e := EntryAt(y.gates, i, o);
    assert EntrySound(y.supervisor, o, e);
    assert e.approval in y.supervisor.pending ==> PendingSound(y.supervisor, e.approval);
  }

  function ApprovalsOf(gates: Gates, es: set<(int, OperationId)>): map<(int, OperationId), ApprovalId>
    requires forall e :: e in es ==> Holds(gates, e.0, e.1)
  {
    map e | e in es :: EntryAt(gates, e.0, e.1).approval
  }

  /** The approvals of the entries whose Tasks have not ended are pending, each once, ... */
  lemma LiveEntriesInject(y: System, live: set<(int, OperationId)>)
    requires Safe(y) && live == Entries(y.gates) - EndedEntries(y)
    ensures |live| <= |y.supervisor.pending.Keys|
  {
    hide Steady, IdentitiesSound, Accounted, GatesConsistent, EntriesSound, Covered;
    assert forall e :: e in live ==> Holds(y.gates, e.0, e.1) && !Ended(y.supervisor, EntryAt(y.gates, e.0, e.1).task);
    hide Entries, EndedEntries;
    var f := ApprovalsOf(y.gates, live);
    forall e | e in live
      ensures f[e] in y.supervisor.pending && y.supervisor.pending[f[e]].task == EntryAt(y.gates, e.0, e.1).task
    {
      LiveEntryMatches(y, e.0, e.1);
    }
    InjectionCount(live, f, y.supervisor.pending.Keys);
  }

  /** ... and every pending approval is one of them. */
  lemma PendingInjects(y: System, live: set<(int, OperationId)>)
    requires Safe(y) && live == Entries(y.gates) - EndedEntries(y)
    ensures |y.supervisor.pending.Keys| <= |live|
  {
    hide Steady, IdentitiesSound, Accounted, EntriesSound, OneEntryPerTask;
    forall a | a in y.supervisor.pending ensures exists e :: e in live && EntryAt(y.gates, e.0, e.1).approval == a {
      PendingIsLive(y, a);
    }
    var f := map a | a in y.supervisor.pending :: EntryOf(y, a, live);
    hide Safe, Entries, EndedEntries;
    InjectionCount(y.supervisor.pending.Keys, f, live);
  }

  ghost function EntryOf(y: System, a: ApprovalId, live: set<(int, OperationId)>): (e: (int, OperationId))
    requires forall e :: e in live ==> Holds(y.gates, e.0, e.1)
    requires exists e :: e in live && EntryAt(y.gates, e.0, e.1).approval == a
    ensures e in live && EntryAt(y.gates, e.0, e.1).approval == a
  {
    var e :| e in live && EntryAt(y.gates, e.0, e.1).approval == a;
    e
  }

  lemma PendingIsLive(y: System, a: ApprovalId)
    requires Safe(y) && a in y.supervisor.pending
    ensures exists e :: e in Entries(y.gates) - EndedEntries(y) && EntryAt(y.gates, e.0, e.1).approval == a
  {
    hide Steady, IdentitiesSound, Accounted, EntriesSound, OneEntryPerTask;
    var i :| Indexed(y.gates, i, a);
    var o := y.gates[i].index[a];
    assert Holds(y.gates, i, o) && EntryAt(y.gates, i, o).approval == a;
    EntryIsPendingIff(y, i, o);
    assert (i, o) in Entries(y.gates) - EndedEntries(y);
  }

  lemma LiveEntryMatches(y: System, i: int, o: OperationId)
    requires Safe(y) && Holds(y.gates, i, o) && !Ended(y.supervisor, EntryAt(y.gates, i, o).task)
    ensures var e := EntryAt(y.gates, i, o);
            e.approval in y.supervisor.pending && y.supervisor.pending[e.approval].task == e.task
  {
    hide Steady, IdentitiesSound, Accounted;
    assert EntrySound(y.supervisor, o, EntryAt(y.gates, i, o));
  }

  /** In every gated run the gates together retain one operation for each pending approval and one for
      each ended Task that was not purged; so they are within the authority's limit whenever no retained
      Task has ended. */
  lemma {:induction false} RetainedCount(y: System)
    requires Safe(y)
    ensures |Entries(y.gates)| == |y.supervisor.pending| + |EndedEntries(y)|
    ensures EndedEntries(y) == {} ==> |Entries(y.gates)| <= y.supervisor.authority.maxPending
  {
    var live := Entries(y.gates) - EndedEntries(y);
    LiveEntriesInject(y, live);
    PendingInjects(y, live);
    assert EndedEntries(y) <= Entries(y.gates);
    assert live + EndedEntries(y) == Entries(y.gates);
    assert |y.supervisor.pending| == |y.supervisor.pending.Keys|;
    WithinAuthority(y.supervisor);
  }

  lemma WithinAuthority(s: Supervisor)
    requires Steady(s)
    ensures |s.pending.Keys| <= s.authority.maxPending
  {
    assert |s.authority.pending| == |s.authority.pending.Keys|;
  }

  /** In every gated run the gates together retain at most one operation per Task. */
  lemma {:induction false} GatesAreBoundedByTasks(y: System)
    requires Safe(y)
    ensures |Entries(y.gates)| <= |y.supervisor.tasks|
  {
    hide Steady, IdentitiesSound, Accounted, GatesConsistent, Covered;
    var es := Entries(y.gates);
    assert forall e :: e in es ==> Holds(y.gates, e.0, e.1);
    hide Entries;
    var f := map e | e in es :: EntryAt(y.gates, e.0, e.1).task;
    forall e | e in es ensures f[e] in y.supervisor.tasks.Keys {
      assert EntrySound(y.supervisor, e.1, EntryAt(y.gates, e.0, e.1));
    }
    InjectionCount(es, f, y.supervisor.tasks.Keys);
  }
}
