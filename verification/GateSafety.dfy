/** Gates and supervisor agree, and every released operation is executed exactly once, in every run in
    which operations go through gates and `start` is not applied to waiting Tasks. */
module GateSafety {
  import opened Basics
  import opened Capability
  import opened Policy
  import opened Audit
  import opened Approval
  import opened Supervision
  import opened Soundness
  import opened SoundSteps
  import opened Calls
  import opened Synchrony
  import opened Scopes
  import opened Subsidence
  import opened GateCalls
  import opened Gate

  type Gates = seq<GateState>

  /******* What gates hold *******/

  ghost predicate GatesConsistent(gates: Gates) { forall i :: 0 <= i < |gates| ==> gates[i].Consistent() }

  predicate Holds(gates: Gates, i: int, o: OperationId) { 0 <= i < |gates| && o in gates[i].pending }

  function EntryAt(gates: Gates, i: int, o: OperationId): PendingExecution
    requires Holds(gates, i, o)
  {
    gates[i].pending[o]
  }

  /** A retained operation is the one the supervisor has pending, or its Task has ended. */
  predicate EntrySound(s: Supervisor, o: OperationId, e: PendingExecution) {
    && e.task in s.tasks && o in s.used && e.approval in s.used
    && if e.approval in s.pending then s.pending[e.approval] == PendingOperation(e.task, o, e.operation.request)
       else Ended(s, e.task)
  }

  ghost predicate EntriesSound(s: Supervisor, gates: Gates) {
    forall i, o :: Holds(gates, i, o) ==> EntrySound(s, o, EntryAt(gates, i, o))
  }

  predicate Indexed(gates: Gates, i: int, a: ApprovalId) { 0 <= i < |gates| && a in gates[i].index }

  /** Some gate retains the operation of every pending approval. */
  ghost predicate Covered(s: Supervisor, gates: Gates) {
    forall a :: a in s.pending ==> exists i :: Indexed(gates, i, a)
  }

  ghost predicate OneEntryPerTask(gates: Gates) {
    forall i, o, j, p ::
      Holds(gates, i, o) && Holds(gates, j, p) && EntryAt(gates, i, o).task == EntryAt(gates, j, p).task ==>
        i == j && o == p
  }

  /** Gates and supervisor agree. */
  ghost predicate Agreement(s: Supervisor, gates: Gates) {
    GatesConsistent(gates) && EntriesSound(s, gates) && Covered(s, gates) && OneEntryPerTask(gates)
  }

  /******* The gates stay, approvals only disappear *******/

  lemma SubsidingKeepsAgreement(s: Supervisor, n: Supervisor, gates: Gates)
    requires Agreement(s, gates) && TasksStay(s, n) && ApprovalsShrink(s, n)
    ensures Agreement(n, gates)
  {
    forall i, o | Holds(gates, i, o) ensures EntrySound(n, o, EntryAt(gates, i, o)) {
      assert EntrySound(s, o, EntryAt(gates, i, o));
    }
  }

  /******* A gate drops operations that are no longer pending *******/

  ghost predicate Sheds(s: Supervisor, g: GateState, h: GateState) {
    && h.Consistent()
    && (forall o :: o in h.pending ==> o in g.pending && h.pending[o] == g.pending[o])
    && (forall o :: o in g.pending && o !in h.pending ==> g.pending[o].approval !in s.pending)
  }

  lemma SheddingKeepsEntries(s: Supervisor, gates: Gates, i: nat, h: GateState)
    requires i < |gates| && Sheds(s, gates[i], h)
    ensures var after := gates[i := h];
            forall j, o :: Holds(after, j, o) ==> Holds(gates, j, o) && EntryAt(after, j, o) == EntryAt(gates, j, o)
  {
  }

  lemma SheddingKeepsAgreement(s: Supervisor, gates: Gates, i: nat, h: GateState)
    requires Agreement(s, gates) && i < |gates| && Sheds(s, gates[i], h)
    ensures Agreement(s, gates[i := h])
  {
    var after := gates[i := h];
    SheddingKeepsEntries(s, gates, i, h);
    forall a | a in s.pending ensures exists j :: Indexed(after, j, a) {
      var j :| Indexed(gates, j, a);
      if j == i {
        var o := gates[i].index[a];
        assert o in h.pending && h.pending[o].approval == a;
      }
      assert Indexed(after, j, a);
    }
  }

  lemma DropSheds(s: Supervisor, g: GateState, a: ApprovalId)
    requires g.Consistent() && a in g.index && a !in s.pending
    ensures Sheds(s, g, g.Drop(a, g.index[a]))
  {
  }

  lemma WithoutSheds(s: Supervisor, g: GateState, ts: set<TaskId>)
    requires g.Consistent() && PendingsSound(s)
    requires forall o :: o in g.pending ==>
                           EntrySound(s, o, g.pending[o]) && (g.pending[o].task in ts ==> Ended(s, g.pending[o].task))
    ensures Sheds(s, g, g.Without(ts))
  {
    var h := g.Without(ts);
    forall o | o in g.pending && o !in h.pending ensures g.pending[o].approval !in s.pending {
      assert EntrySound(s, o, g.pending[o]);
      assert g.pending[o].approval in s.pending ==> PendingSound(s, g.pending[o].approval);
    }
    WithoutStaysConsistent(g, ts);
  }

  /** Dropping whole Tasks keeps the two maps inverse. */
  lemma WithoutStaysConsistent(g: GateState, ts: set<TaskId>)
    requires g.Consistent()
    ensures g.Without(ts).Consistent()
  {
    var h := g.Without(ts);
    forall o | o in h.pending ensures h.pending[o].approval in h.index {
      assert g.index[g.pending[o].approval] == o;
    }
  }

  /******* A gate takes in the operation of a new approval *******/

  lemma FreshEntry(s: Supervisor, gates: Gates, t: TaskId, o: OperationId, a: ApprovalId)
    requires EntriesSound(s, gates) && GatesConsistent(gates) && NoOrphans(s)
    requires o !in s.used && a !in s.used && t in s.tasks && s.tasks[t].state.Running?
    ensures forall j, p :: Holds(gates, j, p) ==>
                             p != o && EntryAt(gates, j, p).task != t && EntryAt(gates, j, p).approval != a
    ensures forall j :: 0 <= j < |gates| ==> a !in gates[j].index
  {
    forall j, p | Holds(gates, j, p)
      ensures p != o && EntryAt(gates, j, p).task != t && EntryAt(gates, j, p).approval != a
    {
      assert EntrySound(s, p, EntryAt(gates, j, p));
    }
    forall j | 0 <= j < |gates| ensures a !in gates[j].index {
      if a in gates[j].index {
        assert Holds(gates, j, gates[j].index[a]);
      }
    }
  }

  lemma KeepStaysConsistent(g: GateState, o: OperationId, e: PendingExecution)
    requires g.Consistent() && o !in g.pending && e.approval !in g.index
    ensures g.Keep(o, e).Consistent()
  {
  }

  lemma OpeningKeepsAgreement(s: Supervisor, n: Supervisor, gates: Gates, i: nat, t: TaskId, operation: Operation,
                              o: OperationId, a: ApprovalId)
    requires Agreement(s, gates) && NoOrphans(s) && i < |gates| && o !in s.used && a !in s.used
    requires TasksStay(s, n) && OpensOne(s, n, t, operation.request, o, a)
    ensures Agreement(n, gates[i := gates[i].Keep(o, PendingExecution(t, a, operation))])
  {
    hide GateState.Consistent, NoOrphans;
    FreshEntry(s, gates, t, o, a);
    var entry := PendingExecution(t, a, operation);
    var after := gates[i := gates[i].Keep(o, entry)];
    assert !Holds(gates, i, o);
    KeepStaysConsistent(gates[i], o, entry);
    KeptEntries(gates, i, o, entry);
    forall j, p | Holds(after, j, p) ensures EntrySound(n, p, EntryAt(after, j, p)) {
      if !(j == i && p == o) {
        assert EntrySound(s, p, EntryAt(gates, j, p));
      }
    }
    forall b | b in n.pending ensures exists j :: Indexed(after, j, b) {
      if b == a {
        assert Indexed(after, i, a);
      } else {
        var j :| Indexed(gates, j, b);
        assert Indexed(after, j, b);
      }
    }
  }

  lemma KeptEntries(gates: Gates, i: nat, o: OperationId, entry: PendingExecution)
    requires i < |gates|
    ensures var after := gates[i := gates[i].Keep(o, entry)];
            && (forall j, p :: Holds(after, j, p) && !(j == i && p == o) ==>
                                 Holds(gates, j, p) && EntryAt(after, j, p) == EntryAt(gates, j, p))
            && Holds(after, i, o) && EntryAt(after, i, o) == entry
  {
  }

  /******* A granted operation leaves its gate *******/

  lemma SpendingKeepsAgreement(s: Supervisor, n: Supervisor, gates: Gates, i: nat, a: ApprovalId)
    requires Agreement(s, gates) && i < |gates| && a in gates[i].index
    requires TasksStay(s, n) && SpendsOne(s, n, a)
    ensures Agreement(n, gates[i := gates[i].Drop(a, gates[i].index[a])])
  {
    var o := gates[i].index[a];
    var h := gates[i].Drop(a, o);
    var after := gates[i := h];
    DropSheds(n, gates[i], a);
    SheddingKeepsEntries(n, gates, i, h);
    assert Holds(gates, i, o);
    forall j, p | Holds(after, j, p) ensures EntrySound(n, p, EntryAt(after, j, p)) {
      assert EntrySound(s, p, EntryAt(gates, j, p)) && EntrySound(s, o, EntryAt(gates, i, o));
    }
    forall b | b in n.pending ensures exists j :: Indexed(after, j, b) {
      var j :| Indexed(gates, j, b);
      assert Indexed(after, j, b);
    }
  }

  /******* What was executed *******/

  predicate Ran(executions: seq<Execution>, identity: nat) {
    exists k :: 0 <= k < |executions| && executions[k].operation.identity == identity
  }

  /** Every executed and every retained value is one given to `request` for that Task; no value was
      executed twice and none that was executed is retained. */
  ghost predicate IdentitiesSound(gates: Gates, executions: seq<Execution>, given: set<Execution>) {
    && (forall k :: 0 <= k < |executions| ==> executions[k] in given)
    && (forall k, l :: 0 <= k < l < |executions| ==>
       executions[k].operation.identity != executions[l].operation.identity)
    && (forall i, o :: Holds(gates, i, o) ==>
                         var e := EntryAt(gates, i, o);
                         Execution(e.task, e.operation) in given && !Ran(executions, e.operation.identity))
    && (forall x, y :: x in given && y in given && x.operation.identity == y.operation.identity ==> x == y)
  }

  /** The adapter calls made for a Task, in order. */
  function CallsOf(executions: seq<Execution>, t: TaskId): seq<Execution> {
    if executions == [] then [] else
    var x := executions[|executions| - 1];
    CallsOf(executions[..|executions| - 1], t) + if x.task == t then [x] else []
  }

  lemma CallsOn(executions: seq<Execution>, x: Execution, t: TaskId)
    ensures CallsOf(executions + [x], t) == CallsOf(executions, t) + if x.task == t then [x] else []
  {
    assert (executions + [x])[..|executions|] == executions;
  }

  /** Event `e` warrants adapter call `x` under a specification: the specification's capabilities cover
      the request, and the event is the consumption of an approval exactly if the specification wants
      one. */
  ghost predicate Warrants(spec: TaskSpec, e: TaskEventKind, x: Execution) {
    && Releases(e) && WellStated(x.operation.request) && Admits(spec, x.operation.request)
    && (e.ApprovalConsumed? <==> NeedsConsent(spec, x.operation.request))
  }

  ghost predicate TaskAccounted(s: Supervisor, t: TaskId, calls: seq<Execution>, releases: Log) {
    && |calls| == |releases| && (calls != [] ==> t in s.tasks)
    && forall k :: 0 <= k < |calls| ==> Warrants(s.tasks[t].spec, releases[k], calls[k])
  }

  /** Each Task's adapter calls are, one by one and in order, warranted by the releases in its log. */
  ghost predicate Accounted(s: Supervisor, executions: seq<Execution>) {
    forall t :: TaskAccounted(s, t, CallsOf(executions, t), ReleaseLog(s.store.LogOf(t)))
  }

  lemma AccountedStays(s: Supervisor, n: Supervisor, t: TaskId, calls: seq<Execution>, releases: Log)
    requires TaskAccounted(s, t, calls, releases) && TasksStay(s, n)
    ensures TaskAccounted(n, t, calls, releases)
  {
    hide Warrants;
  }

  lemma AccountedOn(s: Supervisor, t: TaskId, calls: seq<Execution>, releases: Log, x: Execution, e: TaskEventKind)
    requires TaskAccounted(s, t, calls, releases) && t in s.tasks && Warrants(s.tasks[t].spec, e, x)
    ensures TaskAccounted(s, t, calls + [x], releases + [e])
  {
    hide Warrants;
  }

  lemma ReleaseAccounted(s: Supervisor, n: Supervisor, executions: seq<Execution>, x: Execution, e: TaskEventKind)
    requires Accounted(s, executions) && TasksStay(s, n) && ReleasesOne(s, n, x.task, e)
    requires x.task in s.tasks && Warrants(s.tasks[x.task].spec, e, x)
    ensures Accounted(n, executions + [x])
  {
    hide Warrants, ReleaseLog, CallsOf;
    forall t ensures TaskAccounted(n, t, CallsOf(executions + [x], t), ReleaseLog(n.store.LogOf(t))) {
      CallsOn(executions, x, t);
      AccountedStays(s, n, t, CallsOf(executions, t), ReleaseLog(s.store.LogOf(t)));
      if t == x.task {
        AccountedOn(n, t, CallsOf(executions, t), ReleaseLog(s.store.LogOf(t)), x, e);
      }
      assert ReleaseLog(n.store.LogOf(t)) == ReleaseLog(s.store.LogOf(t)) + if t == x.task then [e] else [];
    }
  }

  lemma NoReleaseAccounted(s: Supervisor, n: Supervisor, executions: seq<Execution>)
    requires Accounted(s, executions) && TasksStay(s, n) && ReleasesNothing(s, n)
    ensures Accounted(n, executions)
  {
    hide Warrants, ReleaseLog, CallsOf;
    forall t ensures TaskAccounted(n, t, CallsOf(executions, t), ReleaseLog(n.store.LogOf(t))) {
      AccountedStays(s, n, t, CallsOf(executions, t), ReleaseLog(s.store.LogOf(t)));
      assert ReleaseLog(n.store.LogOf(t)) == ReleaseLog(s.store.LogOf(t));
    }
  }

  lemma FewerIdentities(gates: Gates, i: nat, h: GateState, executions: seq<Execution>, given: set<Execution>)
    requires IdentitiesSound(gates, executions, given) && i < |gates|
    requires forall o :: o in h.pending ==> o in gates[i].pending && h.pending[o] == gates[i].pending[o]
    ensures IdentitiesSound(gates[i := h], executions, given)
  {
    var after := gates[i := h];
    forall j, o | Holds(after, j, o)
      ensures var e := EntryAt(after, j, o);
              Execution(e.task, e.operation) in given && !Ran(executions, e.operation.identity)
    {
      assert Holds(gates, j, o) && EntryAt(gates, j, o) == EntryAt(after, j, o);
    }
  }

  lemma GivenIdentities(gates: Gates, executions: seq<Execution>, given: set<Execution>, x: Execution)
    requires IdentitiesSound(gates, executions, given)
    requires forall y :: y in given ==> y.operation.identity != x.operation.identity
    ensures IdentitiesSound(gates, executions, given + {x}) && !Ran(executions, x.operation.identity)
  {
  }

  lemma RetainedIdentities(gates: Gates, i: nat, o: OperationId, entry: PendingExecution, executions: seq<Execution>,
                           given: set<Execution>)
    requires IdentitiesSound(gates, executions, given) && i < |gates|
    requires Execution(entry.task, entry.operation) in given && !Ran(executions, entry.operation.identity)
    ensures IdentitiesSound(gates[i := gates[i].Keep(o, entry)], executions, given)
  {
    KeptEntries(gates, i, o, entry);
  }

  /** A value that no gate retains any more is executed. */
  lemma ExecutedIdentities(gates: Gates, executions: seq<Execution>, given: set<Execution>, x: Execution)
    requires IdentitiesSound(gates, executions, given) && x in given && !Ran(executions, x.operation.identity)
    requires forall i, o :: Holds(gates, i, o) ==> EntryAt(gates, i, o).task != x.task
    ensures IdentitiesSound(gates, executions + [x], given)
  {
    var more := executions + [x];
    forall i, o | Holds(gates, i, o) ensures !Ran(more, EntryAt(gates, i, o).operation.identity) {
      var e := EntryAt(gates, i, o);
      assert Execution(e.task, e.operation) in given && !Ran(executions, e.operation.identity);
      forall k | 0 <= k < |more| ensures more[k].operation.identity != e.operation.identity {
        if k < |executions| {
          assert more[k] == executions[k];
        }
      }
    }
  }

  /******* The invariant of gated runs *******/

  ghost predicate Safe(y: System) {
    && Steady(y.supervisor) && Agreement(y.supervisor, y.gates)
    && IdentitiesSound(y.gates, y.executions, y.given) && Accounted(y.supervisor, y.executions)
  }

  /** The supervisor winds down some approvals and nothing else happens. */
  lemma SubsidingIsSafe(y: System, n: Supervisor)
    requires Safe(y) && Steady(n) && Subsides(y.supervisor, n)
    ensures Safe(y.(supervisor := n))
  {
    hide Steady, Agreement, IdentitiesSound, Accounted, TasksStay, ApprovalsShrink, ReleasesNothing;
    SubsidingKeepsAgreement(y.supervisor, n, y.gates);
    NoReleaseAccounted(y.supervisor, n, y.executions);
  }

  lemma SheddingIsSafe(y: System, i: nat, h: GateState)
    requires Safe(y) && i < |y.gates| && Sheds(y.supervisor, y.gates[i], h)
    ensures Safe(y.(gates := y.gates[i := h]))
  {
    FewerIdentities(y.gates, i, h, y.executions, y.given);
    hide Steady, Agreement, IdentitiesSound, Accounted, Sheds;
    SheddingKeepsAgreement(y.supervisor, y.gates, i, h);
  }

  /** Subsidence keeps the supervisor steady when its other invariants are kept. */
  lemma SubsidingStaysSteady(s: Supervisor, n: Supervisor)
    requires Steady(s) && Subsides(s, n) && Sound(n) && Synced(n) && ScopesSound(n)
    ensures Steady(n)
  {
    hide Sound, Synced, ScopesSound, TasksStay, ReleasesNothing;
    assert n.approved.Keys == {};
  }

  /******* Calls that bypass the gates *******/

  /** Without outstanding grants `authorize_operation` does nothing. */
  lemma AuthorizeIsVain(s: Supervisor, c: Command)
    requires s.approved == map[] && c.CallAuthorize?
    ensures Step(s, c) == s
  {
    hide ErrorCount, Evaluate, ApprovalGrant.Authorize;
  }

  lemma DirectIsSafe(y: System, c: Command)
    requires Safe(y) && Admissible(y, Direct(c))
    ensures Safe(GateStep(y, Direct(c)))
  {
    hide Sound, Synced, ScopesSound, Agreement, IdentitiesSound, Accounted, Subsides, Step;
    var s := y.supervisor;
    if c.CallAuthorize? {
      AuthorizeIsVain(s, c);
    } else {
      StepKeepsSteady(s, c);
      StepSubsides(s, c);
      SubsidingStaysSteady(s, Step(s, c));
      SubsidingIsSafe(y, Step(s, c));
    }
  }

  /******* Requests *******/

  /** A value not given before, for a Task. */
  ghost predicate NewValue(y: System, x: Execution) {
    forall z :: z in y.given ==> z.operation.identity != x.operation.identity
  }

  ghost predicate Kept(n: Supervisor) { Sound(n) && Synced(n) && ScopesSound(n) }

  lemma FailedRequestIsSafe(y: System, n: Supervisor, x: Execution)
    requires Safe(y) && Kept(n) && Subsides(y.supervisor, n) && NewValue(y, x)
    ensures Safe(y.(supervisor := n, given := y.given + {x}))
  {
    hide Sound, Synced, ScopesSound, Agreement, IdentitiesSound, Accounted, Subsides;
    SubsidingStaysSteady(y.supervisor, n);
    SubsidingIsSafe(y, n);
    GivenIdentities(y.gates, y.executions, y.given, x);
  }

  lemma PermittedRequestIsSafe(y: System, n: Supervisor, x: Execution)
    requires Safe(y) && Kept(n) && NewValue(y, x)
    requires x.task in y.supervisor.tasks && y.supervisor.tasks[x.task].state.Running?
    requires Warrants(y.supervisor.tasks[x.task].spec, OperationAllowed, x)
    requires TasksStay(y.supervisor, n) && ApprovalsShrink(y.supervisor, n)
    requires ReleasesOne(y.supervisor, n, x.task, OperationAllowed)
    ensures Safe(y.(supervisor := n, executions := y.executions + [x], given := y.given + {x}))
  {
    hide Sound, ScopesSound, Agreement, Accounted, TasksStay, ReleasesOne, IdentitiesSound, Warrants;
    assert n.approved.Keys == {};
    SubsidingKeepsAgreement(y.supervisor, n, y.gates);
    ReleaseAccounted(y.supervisor, n, y.executions, x, OperationAllowed);
    GivenIdentities(y.gates, y.executions, y.given, x);
    RunningTasksRetainNothing(y.supervisor, y.gates, x.task);
    ExecutedIdentities(y.gates, y.executions, y.given + {x}, x);
  }

  lemma RunningTasksRetainNothing(s: Supervisor, gates: Gates, t: TaskId)
    requires Agreement(s, gates) && NoOrphans(s) && t in s.tasks && s.tasks[t].state.Running?
    ensures forall j, p :: Holds(gates, j, p) ==> EntryAt(gates, j, p).task != t
  {
    forall j, p | Holds(gates, j, p) ensures EntryAt(gates, j, p).task != t {
      assert EntrySound(s, p, EntryAt(gates, j, p));
    }
  }

  lemma OpenedRequestIsSafe(y: System, n: Supervisor, i: nat, x: Execution, o: OperationId, a: ApprovalId)
    requires Safe(y) && Kept(n) && NewValue(y, x) && i < |y.gates| && o !in y.supervisor.used && a !in y.supervisor.used
    requires TasksStay(y.supervisor, n) && OpensOne(y.supervisor, n, x.task, x.operation.request, o, a)
    requires ReleasesNothing(y.supervisor, n)
    ensures Safe(y.(supervisor := n, given := y.given + {x},
                    gates := y.gates[i := y.gates[i].Keep(o, PendingExecution(x.task, a, x.operation))]))
  {
    hide Sound, ScopesSound, Agreement, Accounted, TasksStay, ReleasesNothing, IdentitiesSound;
    OpeningKeepsAgreement(y.supervisor, n, y.gates, i, x.task, x.operation, o, a);
    NoReleaseAccounted(y.supervisor, n, y.executions);
    GivenIdentities(y.gates, y.executions, y.given, x);
    RetainedIdentities(y.gates, i, o, PendingExecution(x.task, a, x.operation), y.executions, y.given + {x});
  }

  /** The effect of `request` once the sweep has succeeded. */
  function Requested(y: System, i: nat, x: Execution, ttl: nat, now: nat, o: OperationId, a: ApprovalId): System
    requires i < |y.gates|
  {
    var (n, r) := y.supervisor.RequestSwept(x.task, x.operation.request, ttl, now, o, a);
    var z := y.(supervisor := n, given := y.given + {x});
    if r.Err? || r.value.OperationRefused? then z
    else if r.value.OperationPermitted? then z.(executions := y.executions + [x])
    else z.(gates := y.gates[i := y.gates[i].Keep(r.value.approval.operation,
                                                   PendingExecution(x.task, r.value.approval.approval, x.operation))])
  }

  lemma RequestedIsSafe(y: System, i: nat, x: Execution, ttl: nat, now: nat, o: OperationId, a: ApprovalId)
    requires Safe(y) && i < |y.gates| && NewValue(y, x) && o !in y.supervisor.used && a !in y.supervisor.used
    requires Kept(y.supervisor.RequestSwept(x.task, x.operation.request, ttl, now, o, a).0)
    ensures Safe(Requested(y, i, x, ttl, now, o, a))
  {
    hide Supervisor.RequestSwept, Supervisor.OpenApproval, Safe, Kept, NewValue, Sound, Synced, ScopesSound, OpensOne,
         ReleasesOne, TasksStay, ReleasesNothing, ApprovalsShrink, Subsides;
    var k := y.supervisor;
    var (n, r) := k.RequestSwept(x.task, x.operation.request, ttl, now, o, a);
    SafeParts(y, a);
    if r.Err? || r.value.OperationRefused? {
      SweptRequestFails(k, x.task, x.operation.request, ttl, now, o, a);
      FailedRequestIsSafe(y, n, x);
    } else if r.value.OperationPermitted? {
      SweptRequestPermits(k, x.task, x.operation.request, ttl, now, o, a);
      PermittedIsRunning(k, x.task, x.operation.request, ttl, now, o, a);
      PermittedIsWarranted(k, x, ttl, now, o, a);
      PermittedRequestIsSafe(y, n, x);
    } else {
      SweptRequestOpens(k, x.task, x.operation.request, ttl, now, o, a);
      OpenAnswers(k, x.task, x.operation.request, ttl, now, o, a);
      OpeningOpensOne(k, x.task, x.operation.request, ttl, now, o, a);
      OpenedRequestIsSafe(y, n, i, x, o, a);
    }
  }

  lemma SafeParts(y: System, a: ApprovalId)
    requires Safe(y)
    ensures TasksSound(y.supervisor) && AuthoritySound(y.supervisor) && PendingsSound(y.supervisor)
    ensures IsValidConfig(y.supervisor.authority.maxPending, y.supervisor.authority.maxTtl)
    ensures a !in y.supervisor.used ==> a !in y.supervisor.pending
  {
    hide Synced, ScopesSound, Agreement, IdentitiesSound, Accounted;
    if a !in y.supervisor.used {
      FreshIsAbsent(y.supervisor, a);
    }
  }

  lemma PermittedIsRunning(k: Supervisor, t: TaskId, request: CapabilityRequest, ttl: nat, now: nat, o: OperationId,
                           a: ApprovalId)
    requires k.RequestSwept(t, request, ttl, now, o, a).1.Ok?
    ensures t in k.tasks && k.tasks[t].state.Running?
  {
    hide ErrorCount, Evaluate, Supervisor.OpenApproval, AuditLog.Append;
  }

  lemma PermittedIsWarranted(k: Supervisor, x: Execution, ttl: nat, now: nat, o: OperationId, a: ApprovalId)
    requires k.RequestSwept(x.task, x.operation.request, ttl, now, o, a).1 == Ok(OperationPermitted)
    ensures x.task in k.tasks && Warrants(k.tasks[x.task].spec, OperationAllowed, x)
  {
    hide ErrorCount, Evaluate, Supervisor.OpenApproval, AuditLog.Append, WellStated, Admits, NeedsConsent;
    if x.task in k.tasks {
      OpenNeverPermits(k, x.task, x.operation.request, ttl, now, o, a);
      if ErrorCount(k.tasks[x.task].spec) == 0 {
        PolicyFollowsCapabilities(k.tasks[x.task].spec, x.operation.request);
      }
    }
  }

  lemma RequestIsSafe(y: System, c: GateCommand)
    requires Safe(y) && c.GateRequest? && Admissible(y, c)
    ensures Safe(GateStep(y, c))
  {
    hide Sound, Synced, ScopesSound, Agreement, IdentitiesSound, Accounted, Subsides, Supervisor.ExpireApprovals,
         Supervisor.RequestSwept;
    var s, x := y.supervisor, Execution(c.task, c.operation);
    var call := CallRequest(c.task, c.operation.request, c.ttl, c.sweptAt, c.now, c.o, c.a);
    var (k, swept) := s.ExpireApprovals(c.sweptAt);
    SweepKeepsSteady(s, c.sweptAt);
    StepKeepsSteady(s, call);
    if swept.Err? {
      assert GateStep(y, c).gates == y.gates;
      assert GateStep(y, c) == y.(supervisor := k, given := y.given + {x});
      FailedRequestIsSafe(y, k, x);
    } else {
      var yk := y.(supervisor := k);
      SubsidingIsSafe(y, k);
      RequestedIsSafe(yk, c.gate, x, c.ttl, c.now, c.o, c.a);
      assert GateStep(y, c).gates == Requested(yk, c.gate, x, c.ttl, c.now, c.o, c.a).gates;
      assert GateStep(y, c).executions == Requested(yk, c.gate, x, c.ttl, c.now, c.o, c.a).executions;
    }
  }

  /******* Approvals *******/

  lemma FailedApprovalIsSafe(y: System, a: ApprovalId, now: nat)
    requires Safe(y) && y.supervisor.ApproveSwept(a, now).1.Err? && Kept(y.supervisor.ApproveSwept(a, now).0)
    ensures Safe(y.(supervisor := y.supervisor.ApproveSwept(a, now).0))
  {
    hide Sound, Synced, ScopesSound, Agreement, IdentitiesSound, Accounted, Subsides, Supervisor.ApproveSwept;
    SafeParts(y, a);
    SweptApproveFails(y.supervisor, a, now);
    SubsidingStaysSteady(y.supervisor, y.supervisor.ApproveSwept(a, now).0);
    SubsidingIsSafe(y, y.supervisor.ApproveSwept(a, now).0);
  }

  /** The entry found under a pending approval is the supervisor's own operation. */
  lemma EntryMatches(s: Supervisor, gates: Gates, i: nat, a: ApprovalId)
    requires Agreement(s, gates) && i < |gates| && a in gates[i].index && a in s.pending
    ensures gates[i].index[a] in gates[i].pending
    ensures var o := gates[i].index[a];
            var e := gates[i].pending[o];
            s.pending[a] == PendingOperation(e.task, o, e.operation.request)
  {
    assert Holds(gates, i, gates[i].index[a]);
    assert EntrySound(s, gates[i].index[a], EntryAt(gates, i, gates[i].index[a]));
  }

  /** The state after a grant whose operation leaves gate `i` and is executed if `ran`. */
  function Spent(y: System, n: Supervisor, i: nat, a: ApprovalId, ran: bool): System
    requires i < |y.gates| && a in y.gates[i].index && y.gates[i].index[a] in y.gates[i].pending
  {
    var o := y.gates[i].index[a];
    var e := y.gates[i].pending[o];
    y.(supervisor := n, gates := y.gates[i := y.gates[i].Drop(a, o)],
       executions := y.executions + if ran then [Execution(e.task, e.operation)] else [])
  }

  lemma SpentIsSafe(y: System, n: Supervisor, i: nat, a: ApprovalId, ran: bool)
    requires Safe(y) && Kept(n) && i < |y.gates| && a in y.gates[i].index && y.gates[i].index[a] in y.gates[i].pending
    requires TasksStay(y.supervisor, n) && SpendsOne(y.supervisor, n, a)
    requires var p := y.supervisor.pending[a];
             if ran then ReleasesOne(y.supervisor, n, p.task, ApprovalConsumed(a, p.operation))
             else ReleasesNothing(y.supervisor, n)
    ensures Safe(Spent(y, n, i, a, ran))
  {
    hide Sound, Synced, ScopesSound, Agreement, Accounted, TasksStay, ReleasesNothing, ReleasesOne, IdentitiesSound,
         Warrants;
    EntryMatches(y.supervisor, y.gates, i, a);
    SpendingKeepsAgreement(y.supervisor, n, y.gates, i, a);
    var o := y.gates[i].index[a];
    var e, h := y.gates[i].pending[o], y.gates[i].Drop(a, o);
    FewerIdentities(y.gates, i, h, y.executions, y.given);
    if ran {
      ConsumptionIsWarranted(y.supervisor, a, Execution(e.task, e.operation));
      ReleaseAccounted(y.supervisor, n, y.executions, Execution(e.task, e.operation), ApprovalConsumed(a, o));
      SpentIdentities(y, i, a);
    } else {
      NoReleaseAccounted(y.supervisor, n, y.executions);
      assert y.executions + [] == y.executions;
    }
  }

  lemma ConsumptionIsWarranted(s: Supervisor, a: ApprovalId, x: Execution)
    requires Sound(s) && ScopesSound(s) && a in s.pending
    requires x.task == s.pending[a].task && x.operation.request == s.pending[a].request
    ensures x.task in s.tasks && Warrants(s.tasks[x.task].spec, ApprovalConsumed(a, s.pending[a].operation), x)
  {
    hide TasksSound, AuthoritySound, ApprovedsSound, LivesSound, WaitersHavePending, ErrorCount, Evaluate, WellStated,
         Admits, NeedsConsent, ActionOf;
    assert PendingSound(s, a) && InScope(s, x.task, x.operation.request) && SpecKept(s, x.task);
    PolicyFollowsCapabilities(s.tasks[x.task].spec, x.operation.request);
  }

  lemma SpentIdentities(y: System, i: nat, a: ApprovalId)
    requires IdentitiesSound(y.gates, y.executions, y.given) && Agreement(y.supervisor, y.gates)
    requires i < |y.gates| && a in y.gates[i].index && y.gates[i].index[a] in y.gates[i].pending
    ensures var o := y.gates[i].index[a];
            var e := y.gates[i].pending[o];
            IdentitiesSound(y.gates[i := y.gates[i].Drop(a, o)], y.executions + [Execution(e.task, e.operation)],
              y.given)
  {
    var o := y.gates[i].index[a];
    var e, h := y.gates[i].pending[o], y.gates[i].Drop(a, o);
    var after := y.gates[i := h];
    FewerIdentities(y.gates, i, h, y.executions, y.given);
    assert Holds(y.gates, i, o) && EntryAt(y.gates, i, o) == e;
    forall j, p | Holds(after, j, p) ensures EntryAt(after, j, p).task != e.task {
      assert Holds(y.gates, j, p) && EntryAt(y.gates, j, p) == EntryAt(after, j, p);
    }
    ExecutedIdentities(after, y.executions, y.given, Execution(e.task, e.operation));
  }

  lemma ApproveIsSafe(y: System, c: GateCommand)
    requires Safe(y) && c.GateApprove? && Admissible(y, c)
    ensures Safe(GateStep(y, c))
  {
    hide Sound, Synced, ScopesSound, Agreement, IdentitiesSound, Accounted, Subsides, Supervisor.ExpireApprovals,
         Supervisor.ApproveSwept, Supervisor.AuthorizeOperation, TasksStay, ReleasesOne, ReleasesNothing;
    var s, a, i := y.supervisor, c.approval, c.gate;
    var g := y.gates[i];
    var (k, swept) := s.ExpireApprovals(c.sweptAt);
    SweepKeepsSteady(s, c.sweptAt);
    SubsidingIsSafe(y, k);
    var yk := y.(supervisor := k);
    if a !in g.index || g.index[a] !in g.pending {
      assert GateStep(y, c).gates == y.gates && GateStep(y, c).executions == y.executions;
      assert GateStep(y, c) == y;
    } else {
      StepKeepsSteady(s, CallApprove(a, c.sweptAt, c.now));
      if swept.Err? {
        assert GateStep(y, c).gates == y.gates && GateStep(y, c).executions == y.executions;
        assert GateStep(y, c) == yk;
      } else {
        ApproveSweptIsSafe(y, yk, c);
      }
    }
  }

  lemma ApproveSweptIsSafe(y: System, yk: System, c: GateCommand)
    requires c.GateApprove? && Admissible(y, c) && Safe(yk)
    requires var g := y.gates[c.gate]; c.approval in g.index && g.index[c.approval] in g.pending
    requires y.supervisor.ExpireApprovals(c.sweptAt).1.Ok?
    requires yk == y.(supervisor := y.supervisor.ExpireApprovals(c.sweptAt).0)
    requires Kept(yk.supervisor.ApproveSwept(c.approval, c.now).0)
    ensures Safe(GateStep(y, c))
  {
    hide Sound, Synced, ScopesSound, Agreement, IdentitiesSound, Accounted, Subsides, Supervisor.ExpireApprovals,
         Supervisor.ApproveSwept, Supervisor.AuthorizeOperation, TasksStay, ReleasesOne, ReleasesNothing;
    var a, i, k := c.approval, c.gate, yk.supervisor;
    var (n, approved) := k.ApproveSwept(a, c.now);
    if approved.Err? {
      FailedApprovalIsSafe(yk, a, c.now);
      assert GateStep(y, c).gates == y.gates && GateStep(y, c).executions == y.executions;
      assert GateStep(y, c) == yk.(supervisor := n);
    } else {
      ApprovedThenConsumed(k, a, c.now, c.consumedAt);
      EntryMatches(k, yk.gates, i, a);
      var p := k.pending[a];
      var (f, q) := n.AuthorizeOperation(p.task, p.operation, p.request, c.consumedAt);
      AuthorizeKeeps(n, CallAuthorize(p.task, p.operation, p.request, c.consumedAt));
      SpentIsSafe(yk, f, i, a, q.Ok?);
      assert GateStep(y, c).executions == Spent(yk, f, i, a, q.Ok?).executions;
      assert GateStep(y, c) == Spent(yk, f, i, a, q.Ok?);
    }
  }

  lemma AuthorizeKeeps(n: Supervisor, c: Command)
    requires Kept(n) && c.CallAuthorize?
    ensures Kept(n.AuthorizeOperation(c.task, c.operation, c.request, c.now).0)
  {
    hide Sound, Synced, ScopesSound, Supervisor.AuthorizeOperation;
    StepSynced(n, c);
    StepScopes(n, c);
    assert Step(n, c) == n.AuthorizeOperation(c.task, c.operation, c.request, c.now).0;
  }

  /******* Denial, expiry and cancellation *******/

  lemma DenialRemoves(s: Supervisor, a: ApprovalId, sweptAt: nat)
    requires s.DenyOperation(a, sweptAt).1.Ok?
    ensures a !in s.DenyOperation(a, sweptAt).0.pending
  {
    hide Supervisor.ExpireApprovals, AuditLog.Append, Authority.Remove;
  }

  /** A supervisor call that subsides, after which gate `i` sheds what is no longer pending. */
  lemma SettledIsSafe(y: System, c: Command, i: nat, h: GateState)
    requires Safe(y) && i < |y.gates| && (c.CallDeny? || c.CallExpire? || c.CallCancel?)
    requires Sheds(Step(y.supervisor, c), y.gates[i], h)
    ensures Safe(y.(supervisor := Step(y.supervisor, c), gates := y.gates[i := h]))
  {
    hide Sound, Synced, ScopesSound, Agreement, IdentitiesSound, Accounted, Subsides, Step, Sheds;
    var s := y.supervisor;
    StepKeepsSteady(s, c);
    StepSubsides(s, c);
    SubsidingStaysSteady(s, Step(s, c));
    SubsidingIsSafe(y, Step(s, c));
    SheddingIsSafe(y.(supervisor := Step(s, c)), i, h);
  }

  lemma KeepingSheds(s: Supervisor, g: GateState)
    requires g.Consistent()
    ensures Sheds(s, g, g)
  {
  }

  lemma DenyIsSafe(y: System, c: GateCommand)
    requires Safe(y) && c.GateDeny? && Admissible(y, c)
    ensures Safe(GateStep(y, c))
  {
    hide Sound, Synced, ScopesSound, IdentitiesSound, Accounted, Supervisor.DenyOperation, Sheds, Steady;
    var s, a, i := y.supervisor, c.approval, c.gate;
    var g, call := y.gates[i], CallDeny(a, c.sweptAt);
    assert y.executions + [] == y.executions;
    if a !in g.index {
      assert GateStep(y, c).gates == y.gates;
    } else if s.DenyOperation(a, c.sweptAt).1.Err? {
      KeepingSheds(Step(s, call), g);
      SettledIsSafe(y, call, i, g);
      assert GateStep(y, c) == y.(supervisor := Step(s, call), gates := y.gates[i := g]);
    } else {
      DenialRemoves(s, a, c.sweptAt);
      DropSheds(Step(s, call), g, a);
      SettledIsSafe(y, call, i, g.Drop(a, g.index[a]));
      assert GateStep(y, c) == y.(supervisor := Step(s, call), gates := y.gates[i := g.Drop(a, g.index[a])]);
    }
  }

  /** Entries of gate `i` after a call that subsides. */
  lemma EntriesAfter(y: System, c: Command, i: nat)
    requires Safe(y) && i < |y.gates| && (c.CallDeny? || c.CallExpire? || c.CallCancel?)
    ensures PendingsSound(Step(y.supervisor, c)) && y.gates[i].Consistent()
    ensures forall o :: o in y.gates[i].pending ==> EntrySound(Step(y.supervisor, c), o, y.gates[i].pending[o])
  {
    hide Synced, ScopesSound, IdentitiesSound, Accounted, Step, TasksSound, AuthoritySound, PendingsSound,
         ApprovedsSound,
         LivesSound, WaitersHavePending;
    var n := Step(y.supervisor, c);
    StepKeepsSteady(y.supervisor, c);
    StepSubsides(y.supervisor, c);
    SubsidingKeepsAgreement(y.supervisor, n, y.gates);
    forall o | o in y.gates[i].pending ensures EntrySound(n, o, y.gates[i].pending[o]) {
      assert Holds(y.gates, i, o) && EntryAt(y.gates, i, o) == y.gates[i].pending[o];
    }
  }

  lemma ExpireIsSafe(y: System, c: GateCommand)
    requires Safe(y) && c.GateExpire? && Admissible(y, c)
    ensures Safe(GateStep(y, c))
  {
    hide Sound, Synced, ScopesSound, IdentitiesSound, Accounted, Supervisor.ExpireApprovals, Sheds, Steady, Agreement;
    var s, i, call := y.supervisor, c.gate, CallExpire(c.now);
    var g, n := y.gates[i], Step(s, call);
    EntriesAfter(y, call, i);
    assert y.executions + [] == y.executions;
    if s.ExpireApprovals(c.now).1.Err? {
      KeepingSheds(n, g);
      SettledIsSafe(y, call, i, g);
      assert GateStep(y, c) == y.(supervisor := n, gates := y.gates[i := g]);
    } else {
      WithoutSheds(n, g, g.EndedTasks(n));
      SettledIsSafe(y, call, i, g.Without(g.EndedTasks(n)));
      assert GateStep(y, c) == y.(supervisor := n, gates := y.gates[i := g.Without(g.EndedTasks(n))]);
    }
  }

  lemma CancelEnds(s: Supervisor, t: TaskId)
    requires s.Cancel(t).1.Ok?
    ensures t in s.Cancel(t).0.tasks ==> Ended(s.Cancel(t).0, t)
  {
    hide AuditLog.Append, Supervisor.Invalidate, Supervisor.TransitionBatch;
  }

  lemma CancelIsSafe(y: System, c: GateCommand)
    requires Safe(y) && c.GateCancel? && Admissible(y, c)
    ensures Safe(GateStep(y, c))
  {
    hide Sound, Synced, ScopesSound, IdentitiesSound, Accounted, Supervisor.Cancel, Sheds, Steady, Agreement;
    var s, i, call := y.supervisor, c.gate, CallCancel(c.task);
    var g, n := y.gates[i], Step(s, call);
    EntriesAfter(y, call, i);
    assert y.executions + [] == y.executions;
    if s.Cancel(c.task).1.Err? {
      KeepingSheds(n, g);
      SettledIsSafe(y, call, i, g);
      assert GateStep(y, c) == y.(supervisor := n, gates := y.gates[i := g]);
    } else {
      CancelEnds(s, c.task);
      WithoutSheds(n, g, {c.task});
      SettledIsSafe(y, call, i, g.Without({c.task}));
      assert GateStep(y, c) == y.(supervisor := n, gates := y.gates[i := g.Without({c.task})]);
    }
  }

  /******* Whole runs *******/

  lemma {:induction false} GateStepIsSafe(y: System, c: GateCommand)
    requires Safe(y) && Admissible(y, c)
    ensures Safe(GateStep(y, c))
  {
    hide *;
    match c
    case GateRequest(_, _, _, _, _, _, _, _) => RequestIsSafe(y, c);
    case GateApprove(_, _, _, _, _) => ApproveIsSafe(y, c);
    case GateDeny(_, _, _) => DenyIsSafe(y, c);
    case GateExpire(_, _) => ExpireIsSafe(y, c);
    case GateCancel(_, _) => CancelIsSafe(y, c);
    case Direct(command) => DirectIsSafe(y, command);
  }

  lemma {:induction false} GateRunIsSafe(y: System, cs: seq<GateCommand>, n: System)
    requires Safe(y) && GateRun(y, cs, n)
    ensures Safe(n)
    decreases cs
  {
    hide Safe, GateStep;
    if cs != [] {
      GateStepIsSafe(y, cs[0]);
      GateRunIsSafe(GateStep(y, cs[0]), cs[1..], n);
    }
  }

  lemma AssembledIsSafe(maxTasks: nat, capacity: nat, plan: seq<Option<EventStoreError>>, count: nat)
    ensures Safe(Assembled(Empty(maxTasks, capacity, plan), count))
  {
    EmptyIsSound(maxTasks, capacity, plan);
  }

  /** Exactly-once execution: in every gated run, each Task's adapter calls are, one by one and in order,
      warranted by the releases in its log, so that what is executed is covered by the Task's
      specification and was approved if that wants it; every executed value was given to `request` for
      that Task, no value was executed twice, and none still retained has been executed. */
  lemma {:induction false} ExactlyOnceExecution(maxTasks: nat, capacity: nat, plan: seq<Option<EventStoreError>>,
                                                count: nat, cs: seq<GateCommand>, n: System)
    requires GateRun(Assembled(Empty(maxTasks, capacity, plan), count), cs, n)
    ensures forall t ::
              var calls, releases := CallsOf(n.executions, t), ReleaseLog(n.supervisor.store.LogOf(t));
              && |calls| == |releases| && (calls != [] ==> t in n.supervisor.tasks)
              && forall k :: 0 <= k < |calls| ==> Warrants(n.supervisor.tasks[t].spec, releases[k], calls[k])
    ensures forall k :: 0 <= k < |n.executions| ==> n.executions[k] in n.given
    ensures forall k, l :: 0 <= k < l < |n.executions| ==>
                             n.executions[k].operation.identity != n.executions[l].operation.identity
    ensures forall i, o :: Holds(n.gates, i, o) ==> !Ran(n.executions, EntryAt(n.gates, i, o).operation.identity)
  {
    hide GateRun, Empty, Steady, Agreement;
    AssembledIsSafe(maxTasks, capacity, plan, count);
    GateRunIsSafe(Assembled(Empty(maxTasks, capacity, plan), count), cs, n);
  }

  /** Gates and supervisor agree: in every gated run each gate's two maps are inverse, every pending
      approval sits in exactly one gate with an equal request, any other entry belongs to an ended
      Task, no Task has two entries, and no grant is outstanding. */
  lemma {:induction false} GatesAgree(maxTasks: nat, capacity: nat, plan: seq<Option<EventStoreError>>, count: nat,
                                      cs: seq<GateCommand>, n: System)
    requires GateRun(Assembled(Empty(maxTasks, capacity, plan), count), cs, n)
    ensures GatesConsistent(n.gates) && OneEntryPerTask(n.gates) && n.supervisor.approved == map[]
    ensures forall a :: a in n.supervisor.pending ==>
                          && (exists i :: Indexed(n.gates, i, a))
                          && (forall i, j :: Indexed(n.gates, i, a) && Indexed(n.gates, j, a) ==> i == j)
    ensures forall i, o :: Holds(n.gates, i, o) ==>
                             var e := EntryAt(n.gates, i, o);
                             if e.approval in n.supervisor.pending then
                               n.supervisor.pending[e.approval] == PendingOperation(e.task, o, e.operation.request)
                             else Ended(n.supervisor, e.task)
  {
    hide GateRun, Empty, Accounted, IdentitiesSound, Sound, ScopesSound, Synced;
    AssembledIsSafe(maxTasks, capacity, plan, count);
    GateRunIsSafe(Assembled(Empty(maxTasks, capacity, plan), count), cs, n);
    forall a, i, j | a in n.supervisor.pending && Indexed(n.gates, i, a) && Indexed(n.gates, j, a) ensures i == j {
      EntryMatches(n.supervisor, n.gates, i, a);
      EntryMatches(n.supervisor, n.gates, j, a);
      assert Holds(n.gates, i, n.gates[i].index[a]) && Holds(n.gates, j, n.gates[j].index[a]);
    }
    forall i, o | Holds(n.gates, i, o) ensures EntrySound(n.supervisor, o, EntryAt(n.gates, i, o)) {
    }
  }

  /** After a successful `expire` the gate holds only operations that are pending in the supervisor. */
  lemma {:induction false} ExpireLeavesOnlyLive(y: System, i: nat, now: nat)
    requires Safe(y) && i < |y.gates|
    ensures var turn: Turn<nat, ()> := y.gates[i].Expire(y.supervisor, now);
            turn.result.Ok? ==>
              forall o :: o in turn.gate.pending ==>
                            var e := turn.gate.pending[o];
                            && e.approval in turn.supervisor.pending
                            && turn.supervisor.pending[e.approval] == PendingOperation(e.task, o, e.operation.request)
  {
    hide Safe, Supervisor.ExpireApprovals;
    EntriesAfter(y, CallExpire(now), i);
  }

  function DeadlineOf(s: Supervisor, a: ApprovalId): nat {
    if a in s.authority.pending then s.authority.pending[a].deadline else 0
  }

  /** The operation that a gate retains under an approval. */
  function RetainedFor(g: GateState, a: ApprovalId): Option<Execution> {
    if a in g.index && g.index[a] in g.pending then
      Some(Execution(g.pending[g.index[a]].task, g.pending[g.index[a]].operation))
    else None
  }

  /** How the backend answers the record of a consumption. */
  function ConsumptionRefusal(n: Supervisor, g: GateState, a: ApprovalId): Option<EventStoreError> {
    if a in g.index && g.index[a] in g.pending then
      n.store.Append(g.pending[g.index[a]].task, [ApprovalConsumed(a, g.index[a])]).1
    else None
  }

  lemma {:induction false} SweepKeepsDeadlines(s: Supervisor, ids: seq<ApprovalId>, count: nat, a: ApprovalId)
    requires a in s.Sweep(ids, count).0.authority.pending
    ensures a in s.authority.pending && s.Sweep(ids, count).0.authority.pending[a] == s.authority.pending[a]
    decreases ids
  {
    if ids != [] {
      var (s1, failure) := s.ExpireOne(ids[0]);
      if failure.None? {
        SweepKeepsDeadlines(s1, ids[1..], if ids[0] in s.pending then count + 1 else count, a);
      }
    }
  }

  lemma ExpiryKeepsDeadlines(s: Supervisor, now: nat, a: ApprovalId)
    requires a in s.ExpireApprovals(now).0.authority.pending
    ensures DeadlineOf(s.ExpireApprovals(now).0, a) == DeadlineOf(s, a)
  {
    SweepKeepsDeadlines(s, s.authority.ExpiredIds(now), 0, a);
  }

  /** Once `approve_operation` has succeeded behind the gate, consuming the grant fails only because
      the grant has expired meanwhile or the audit batch is refused, and the retained operation is
      executed exactly if neither is the case. */
  lemma {:induction false} ConsumingFailsOnlyByExpiryOrRefusal<E>(y: System, i: nat, a: ApprovalId, sweptAt: nat,
                                                                  now: nat, consumedAt: nat, works: Result<(), E>)
    requires Safe(y) && i < |y.gates| && a in y.gates[i].index && y.supervisor.ApproveOperation(a, sweptAt, now).1.Ok?
    ensures var turn := y.gates[i].ApproveAndExecute(y.supervisor, a, sweptAt, now, consumedAt, works);
            var refusal := ConsumptionRefusal(y.supervisor.ApproveOperation(a, sweptAt, now).0, y.gates[i], a);
            if consumedAt >= DeadlineOf(y.supervisor, a) then
              turn.result == Err(SupervisorFailed(ApprovalFailed(Expired))) && turn.executed.None?
            else if refusal.Some? then
              turn.result == Err(SupervisorFailed(EventStore(refusal.value))) && turn.executed.None?
            else
              && turn.executed.Some? && turn.executed == RetainedFor(y.gates[i], a)
              && turn.result == if works.Err? then Err(AdapterFailed(works.error)) else Ok(a)
  {
    hide Sound, Synced, ScopesSound, Agreement, IdentitiesSound, Accounted, Supervisor.ExpireApprovals,
         Supervisor.ApproveSwept, Supervisor.AuthorizeOperation, AuditLog.Append, TasksStay, ReleasesNothing;
    var k := y.supervisor.ExpireApprovals(sweptAt).0;
    SweepKeepsSteady(y.supervisor, sweptAt);
    SubsidingKeepsAgreement(y.supervisor, k, y.gates);
    ConsumingAfterApproval(k, a, now, consumedAt);
    ExpiryKeepsDeadlines(y.supervisor, sweptAt, a);
    EntryMatches(k, y.gates, i, a);
  }
}
