/** Gated runs in which a gate retains as many operations as one likes while nothing is pending. */
module GateSurplus {
  import opened Basics
  import opened Lifecycle
  import opened Capability
  import opened Audit
  import opened Approval
  import opened Supervision
  import opened Soundness
  import opened Replaying
  import opened GateCalls
  import opened Gate
  import opened GateSafety
  import opened AgentCalls
  import opened Scenarios

  /******* As many specifications as one likes *******/

  const KEYS: nat := 26 * 26 * 26

  function Letter(d: nat): char
    requires d < 26
  {
    ('a' as int + d) as char
  }

  function Key(k: nat): string
    requires k < KEYS
  {
    [Letter(k / 26 / 26), Letter(k / 26 % 26), Letter(k % 26)]
  }

  lemma LettersDiffer(d: nat, e: nat)
    requires d < 26 && e < 26 && Letter(d) == Letter(e)
    ensures d == e
  {
  }

  lemma KeysDiffer(j: nat, k: nat)
    requires j < KEYS && k < KEYS && Key(j) == Key(k)
    ensures j == k
  {
    hide Letter;
    assert Key(j)[0] == Key(k)[0] && Key(j)[1] == Key(k)[1] && Key(j)[2] == Key(k)[2];
    LettersDiffer(j / 26 / 26, k / 26 / 26);
    LettersDiffer(j / 26 % 26, k / 26 % 26);
    LettersDiffer(j % 26, k % 26);
    assert j / 26 == 26 * (j / 26 / 26) + j / 26 % 26 && k / 26 == 26 * (k / 26 / 26) + k / 26 % 26;
  }

  lemma KeyIsValid(k: nat)
    requires k < KEYS
    ensures IsValidIdentifier(Key(k), MAX_IDEMPOTENCY_KEY_BYTES)
  {
    AsciiLength(Key(k));
  }

  /******* One round: submit, start, request, let expire *******/

  /** Round `k` asks at this instant, and its approval expires at that of the next round. */
  function Tick(k: nat): nat { 8 + k * MILLISECOND }

  /** After `k` rounds nothing is pending and identifiers from 3k on, keys from number k on are unused. */
  ghost predicate Quiet(s: Supervisor, k: nat, bound: nat) {
    && Sound(s) && s.recovered == map[] && |s.tasks| == k && s.maxTasks == bound
    && s.store.plan == [] && s.store.capacity == 8
    && s.pending == map[] && s.authority == Fresh(DEFAULT_MAX_PENDING_APPROVALS, DEFAULT_MAX_TTL)
    && (forall x :: x in s.used ==> x < 3 * k)
    && (forall key :: key in s.idempotency ==> exists j: nat :: j < k && j < KEYS && key == Key(j))
  }

  lemma KeyIsUnused(s: Supervisor, k: nat, bound: nat)
    requires Quiet(s, k, bound) && k < KEYS
    ensures Key(k) !in s.idempotency
  {
    hide Sound, Key;
    if Key(k) in s.idempotency {
      var j: nat :| j < k && j < KEYS && Key(k) == Key(j);
      KeysDiffer(j, k);
    }
  }

  lemma NoLogYet(s: Supervisor, t: TaskId)
    requires TasksSound(s) && t !in s.used
    ensures t !in s.store.logs && s.store.LogOf(t) == [] && t !in s.tasks
  {
    NewTaskIsUnknown(s, t);
  }

  /** Round `k` draws three identifiers and waits. */
  function Asked(s: Supervisor, k: nat): Supervisor
    requires k < KEYS
  {
    Waiting(s, Key(k), 3 * k, 3 * k + 1, 3 * k + 2, Tick(k))
  }

  lemma QuietIsRoomy(s: Supervisor, k: nat, bound: nat)
    requires Quiet(s, k, bound) && k < bound <= KEYS
    ensures Roomy(s, Key(k), 3 * k, 3 * k + 1, Tick(k)) && 3 * k !in s.tasks
    ensures 3 * k !in s.used && 3 * k + 1 !in s.used && 3 * k + 2 !in s.used
  {
    hide Key, AuthoritySound, PendingsSound, ApprovedsSound, LivesSound, WaitersHavePending, IsValidIdentifier;
    KeyIsUnused(s, k, bound);
    KeyIsValid(k);
    NoLogYet(s, 3 * k);
    assert s.authority.ExpiredIds(Tick(k)) == [];
  }

  lemma NextTick(k: nat)
    ensures Tick(k) + MILLISECOND == Tick(k + 1)
  {
  }

  lemma LonePending(au: Authority, a: ApprovalId, p: PendingApproval)
    requires au.pending == map[]
    ensures au.Insert(a, p).pending == map[a := p]
  {
  }

  lemma ExpireRound(s: Supervisor, k: nat, bound: nat)
    requires Quiet(s, k, bound) && k < bound <= KEYS
    ensures var n := Step(Asked(s, k), CallExpire(Tick(k + 1)));
            && n.tasks == s.tasks[3 * k := TaskRecord(SpecOf(Key(k)), Failed, Some(Tick(k)))]
            && n.idempotency == s.idempotency[Key(k) := 3 * k] && n.recovered == s.recovered && n.maxTasks == s.maxTasks
            && n.store.plan == [] && n.store.capacity == s.store.capacity
            && n.pending == map[] && n.authority == s.authority && n.used == s.used + {3 * k, 3 * k + 1, 3 * k + 2}
  {
    hide Sound, Key, Step, Authority.ExpiredIds, Roomy, Waiting, Tick, Authority.Insert, Authority.Remove;
    NextTick(k);
    QuietIsRoomy(s, k, bound);
    WaitingState(s, Key(k), 3 * k, 3 * k + 1, 3 * k + 2, Tick(k));
    var w, a := Asked(s, k), 3 * k + 2;
    LonePending(s.authority, a, PendingApproval(3 * k, 3 * k + 1, "a", Tick(k + 1)));
    OneExpired(w.authority, a, PendingApproval(3 * k, 3 * k + 1, "a", Tick(k + 1)), Tick(k + 1));
    ExpireStep(w, a);
    ExpireOnlyStep(w, a, Tick(k + 1));
    RemoveUndoesInsert(s.authority, a, PendingApproval(3 * k, 3 * k + 1, "a", Tick(k + 1)));
  }

  /******* Rounds through a gate *******/

  ghost predicate Stage(y: System, k: nat, bound: nat) {
    && Safe(y) && Quiet(y.supervisor, k, bound)
    && y.gates != [] && |y.gates[0].pending| == k && forall x :: x in y.given ==> x.operation.identity < k
  }

  function Value(k: nat): Operation { Operation(k, CALL, "payload") }

  /** The system while round `k` waits for approval. */
  lemma AskRound(y: System, k: nat, bound: nat) returns (n: System, cs: seq<GateCommand>)
    requires Stage(y, k, bound) && k < bound <= KEYS
    ensures GateRun(y, cs, n) && RunReadings(cs) == [Tick(k), Tick(k), Tick(k)]
    ensures n.supervisor == Asked(y.supervisor, k) && n.given == y.given + {Execution(3 * k, Value(k))}
    ensures n.gates == y.gates[0 := y.gates[0].Keep(3 * k + 1, PendingExecution(3 * k, 3 * k + 2, Value(k)))]
  {
    hide GateRun, Safe, Quiet, Key, Step, Waiting, Roomy, Logged;
    var s, t := y.supervisor, 3 * k;
    QuietIsRoomy(s, k, bound);
    Submits(s, Key(k), t, t + 1, Tick(k));
    Starts(s, Key(k), t, t + 1, Tick(k));
    var one := Direct(CallSubmit(SpecOf(Key(k)), t));
    var two := Direct(CallStart(t, Tick(k)));
    var y1, y2 := y.(supervisor := AfterSubmit(s, Key(k), t)), y.(supervisor := AfterStart(s, Key(k), t, Tick(k)));
    GateRunOne(y, one);
    assert GateStep(y, one) == y1;
    GateRunOne(y1, two);
    assert GateStep(y1, two) == y2;
    GateRunOn(y, [one], y1, [two], y2);
    cs := [GateRequest(0, t, Value(k), MILLISECOND, Tick(k), Tick(k), t + 1, t + 2)];
    n := AskGate(y, y2, k, bound, cs[0]);
    GateRunOn(y, [one] + [two], y2, cs, n);
    ReadingsOn([one], [two]);
    ReadingsOn([one] + [two], cs);
    ReadingsOne(one);
    ReadingsOne(two);
    ReadingsOne(cs[0]);
    cs := [one] + [two] + cs;
  }

  lemma AskGate(y: System, y2: System, k: nat, bound: nat, c: GateCommand) returns (n: System)
    requires Stage(y, k, bound) && k < bound <= KEYS
             && y2 == y.(supervisor := AfterStart(y.supervisor, Key(k), 3 * k, Tick(k)))
    requires c == GateRequest(0, 3 * k, Value(k), MILLISECOND, Tick(k), Tick(k), 3 * k + 1, 3 * k + 2)
    ensures GateRun(y2, [c], n)
    ensures n.supervisor == Asked(y.supervisor, k) && n.given == y.given + {Execution(3 * k, Value(k))}
    ensures n.gates == y.gates[0 := y.gates[0].Keep(3 * k + 1, PendingExecution(3 * k, 3 * k + 2, Value(k)))]
  {
    hide GateRun, Safe, Quiet, Key, Step, Waiting, Roomy, Logged, Supervisor.RequestOperation;
    QuietIsRoomy(y.supervisor, k, bound);
    Asks(y.supervisor, Key(k), 3 * k, 3 * k + 1, 3 * k + 2, Tick(k));
    GateRunOne(y2, c);
    n := GateStep(y2, c);
    assert n.gates == y.gates[0 := y.gates[0].Keep(3 * k + 1, PendingExecution(3 * k, 3 * k + 2, Value(k)))];
  }

  lemma Round(y: System, k: nat, bound: nat) returns (n: System, cs: seq<GateCommand>)
    requires Stage(y, k, bound) && k < bound <= KEYS
    ensures GateRun(y, cs, n) && Stage(n, k + 1, bound) && |n.gates| == |y.gates|
    ensures RunReadings(cs) == [Tick(k), Tick(k), Tick(k), Tick(k + 1)]
  {
    hide GateRun, Safe, Quiet, Key, Step, Asked;
    var w;
    w, cs := AskRound(y, k, bound);
    var last := Direct(CallExpire(Tick(k + 1)));
    GateRunOne(w, last);
    n := GateStep(w, last);
    GateRunOn(y, cs, w, [last], n);
    ReadingsOn(cs, [last]);
    ReadingsOne(last);
    cs := cs + [last];
    GateRunIsSafe(y, cs, n);
    StageAgain(y, k, bound, n);
  }

  lemma StageAgain(y: System, k: nat, bound: nat, n: System)
    requires Stage(y, k, bound) && k < bound <= KEYS && Safe(n)
    requires n.supervisor == Step(Asked(y.supervisor, k), CallExpire(Tick(k + 1)))
    requires n.given == y.given + {Execution(3 * k, Value(k))}
    requires n.gates == y.gates[0 := y.gates[0].Keep(3 * k + 1, PendingExecution(3 * k, 3 * k + 2, Value(k)))]
    ensures Stage(n, k + 1, bound)
  {
    hide Safe, Quiet, Key, Step, Asked;
    SafeIsSound(n);
    QuietAgain(y.supervisor, k, bound, n.supervisor);
    FreshOperation(y, k, bound);
    assert n.gates[0].pending.Keys == y.gates[0].pending.Keys + {3 * k + 1};
  }

  lemma FreshOperation(y: System, k: nat, bound: nat)
    requires Stage(y, k, bound)
    ensures 3 * k + 1 !in y.gates[0].pending
  {
    hide Steady, IdentitiesSound, Accounted;
    forall o | o in y.gates[0].pending ensures o < 3 * k {
      assert Holds(y.gates, 0, o) && EntrySound(y.supervisor, o, EntryAt(y.gates, 0, o));
    }
  }

  lemma SafeIsSound(y: System)
    requires Safe(y)
    ensures Sound(y.supervisor)
  {
    hide Sound, Agreement, IdentitiesSound, Accounted;
  }

  lemma QuietAgain(s: Supervisor, k: nat, bound: nat, n: Supervisor)
    requires Quiet(s, k, bound) && k < bound <= KEYS && n == Step(Asked(s, k), CallExpire(Tick(k + 1))) && Sound(n)
    ensures Quiet(n, k + 1, bound)
  {
    hide Step, Asked, Key, TasksSound, AuthoritySound, PendingsSound, ApprovedsSound, LivesSound, WaitersHavePending;
    QuietIsRoomy(s, k, bound);
    ExpireRound(s, k, bound);
    forall key | key in n.idempotency ensures exists j: nat :: j < k + 1 && j < KEYS && key == Key(j) {
      if key == Key(k) {
        assert k < k + 1 && k < KEYS;
      } else {
        var j: nat :| j < k && j < KEYS && key == Key(j);
      }
    }
  }

  lemma {:induction false} Rounds(y: System, k: nat, bound: nat) returns (n: System, cs: seq<GateCommand>)
    requires Stage(y, k, bound) && k <= bound <= KEYS
    ensures GateRun(y, cs, n) && Stage(n, bound, bound) && |n.gates| == |y.gates|
    ensures Monotone(RunReadings(cs)) && forall i :: 0 <= i < |RunReadings(cs)| ==> Tick(k) <= RunReadings(cs)[i]
    decreases bound - k
  {
    hide GateRun, Stage, RunReadings;
    if k == bound {
      n, cs := y, [];
      NoRun(y);
      NoReadings();
    } else {
      var m, ds := Round(y, k, bound);
      n, cs := Rounds(m, k + 1, bound);
      GateRunOn(y, ds, m, cs, n);
      ReadingsOn(ds, cs);
      assert Tick(k) <= Tick(k + 1);
      cs := ds + cs;
    }
  }

  lemma {:induction false} ReadingsOn(cs: seq<GateCommand>, ds: seq<GateCommand>)
    ensures RunReadings(cs + ds) == RunReadings(cs) + RunReadings(ds)
    decreases cs
  {
    hide GateReadings;
    if cs == [] {
      assert cs + ds == ds;
    } else {
      assert (cs + ds)[0] == cs[0] && (cs + ds)[1..] == cs[1..] + ds;
      ReadingsOn(cs[1..], ds);
    }
  }

  lemma ReadingsOne(c: GateCommand)
    ensures RunReadings([c]) == GateReadings(c)
  {
    hide GateReadings;
    assert [c][1..] == [];
    assert RunReadings([]) == [];
  }

  lemma NoReadings()
    ensures RunReadings([]) == []
  {
  }

  /** For every number up to 26 cubed there is a gated run from an empty supervisor, every batch of it
      taken and its clock never going back, after which one gate retains that many operations and nothing is
      pending: with 1025 the gate holds more than the authority's limit allows to be pending. */
  lemma {:induction false} GateOutgrowsAuthority(count: nat) returns (n: System, cs: seq<GateCommand>)
    requires count <= KEYS
    ensures GateRun(Assembled(Empty(count, 8, []), 1), cs, n) && Monotone(RunReadings(cs))
    ensures |n.gates| == 1 && |n.gates[0].pending| == count && n.supervisor.pending == map[]
            && n.supervisor.authority.pending == map[]
    ensures n.supervisor.authority.maxPending == DEFAULT_MAX_PENDING_APPROVALS < 1025 < KEYS
  {
    hide GateRun;
    AssembledIsSafe(count, 8, [], 1);
    EmptyIsSound(count, 8, []);
    var y := Assembled(Empty(count, 8, []), 1);
    assert Stage(y, 0, count);
    hide Safe, Sound;
    n, cs := Rounds(y, 0, count);
  }
}
