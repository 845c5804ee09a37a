/** Every gated run is, for its supervisor, an orderly run of supervisor calls: what is proved of those
    holds of gates and of the Agent runtime. */
module GateRuns {
  import opened Audit
  import opened Supervision
  import opened Soundness
  import opened Synchrony
  import opened Runs
  import opened Gate
  import opened GateSafety

  ghost predicate Reached(s: Supervisor, cs: seq<Command>, n: Supervisor) {
    Drawn(s, cs) && OrderlyRun(s, cs) && Run(s, cs) == n
  }

  lemma ReachedNone(s: Supervisor)
    ensures Reached(s, [], s)
  {
  }

  lemma ReachedOne(s: Supervisor, c: Command)
    requires DrawsFresh(s, c) && Orderly(s, c)
    ensures Reached(s, [c], Step(s, c))
  {
    hide Step, DrawsFresh, Orderly;
    assert [c][1..] == [];
    ReachedNone(Step(s, c));
  }

  lemma {:induction false} ReachedOn(s: Supervisor, cs: seq<Command>, n: Supervisor, ds: seq<Command>, k: Supervisor)
    requires Reached(s, cs, n) && Reached(n, ds, k)
    ensures Reached(s, cs + ds, k)
    decreases cs
  {
    hide Step, DrawsFresh, Orderly;
    if cs == [] {
      assert cs + ds == ds;
    } else {
      assert (cs + ds)[0] == cs[0] && (cs + ds)[1..] == cs[1..] + ds;
      ReachedOn(Step(s, cs[0]), cs[1..], n, ds, k);
    }
  }

  lemma RequestIsRun(y: System, c: GateCommand)
    requires Admissible(y, c) && c.GateRequest?
    ensures var call := CallRequest(c.task, c.operation.request, c.ttl, c.sweptAt, c.now, c.o, c.a);
            DrawsFresh(y.supervisor, call) && Orderly(y.supervisor, call)
              && GateStep(y, c).supervisor == Step(y.supervisor, call)
  {
    hide Supervisor.RequestOperation;
  }

  lemma ApproveIsRun(y: System, c: GateCommand) returns (cs: seq<Command>)
    requires Admissible(y, c) && c.GateApprove?
    ensures Reached(y.supervisor, cs, GateStep(y, c).supervisor)
  {
    hide Supervisor.ApproveOperation, Supervisor.AuthorizeOperation, Reached;
    var s, g, a := y.supervisor, y.gates[c.gate], c.approval;
    if a !in g.index || g.index[a] !in g.pending {
      ReachedNone(s);
      return [];
    }
    var approve := CallApprove(a, c.sweptAt, c.now);
    ReachedOne(s, approve);
    cs := [approve];
    var n := Step(s, approve);
    if s.ApproveOperation(a, c.sweptAt, c.now).1.Ok? {
      var consume := CallAuthorize(g.pending[g.index[a]].task, g.index[a], g.pending[g.index[a]].operation.request,
        c.consumedAt);
      ReachedOne(n, consume);
      ReachedOn(s, cs, n, [consume], Step(n, consume));
      cs := cs + [consume];
    }
  }

  lemma DenyIsRun(y: System, c: GateCommand) returns (cs: seq<Command>)
    requires Admissible(y, c) && c.GateDeny?
    ensures Reached(y.supervisor, cs, GateStep(y, c).supervisor)
  {
    hide Supervisor.DenyOperation, Reached;
    if c.approval in y.gates[c.gate].index {
      cs := [CallDeny(c.approval, c.sweptAt)];
      ReachedOne(y.supervisor, cs[0]);
    } else {
      cs := [];
      ReachedNone(y.supervisor);
    }
  }

  lemma OtherIsRun(y: System, c: GateCommand) returns (cs: seq<Command>)
    requires Admissible(y, c) && (c.GateExpire? || c.GateCancel? || c.Direct?)
    ensures Reached(y.supervisor, cs, GateStep(y, c).supervisor)
  {
    hide Supervisor.ExpireApprovals, Supervisor.Cancel, Reached, GateState.Without, GateState.EndedTasks;
    cs := [if c.GateExpire? then CallExpire(c.now) else if c.GateCancel? then CallCancel(c.task) else c.command];
    ReachedOne(y.supervisor, cs[0]);
  }

  lemma GateStepIsRun(y: System, c: GateCommand) returns (cs: seq<Command>)
    requires Admissible(y, c)
    ensures Reached(y.supervisor, cs, GateStep(y, c).supervisor)
  {
    hide Reached, GateStep, Step, DrawsFresh, Orderly;
    match c
    case GateRequest(_, _, _, _, _, _, _, _) =>
      RequestIsRun(y, c);
      cs := [CallRequest(c.task, c.operation.request, c.ttl, c.sweptAt, c.now, c.o, c.a)];
      ReachedOne(y.supervisor, cs[0]);
    case GateApprove(_, _, _, _, _) => cs := ApproveIsRun(y, c);
    case GateDeny(_, _, _) => cs := DenyIsRun(y, c);
    case GateExpire(_, _) => cs := OtherIsRun(y, c);
    case GateCancel(_, _) => cs := OtherIsRun(y, c);
    case Direct(_) => cs := OtherIsRun(y, c);
  }

  lemma {:induction false} GateRunIsRun(y: System, cs: seq<GateCommand>, n: System) returns (ds: seq<Command>)
    requires GateRun(y, cs, n)
    ensures Reached(y.supervisor, ds, n.supervisor)
    decreases cs
  {
    hide Reached, GateStep;
    if cs == [] {
      ds := [];
      ReachedNone(y.supervisor);
    } else {
      var k := GateStep(y, cs[0]);
      ds := GateStepIsRun(y, cs[0]);
      var more := GateRunIsRun(k, cs[1..], n);
      ReachedOn(y.supervisor, ds, k.supervisor, more, n.supervisor);
      ds := ds + more;
    }
  }

  /** In gated runs the start of a Task is written once. */
  lemma GateRunKeepsStart(y: System, cs: seq<GateCommand>, n: System, t: TaskId)
    requires Safe(y) && GateRun(y, cs, n) && t in y.supervisor.tasks && y.supervisor.tasks[t].startedAt.Some?
    ensures t in n.supervisor.tasks && n.supervisor.tasks[t].startedAt == y.supervisor.tasks[t].startedAt
  {
    hide GateRun, Sound, Agreement, IdentitiesSound, Accounted;
    var ds := GateRunIsRun(y, cs, n);
    RunKeepsStart(y.supervisor, ds, t);
  }
}
