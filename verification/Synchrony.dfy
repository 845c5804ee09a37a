/** Orderly runs, in which `start` is applied only to Tasks that are not waiting for approval: every
    pending approval then belongs to a waiting Task, so that logs keep replaying. */
module Synchrony {
  import opened Capability
  import opened Audit
  import opened Supervision
  import opened Soundness
  import opened SoundSteps
  import opened Moves
  import opened Calls
  import opened Replaying

  /** Every pending approval belongs to a Task that waits for it. */
  ghost predicate NoOrphans(s: Supervisor) {
    forall a :: a in s.pending ==> s.pending[a].task in s.tasks && s.tasks[s.pending[a].task].state.WaitingApproval?
  }

  ghost predicate Synced(s: Supervisor) { LogsReplay(s) && NoOrphans(s) }

  /** A call that does not restart a waiting Task. */
  predicate Orderly(s: Supervisor, c: Command) {
    c.CallStart? && c.task in s.tasks ==> !s.tasks[c.task].state.WaitingApproval?
  }

  predicate OrderlyMove(s: Supervisor, m: Move) {
    m.Begin? && m.task in s.tasks ==> !s.tasks[m.task].state.WaitingApproval?
  }

  /** Moves that leave their Task without pending approval, or waiting. */
  lemma DropNoOrphans(s: Supervisor, n: Supervisor, t: TaskId, r: TaskRecord, batch: Log)
    requires NoOrphans(s) && Advanced(s, n, t, r, batch)
    requires forall a :: a in n.pending && a in s.pending ==> n.pending[a] == s.pending[a]
    requires forall a :: a in n.pending && a !in s.pending ==> n.pending[a].task == t
    requires r.state.WaitingApproval? || forall a :: a in n.pending ==> n.pending[a].task != t
    ensures NoOrphans(n)
  {
  }

  lemma NothingPendsUnlessWaiting(s: Supervisor, t: TaskId)
    requires NoOrphans(s) && t in s.tasks && !s.tasks[t].state.WaitingApproval?
    ensures forall a :: a in s.pending ==> s.pending[a].task != t
  {
  }

  /** Moves that leave the approval maps alone. */
  lemma PlainNoOrphans(s: Supervisor, m: Move, n: Supervisor)
    requires NoOrphans(s) && Does(s, m, n) && OrderlyMove(s, m) && (m.Begin? || m.Note? || m.Consume?)
    ensures NoOrphans(n)
  {
    hide InScope, ErrorCount, OpensAs, Closes, Grants, Finishes, Enrolls;
    assert m.task in s.tasks && !s.tasks[m.task].state.WaitingApproval?;
    NothingPendsUnlessWaiting(s, m.task);
    DropNoOrphans(s, n, m.task, RecordAfter(s, m), Batch(s, m));
  }

  lemma OpenNoOrphans(s: Supervisor, m: Move, n: Supervisor)
    requires NoOrphans(s) && Does(s, m, n) && m.Open? && m.approval !in s.pending
    ensures NoOrphans(n)
  {
    hide InScope, ErrorCount, KeepsApprovals, Closes, Grants, Finishes, Enrolls, Consumes;
    DropNoOrphans(s, n, m.task, RecordAfter(s, m), Batch(s, m));
  }

  /** Moves that take the pending approval of their Task away. */
  lemma RemovalNoOrphans(s: Supervisor, m: Move, n: Supervisor)
    requires PendingsSound(s) && NoOrphans(s) && Does(s, m, n) && (m.Close? || m.Grant?)
    ensures NoOrphans(n)
  {
    hide InScope, ErrorCount, KeepsApprovals, OpensAs, Finishes, Enrolls, Consumes, PendingsSound;
    RemovalDrops(s, n, m.task, m.approval);
    DropNoOrphans(s, n, m.task, RecordAfter(s, m), Batch(s, m));
  }

  lemma FinishNoOrphans(s: Supervisor, m: Move, n: Supervisor)
    requires NoOrphans(s) && Does(s, m, n) && m.Finish?
    ensures NoOrphans(n)
  {
    hide InScope, ErrorCount, KeepsApprovals, OpensAs, Enrolls, Consumes, Closes, Grants;
    DropNoOrphans(s, n, m.task, RecordAfter(s, m), Batch(s, m));
  }

  lemma QuietNoOrphans(s: Supervisor, m: Move, n: Supervisor)
    requires TasksSound(s) && NoOrphans(s) && Does(s, m, n) && (m.Idle? || m.Forget? || m.Enroll?)
    ensures NoOrphans(n)
  {
    hide Batch, ErrorCount, TasksSound;
    if m.Enroll? {
      NewTaskIsUnknown(s, m.task);
    }
  }

  lemma MoveNoOrphans(s: Supervisor, m: Move, n: Supervisor)
    requires Sound(s) && NoOrphans(s) && Does(s, m, n) && OrderlyMove(s, m)
    ensures NoOrphans(n)
  {
    hide Does, NoOrphans, OrderlyMove, TasksSound, AuthoritySound, PendingsSound, ApprovedsSound, LivesSound,
         WaitersHavePending;
    match m
    case Idle => QuietNoOrphans(s, m, n);
    case Begin(_, _) => PlainNoOrphans(s, m, n);
    case Note(_, _) => PlainNoOrphans(s, m, n);
    case Open(_, _, _, _, _) =>
      OpensFresh(s, m, n);
      OpenNoOrphans(s, m, n);
    case Close(_, _, _, _) => RemovalNoOrphans(s, m, n);
    case Grant(_, _, _, _) => RemovalNoOrphans(s, m, n);
    case Consume(_, _, _) => PlainNoOrphans(s, m, n);
    case Forget(_) => QuietNoOrphans(s, m, n);
    case Finish(_, _, _) => FinishNoOrphans(s, m, n);
    case Enroll(_, _) => QuietNoOrphans(s, m, n);
  }

  lemma OpensFresh(s: Supervisor, m: Move, n: Supervisor)
    requires Sound(s) && Does(s, m, n) && m.Open?
    ensures m.approval !in s.pending
  {
    hide Advanced, ErrorCount, InScope, TasksSound, AuthoritySound, PendingsSound, ApprovedsSound, LivesSound,
         WaitersHavePending;
    FreshIsAbsent(s, m.approval);
  }

  lemma OrderlyClosesWaiting(s: Supervisor, m: Move, n: Supervisor)
    requires NoOrphans(s) && Does(s, m, n)
    ensures ClosesWaiting(s, m)
  {
    hide Advanced, ErrorCount, InScope;
  }

  lemma MoveSynced(s: Supervisor, m: Move, n: Supervisor)
    requires Sound(s) && Synced(s) && Does(s, m, n) && OrderlyMove(s, m)
    ensures Synced(n)
  {
    hide Does, Sound, LogsReplay, NoOrphans, OrderlyMove;
    MoveNoOrphans(s, m, n);
    OrderlyClosesWaiting(s, m, n);
    MoveReplaysIff(s, m, n);
  }

  lemma {:induction false} ChainSynced(s: Supervisor, path: Path, n: Supervisor)
    requires Sound(s) && Synced(s) && Reaches(s, path, n) && StartsNothing(path)
    ensures Synced(n)
    decreases path
  {
    hide Does, Sound, Synced;
    if path != [] {
      MoveSound(s, path[0].move, path[0].to);
      MoveSynced(s, path[0].move, path[0].to);
      ChainSynced(path[0].to, path[1..], n);
    }
  }

  /** One orderly call keeps both invariants. */
  lemma {:induction false} StepSynced(s: Supervisor, c: Command)
    requires Sound(s) && Synced(s) && DrawsFresh(s, c) && Orderly(s, c)
    ensures Sound(Step(s, c)) && Synced(Step(s, c))
  {
    hide Sound, Synced, Does, Step, DrawsFresh;
    var path := StepReaches(s, c);
    ChainSound(s, path, Step(s, c));
    if !c.CallStart? {
      ChainSynced(s, path, Step(s, c));
    } else if path != [] {
      MoveSynced(s, path[0].move, path[0].to);
    }
  }
}
