/** What calls other than request, approve and authorize leave behind: approvals only disappear, each
    with its Task in a final state, and no operation is released. */
module Subsidence {
  import opened Basics
  import opened Lifecycle
  import opened Capability
  import opened Audit
  import opened Supervision
  import opened Soundness
  import opened Moves
  import opened Calls
  import opened Replaying
  import opened Runs

  predicate Ended(s: Supervisor, t: TaskId) { t in s.tasks && s.tasks[t].state.IsTerminal() }

  ghost predicate TasksStay(s: Supervisor, n: Supervisor) {
    && s.used <= n.used
    && (forall t :: t in s.tasks ==> t in n.tasks && n.tasks[t].spec == s.tasks[t].spec)
    && (forall t :: Ended(s, t) ==> Ended(n, t))
  }

  ghost predicate ApprovalsShrink(s: Supervisor, n: Supervisor) {
    && (forall a :: a in n.pending ==> a in s.pending && n.pending[a] == s.pending[a])
    && (forall a :: a in s.pending && a !in n.pending ==> Ended(n, s.pending[a].task))
    && n.approved.Keys <= s.approved.Keys
  }

  ghost predicate ReleasesNothing(s: Supervisor, n: Supervisor) {
    forall t :: ReleaseLog(n.store.LogOf(t)) == ReleaseLog(s.store.LogOf(t))
  }

  ghost predicate Subsides(s: Supervisor, n: Supervisor) {
    TasksStay(s, n) && ApprovalsShrink(s, n) && ReleasesNothing(s, n)
  }

  lemma SubsidesOn(s: Supervisor, n: Supervisor, k: Supervisor)
    requires Subsides(s, n) && Subsides(n, k)
    ensures Subsides(s, k)
  {
    forall t ensures ReleaseLog(k.store.LogOf(t)) == ReleaseLog(s.store.LogOf(t)) {
      assert ReleaseLog(n.store.LogOf(t)) == ReleaseLog(s.store.LogOf(t));
    }
  }

  /******* Move by move *******/

  lemma TerminalBatchReleasesNothing(s: Supervisor, t: TaskId, next: TaskState, failure: Option<ErrorCode>)
    requires t in s.tasks && next.IsTerminal()
    ensures var batch := s.TransitionBatch(t, s.tasks[t].state, next, failure);
            forall i :: 0 <= i < |batch| ==> !Releases(batch[i])
  {
    var batch, rs := s.TransitionBatch(t, s.tasks[t].state, next, failure), s.Revocations(t);
    forall i | 0 <= i < |batch| ensures !Releases(batch[i]) {
      if i < |rs| {
        assert batch[i] == rs[i];
        RevocationsAreRevocations(s, t, i);
      }
    }
  }

  lemma RecedingBatchReleasesNothing(s: Supervisor, m: Move, n: Supervisor)
    requires Does(s, m, n) && Recedes(m) && Advances(m)
    ensures m.task in s.tasks
    ensures forall i :: 0 <= i < |Batch(s, m)| ==> !Releases(Batch(s, m)[i])
  {
    MoveAdvances(s, m, n);
    if m.Finish? {
      TerminalBatchReleasesNothing(s, m.task, m.next, m.failure);
    }
    hide Advanced;
  }

  lemma AdvanceSubsides(s: Supervisor, m: Move, n: Supervisor)
    requires Does(s, m, n) && Recedes(m) && Advances(m)
    ensures TasksStay(s, n) && ReleasesNothing(s, n)
  {
    hide Does, Batch, RecordAfter;
    MoveAdvances(s, m, n);
    RecedingBatchReleasesNothing(s, m, n);
    ReleaseLogNone(s.store.logs[m.task], Batch(s, m));
  }

  lemma AdvanceShrinks(s: Supervisor, m: Move, n: Supervisor)
    requires Does(s, m, n) && Recedes(m) && Advances(m)
    ensures ApprovalsShrink(s, n)
  {
    hide Batch;
  }

  lemma SubmissionReleasesNothing(s: Supervisor, spec: TaskSpec)
    ensures ReleaseLog(s.SubmissionBatch(spec)) == []
  {
    hide ErrorCount;
    ReleaseLogNone([], s.SubmissionBatch(spec));
    assert [] + s.SubmissionBatch(spec) == s.SubmissionBatch(spec);
  }

  lemma EnrollSubsides(s: Supervisor, m: Move, n: Supervisor)
    requires TasksSound(s) && Does(s, m, n) && m.Enroll?
    ensures Subsides(s, n)
  {
    hide TasksSound, ErrorCount, LastState, Supervisor.SubmissionBatch, ReleaseLog;
    SubmissionReleasesNothing(s, m.spec);
    UsedLogs(s, m.task);
    NewTaskIsUnknown(s, m.task);
  }

  lemma UsedLogs(s: Supervisor, t: TaskId)
    requires TasksSound(s) && t !in s.used
    ensures ReleaseLog(s.store.LogOf(t)) == []
  {
  }

  lemma QuietSubsides(s: Supervisor, m: Move, n: Supervisor)
    requires Does(s, m, n) && (m.Idle? || m.Forget?)
    ensures Subsides(s, n)
  {
  }

  lemma MoveSubsides(s: Supervisor, m: Move, n: Supervisor)
    requires TasksSound(s) && Does(s, m, n) && Recedes(m)
    ensures Subsides(s, n)
  {
    hide Does, TasksSound, Recedes, TasksStay, ApprovalsShrink, ReleasesNothing;
    if Advances(m) {
      AdvanceSubsides(s, m, n);
      AdvanceShrinks(s, m, n);
    } else if m.Enroll? {
      EnrollSubsides(s, m, n);
    } else {
      QuietSubsides(s, m, n);
    }
  }

  lemma {:induction false} ChainSubsides(s: Supervisor, path: Path, n: Supervisor)
    requires Sound(s) && Reaches(s, path, n) && Receding(path)
    ensures Subsides(s, n)
    decreases path
  {
    hide Does, Recedes, TasksSound, AuthoritySound, PendingsSound, ApprovedsSound, LivesSound, WaitersHavePending;
    if path != [] {
      hide Subsides;
      var k := path[0].to;
      MoveSound(s, path[0].move, k);
      MoveSubsides(s, path[0].move, k);
      ChainSubsides(k, path[1..], n);
      SubsidesOn(s, k, n);
    }
  }

  /******* Call by call *******/

  lemma {:induction false} StepSubsides(s: Supervisor, c: Command)
    requires Sound(s) && DrawsFresh(s, c) && !c.CallRequest? && !c.CallApprove? && !c.CallAuthorize?
    ensures Subsides(s, Step(s, c))
  {
    hide Sound, Subsides, Step, DrawsFresh, Does;
    var path := StepReaches(s, c);
    ChainSubsides(s, path, Step(s, c));
  }
}
