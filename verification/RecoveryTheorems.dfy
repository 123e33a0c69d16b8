/** How recovery fits the concurrent protocol: every crash can be recovered from, and what recovery
    leaves is a store the protocol can start on. */
module RecoveryTheorems {
  import opened Wrappers
  import opened Policy
  import opened Domain
  import opened Store
  import opened Protocol
  import opened ProtocolInvariant
  import opened ProtocolProof
  import opened Recovery
  import opened RecoveryPhases

  /** The process may die in any state of any run, with any number of operations half done. */
  lemma EveryCrashIsRecoverable(run: seq<State>, k: nat)
    requires IsRun(run) && k < |run|
    ensures Recoverable(run[k].st)
    ensures (forall i :: i in run[k].st.issues ==> !run[k].st.issues[i].archived) ==> AllReviewable(run[k].st)
  {
    RunInv(run, k);
    if forall i :: i in run[k].st.issues ==> !run[k].st.issues[i].archived { OwnAllReviewable(run[k].st); }
  }

  function Fresh(st: StoreState, mode: SchedulerMode, threads: set<Tid>): State {
    State(st, mode, None, None, {}, map t | t in threads :: Idle)
  }

  /** The next process starts on a store that satisfies everything the protocol assumes. */
  lemma RecoveredStoreStartsAgain(st: StoreState, lists: ClassificationLists, mode: SchedulerMode, threads: set<Tid>)
    requires Recoverable(st) && Quiescent(st, lists)
    ensures Init(Fresh(st, mode, threads))
  {
    forall i | Closed(st, i) ensures Quiet(st, i) { assert Cleared(st, i); }
  }

  /** What an operator finds after a restart: approvals and requests of live Issues are untouched, and
      nothing claims to be in progress. */
  lemma QueueSurvivesRecovery(was: StoreState, st: StoreState, lists: ClassificationLists, a: Id)
    requires Progress(was, st) && Recoverable(st) && Quiescent(st, lists)
    requires a in was.actions && was.Ours(was.actions[a].issueId)
    ensures a in st.actions && st.actions[a].status !in {Proposed, Running, Verifying}
    ensures was.LiveIssue(was.actions[a].issueId) && was.actions[a].status in {Ready, WaitingForApproval} ==>
              st.actions[a] == was.actions[a] && st.LiveIssue(was.actions[a].issueId)
  {
    assert ActionProgress(was, st, was.actions[a], st.actions[a]);
    OursLasts(was, st, was.actions[a].issueId);
  }

  // ---------------------------------------------------------------- an archive that blocks recovery

  function Imported(): Issue { Issue(0, FromJudge, 0, None, [], Normal, IFailed, 0, {}, true) }

  function Broken(): ActionRun {
    FromProposal(0, 0, 0, Proposal("server.restart", ["server-1"], [], "", "", []), 0, "key", 0)
      .(status := Failed, startedAt := Some(0), approval := NotRequired)
  }

  function Revising(): Job {
    Job(1, 0, 0, JobBrief(Scope(["operate.restart"], ["server-1"]), [HumanFeedback(FailedAction(0), "operator", None)], Some(0), None, 0),
        None, 0, JCompleted, None, Some(JobResult(DiagnosisOnly, [], [], false)))
  }

  function WithArchive(): StoreState { StoreState(map[0 := Imported()], map[1 := Revising()], map[0 := Broken()], map[], []) }

  lemma ArchiveRecoverable()
    ensures Recoverable(WithArchive())
  {
    ArchiveRecords();
    ArchiveIntake();
  }

  lemma ArchiveRecords()
    ensures KeyedById(WithArchive()) && RecordsFine(WithArchive())
  {
  }

  lemma ArchiveIntake()
    ensures Intake(WithArchive())
  {
    forall i | WithArchive().Ours(i) ensures false {}
  }

  /** The loop over revising Jobs reads imported ones too: one that was exported before its review was
      written makes recovery refuse, because an archive takes no review. */
  lemma ArchiveCanBlockRecovery()
    ensures Recoverable(WithArchive()) && !AllReviewable(WithArchive())
  {
    ArchiveRecoverable();
    assert 1 in WithArchive().jobs && ReviewedItem(Revising()) == Some(FailedAction(0));
    assert Broken().NeedsReview();
    assert !ItemReviewable(WithArchive(), FailedAction(0));
  }
}
