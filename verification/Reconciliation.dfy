/** What an Issue's outstanding work says about its status (src/scheduler.rs:969-1019, 2654-2792). */
module Reconciliation {
  import opened Wrappers
  import opened Policy
  import opened Domain
  import opened Matching

  /** A real, verified change to a machine. Operators' lists are consulted as they stand right now. */
  predicate IsRemediation(a: ActionRun, lists: ClassificationLists) {
    && a.status.Succeeded?
    && !a.dryRun
    && (a.evidence == Some(Weak) || a.evidence == Some(Strong))
    && ClassifiesMutating(lists, a.intent.runbook, a.intent.arguments)
  }

  /** The same judgment without the lists. */
  predicate Remediates(a: ActionRun) {
    && a.status.Succeeded?
    && !a.dryRun
    && (a.evidence == Some(Weak) || a.evidence == Some(Strong))
    && MutatingRunbook(a.intent.runbook)
  }

  /** A remediation stays one whatever operators later do to their classification lists. */
  lemma RemediationIgnoresLists(a: ActionRun, lists: ClassificationLists)
    ensures IsRemediation(a, lists) <==> Remediates(a)
  {
    MutatingIgnoresLists(lists, a.intent.runbook, a.intent.arguments);
  }

  // ---------------------------------------------------------------- a Team's claim to be done

  predicate TouchedHealthy(issue: Issue, snapshot: Snapshot, actions: seq<ActionRun>) {
    && (forall t :: t in issue.affected ==> HealthyIn(snapshot, t))
    && (forall a, t :: a in actions && t in a.intent.targets ==> HealthyIn(snapshot, t))
  }

  /** `actions` are the Issue's own. */
  predicate SolvedIsSupported(issue: Issue, snapshot: Snapshot, actions: seq<ActionRun>, lists: ClassificationLists) {
    && (exists a :: a in actions && IsRemediation(a, lists))
    && TouchedHealthy(issue, snapshot, actions)
  }

  // ---------------------------------------------------------------- the derived status

  predicate Later(a: Job, b: Job) {
    a.createdAt < b.createdAt || (a.createdAt == b.createdAt && a.id <= b.id)
  }

  /** `max_by_key(created_at, job_id)`: the last of the greatest. */
  function LatestJob(jobs: seq<Job>): (latest: Job)
    requires jobs != []
    ensures latest in jobs
    ensures forall j :: j in jobs ==> Later(j, latest)
  {
    if |jobs| == 1 then jobs[0]
    else
      var rest := LatestJob(jobs[1..]);
      assert jobs == [jobs[0]] + jobs[1..];
      assert forall j :: j in jobs[1..] ==> Later(j, rest);
      if Later(jobs[0], rest) then rest else jobs[0]
  }

  predicate ActionWaits(a: ActionRun) { a.status.WaitingForApproval? || a.NeedsReview() }

  predicate JobWaits(j: Job) {
    j.NeedsReview() || j.status.JWaitingForHuman? || j.status.JBlocked? || j.status.JNeedsResnapshot?
  }

  predicate JobRuns(jobs: seq<Job>) { exists j :: j in jobs && (j.status.JQueued? || j.status.JRunning?) }

  predicate ActionPending(actions: seq<ActionRun>) {
    exists a :: a in actions && (a.status.Proposed? || a.status.Ready? || a.status.Running?)
  }

  predicate ActionVerifies(actions: seq<ActionRun>) { exists a :: a in actions && a.status.Verifying? }

  predicate HumanAwaited(jobs: seq<Job>, actions: seq<ActionRun>) {
    (exists a :: a in actions && ActionWaits(a)) || (exists j :: j in jobs && JobWaits(j))
  }

  predicate ProposalMissing(jobs: seq<Job>, actions: seq<ActionRun>) {
    exists j :: j in jobs && j.status.JCompleted? && !Materialized(j, actions)
  }

  predicate RemediatedBy(actions: seq<ActionRun>, jobId: Id, lists: ClassificationLists) {
    exists a :: a in actions && a.jobId == jobId && IsRemediation(a, lists)
  }

  /** `None` while no work exists yet. */
  function DeriveIssueStatus(jobs: seq<Job>, actions: seq<ActionRun>, lists: ClassificationLists): Option<IssueStatus> {
    if jobs == [] && actions == [] then None
    else if JobRuns(jobs) then Some(Investigating)
    else if ActionPending(actions) then Some(Mitigating)
    else if ActionVerifies(actions) then Some(IVerifying)
    else if HumanAwaited(jobs, actions) then Some(IWaitingForHuman)
    else if ProposalMissing(jobs, actions) then Some(IWaitingForHuman)
    else if jobs == [] then None
    else
      var latest := LatestJob(jobs);
      if latest.result.Some? && latest.result.value.outcome.Solved? then Some(Resolved)
      else if RemediatedBy(actions, latest.id, lists) && !(latest.result.Some? && latest.result.value.followUpRequested)
      then Some(Resolved)
      else Some(IWaitingForHuman)
  }

  lemma OnlyResolvedIsTerminal(jobs: seq<Job>, actions: seq<ActionRun>, lists: ClassificationLists)
    requires DeriveIssueStatus(jobs, actions, lists).Some? && DeriveIssueStatus(jobs, actions, lists).value.IsTerminal()
    ensures DeriveIssueStatus(jobs, actions, lists) == Some(Resolved)
  {
  }

  /** Nothing on the Issue is unfinished, unreviewed, or missing from a finished pass. */
  ghost predicate Settled(jobs: seq<Job>, actions: seq<ActionRun>) {
    && (forall j :: j in jobs ==> j.status.IsTerminal() && !j.NeedsReview())
    && (forall a :: a in actions ==> a.status.IsTerminal() && !a.NeedsReview())
    && (forall j :: j in jobs && j.status.JCompleted? ==> Materialized(j, actions))
  }

  /** Why an Issue may be called resolved. */
  ghost predicate ResolutionGround(latest: Job, actions: seq<ActionRun>) {
    || (latest.result.Some? && latest.result.value.outcome.Solved?)
    || (&& (exists a :: a in actions && a.jobId == latest.id && Remediates(a))
        && !(latest.result.Some? && latest.result.value.followUpRequested))
  }

  /** The derived status is `Resolved` exactly when everything is settled and there is a ground for it:
      both halves matter, an automatic resolution is neither premature nor withheld. */
  lemma ResolvedIffSettledWithGround(jobs: seq<Job>, actions: seq<ActionRun>, lists: ClassificationLists)
    requires forall a :: a in actions ==> a.status.WaitingForHuman? ==> a.review.None?
    ensures DeriveIssueStatus(jobs, actions, lists) == Some(Resolved)
            <==> jobs != [] && Settled(jobs, actions) && ResolutionGround(LatestJob(jobs), actions)
  {
    forall a | a in actions ensures IsRemediation(a, lists) <==> Remediates(a) {
      RemediationIgnoresLists(a, lists);
    }
    if jobs != [] && Settled(jobs, actions) {
      assert forall j :: j in jobs ==> !JobWaits(j) && !j.status.JRunning? && !j.status.JQueued?;
      assert forall a :: a in actions ==> !ActionWaits(a);
    }
    if DeriveIssueStatus(jobs, actions, lists) == Some(Resolved) {
      forall j | j in jobs ensures j.status.IsTerminal() && !j.NeedsReview() { assert !JobWaits(j); }
      forall a | a in actions ensures a.status.IsTerminal() && !a.NeedsReview() { assert !ActionWaits(a); }
    }
  }
}
