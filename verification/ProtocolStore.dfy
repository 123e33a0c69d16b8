/** The store invariant survives every step. */
module ProtocolStore {
  import opened Wrappers
  import opened Policy
  import opened Domain
  import opened Reconciliation
  import opened Store
  import opened Protocol
  import opened ProtocolInvariant
  import opened Verification
  import opened ProtocolStability

  lemma JobFineStable(s: State, s': State, t: Tid, j: Job)
    requires Guarantee(s, s', t) && JobFine(s.st, j)
    ensures JobFine(s'.st, j)
  {
    FeedbackStable(s, s', t, j.brief.feedback);
    if ClaimsSolved(j) { EvidenceStable(s, s', t, j); }
  }

  lemma ActionFineStable(s: State, s': State, t: Tid, a: ActionRun)
    requires Guarantee(s, s', t) && ActionFine(s.st, a)
    ensures ActionFine(s'.st, a)
  {
    if a.approval.NotRequired? { AutomaticStable(s, s', t, a); }
    if Remediates(a) { HealedStable(s, s', t, a); }
  }

  predicate JobTouched(s: State, s': State, id: Id) {
    id in s'.st.jobs && (id in s.st.jobs ==> s'.st.jobs[id] != s.st.jobs[id])
  }

  predicate ActionTouched(s: State, s': State, id: Id) {
    id in s'.st.actions && (id in s.st.actions ==> s'.st.actions[id] != s.st.actions[id])
  }

  /** Only the touched records need an argument of their own. */
  lemma RecordsKept(s: State, s': State, t: Tid)
    requires RecordsFine(s.st) && Guarantee(s, s', t)
    requires forall id :: JobTouched(s, s', id) && s'.st.Ours(s'.st.jobs[id].issueId) ==> JobFine(s'.st, s'.st.jobs[id])
    requires forall id :: ActionTouched(s, s', id) && s'.st.Ours(s'.st.actions[id].issueId) ==> ActionFine(s'.st, s'.st.actions[id])
    ensures RecordsFine(s'.st)
  {
    forall id | id in s'.st.jobs && s'.st.Ours(s'.st.jobs[id].issueId) ensures JobFine(s'.st, s'.st.jobs[id]) {
      if !JobTouched(s, s', id) {
        assert s.st.Ours(s.st.jobs[id].issueId);
        JobFineStable(s, s', t, s'.st.jobs[id]);
      }
    }
    forall id | id in s'.st.actions && s'.st.Ours(s'.st.actions[id].issueId) ensures ActionFine(s'.st, s'.st.actions[id]) {
      if !ActionTouched(s, s', id) {
        assert s.st.Ours(s.st.actions[id].issueId);
        ActionFineStable(s, s', t, s'.st.actions[id]);
      }
    }
  }

  /** Without a new Issue of ours, duplicates cannot appear. */
  lemma IntakeKept(s: State, s': State, t: Tid)
    requires Intake(s.st) && Guarantee(s, s', t)
    requires forall i :: i in s'.st.issues && i !in s.st.issues ==> s'.st.issues[i].archived
    ensures Intake(s'.st)
  {
    forall i, key | LiveWithKey(s'.st, i, key) ensures LiveWithKey(s.st, i, key) {}
    forall i, r | OpenedBy(s'.st, i, r) ensures OpenedBy(s.st, i, r) {}
  }

  /** What a rewrite leaves behind is fine as soon as the rewrite itself was justified. */
  lemma RewrittenJob(st: StoreState, job: Job, op: JobOp)
    requires JobFine(st, job) && op.Run(job).Ok?
    requires op.JobComplete? && op.result.outcome.Solved? ==> SolvedEvidence(st, job)
    ensures JobFine(st, op.Run(job).value)
  {
    JobRewriteEvolves(job, op);
  }

  lemma RewrittenAction(st: StoreState, a: ActionRun, op: ActionOp, now: nat)
    requires ActionFine(st, a) && op.Run(a, now).Ok? && op.FromPolicy()
    requires op == OpApply(NotRequired) ==> Automatic(st, a)
    requires VerdictKnown(st, a, op)
    ensures ActionFine(st, op.Run(a, now).value)
  {
    RewriteEvolves(a, op, now);
    if Remediates(op.Run(a, now).value) { RemediationJudged(st, a, op, now); }
  }

  /** Only a verification makes a remediation, and a review leaves one as it is. */
  lemma RemediationJudged(st: StoreState, a: ActionRun, op: ActionOp, now: nat)
    requires ActionJob(st, a) && (Remediates(a) ==> SeenHealed(st, a))
    requires op.Run(a, now).Ok? && Remediates(op.Run(a, now).value) && VerdictKnown(st, a, op)
    ensures SeenHealed(st, op.Run(a, now).value)
  {
    if op.OpVerify? {
      var lists :| Judged(st, a, lists, op.after, Verdict(op.passed, op.graded));
      VerdictHeals(st, a, lists, op.after, Verdict(op.passed, op.graded), op.Run(a, now).value);
    } else {
      OnlyReviewed(a, op, now);
      SameHealed(st, a, op.Run(a, now).value);
    }
  }

  lemma OnlyReviewed(a: ActionRun, op: ActionOp, now: nat)
    requires op.Run(a, now).Ok? && op.Run(a, now).value.status.Succeeded? && !op.OpVerify?
    ensures op.Run(a, now).value == a.(review := op.Run(a, now).value.review)
  {
  }

  lemma SameHealed(st: StoreState, a: ActionRun, next: ActionRun)
    requires SeenHealed(st, a) && next == a.(review := next.review)
    ensures SeenHealed(st, next)
  {
    ShownAlike(a, next, st.snapshots[a.afterSnapshot.value], a.intent.runbook == "mq.purge");
  }

  lemma ShownAlike(a: ActionRun, next: ActionRun, after: Snapshot, purge: bool)
    requires next.intent == a.intent && StartOf(next) == StartOf(a)
    ensures Shows(next, after, purge) <==> Shows(a, after, purge)
  {
  }

  lemma VerdictHeals(st: StoreState, a: ActionRun, lists: ClassificationLists, after: Option<Id>, v: Verdict, next: ActionRun)
    requires a.beforeSnapshot in st.snapshots && Judged(st, a, lists, after, v)
    requires next.intent == a.intent && StartOf(next) == StartOf(a) && next.beforeSnapshot == a.beforeSnapshot
    requires next.dryRun == a.dryRun && next.afterSnapshot == after && next.evidence == v.evidence && Remediates(next)
    ensures SeenHealed(st, next)
  {
    MutatingIgnoresLists(lists, a.intent.runbook, a.intent.arguments);
    PurgeIgnoresLists(lists, a.intent.runbook, a.intent.arguments);
    ShownAlike(a, next, st.snapshots[after.value], a.intent.runbook == "mq.purge");
  }

  lemma PutJobFine(s: State, s': State, t: Tid, job: Job)
    requires RecordsFine(s.st) && Guarantee(s, s', t) && s'.st == s.st.PutJob(job)
    requires s.st.Ours(job.issueId) ==> JobFine(s.st, job)
    ensures RecordsFine(s'.st)
  {
    if s.st.Ours(job.issueId) { JobFineStable(s, s', t, job); }
    RecordsKept(s, s', t);
  }

  lemma PutActionFine(s: State, s': State, t: Tid, a: ActionRun)
    requires RecordsFine(s.st) && Guarantee(s, s', t) && s'.st == s.st.PutAction(a)
    requires s.st.Ours(a.issueId) ==> ActionFine(s.st, a)
    ensures RecordsFine(s'.st)
  {
    if s.st.Ours(a.issueId) { ActionFineStable(s, s', t, a); }
    RecordsKept(s, s', t);
  }

  lemma RewrittenJobFine(s: State, s': State, t: Tid, job: Job, op: JobOp)
    requires RecordsFine(s.st) && Guarantee(s, s', t)
    requires s.st.HoldsJob(job) && op.Run(job).Ok? && s'.st == s.st.PutJob(op.Run(job).value)
    requires op.JobComplete? && op.result.outcome.Solved? ==> SolvedEvidence(s.st, job)
    ensures RecordsFine(s'.st)
  {
    JobRewriteEvolves(job, op);
    if s.st.Ours(job.issueId) { RewrittenJob(s.st, job, op); }
    PutJobFine(s, s', t, op.Run(job).value);
  }

  lemma RewrittenActionFine(s: State, s': State, t: Tid, a: ActionRun, op: ActionOp, now: nat)
    requires RecordsFine(s.st) && Guarantee(s, s', t)
    requires s.st.Holds(a) && op.Run(a, now).Ok? && s'.st == s.st.PutAction(op.Run(a, now).value)
    requires op.FromPolicy() && (op == OpApply(NotRequired) ==> Automatic(s.st, a))
    requires s.st.Ours(a.issueId) ==> VerdictKnown(s.st, a, op)
    ensures RecordsFine(s'.st)
  {
    RewriteEvolves(a, op, now);
    if s.st.Ours(a.issueId) { RewrittenAction(s.st, a, op, now); }
    PutActionFine(s, s', t, op.Run(a, now).value);
  }

  /** Issues and the log carry nothing the records depend on but what the guarantee keeps. */
  lemma OthersFine(s: State, s': State, t: Tid)
    requires RecordsFine(s.st) && Guarantee(s, s', t)
    requires s'.st.jobs == s.st.jobs && s'.st.actions == s.st.actions
    ensures RecordsFine(s'.st)
  {
    RecordsKept(s, s', t);
  }

  /** A new Issue opened by triage: no live Issue carried its key. */
  lemma TriagedIssueFine(s: State, s': State, i: Issue, key: string)
    requires Intake(s.st) && i.id !in s.st.issues && s'.st == s.st.PutIssue(i)
    requires i.source.FromJudge? && !i.archived && i.dedupKey == Some(key) && i.priority != HumanTop
    requires forall id :: !LiveWithKey(s.st, id, key)
    ensures Intake(s'.st)
  {
    forall k, other | LiveWithKey(s'.st, k, other) ensures if k == i.id then other == key else LiveWithKey(s.st, k, other) {}
    forall k, r | OpenedBy(s'.st, k, r) ensures OpenedBy(s.st, k, r) {}
  }

  /** A new Issue opened by a human report: no Issue of ours came from that report. */
  lemma ReportedIssueFine(s: State, s': State, i: Issue, reportId: Id)
    requires Intake(s.st) && i.id !in s.st.issues && s'.st == s.st.PutIssue(i)
    requires i.source.FromHuman? && !i.archived && i.dedupKey.None?
    requires i.sourceEvent < |s.st.events| && s.st.events[i.sourceEvent] == IssueReported(reportId)
    requires forall id :: !OpenedBy(s.st, id, reportId)
    ensures Intake(s'.st)
  {
    forall k, key | LiveWithKey(s'.st, k, key) ensures LiveWithKey(s.st, k, key) {}
    forall k, r | OpenedBy(s'.st, k, r) ensures if k == i.id then r == reportId else OpenedBy(s.st, k, r) {}
  }
}
