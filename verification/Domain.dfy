/** Issues, Jobs and ActionRuns as the values the store compares, and the transitions each record
    allows (src/domain/{issue,job,action,review}.rs). */
module Domain {
  import opened Wrappers
  import opened Policy

  type Id = nat

  // ---------------------------------------------------------------- reviews and feedback

  datatype Denial = ByPolicy(reason: string) | ByHuman(decidedBy: string, comment: Option<string>)

  datatype ReviewDecision = Acknowledged | SentUpstream(jobId: Id)

  datatype HumanReview = HumanReview(reviewer: string, decision: ReviewDecision, comment: Option<string>)

  datatype FeedbackOrigin =
    | IssueComment(jobId: Id)
    | DeniedAction(actionId: Id)
    | BlockedAction(actionId: Id)
    | FailedAction(actionId: Id)
    | FailedJob(jobId: Id)
    | StalledJob(jobId: Id)

  datatype HumanFeedback = HumanFeedback(origin: FeedbackOrigin, reviewer: string, comment: Option<string>)

  // ---------------------------------------------------------------- snapshots

  datatype HealthState = Healthy | Degraded | Unhealthy | Unknown

  datatype Metric = Metric(name: string, value: real)

  datatype ResourceState = ResourceState(
    id: string, health: HealthState, observedAt: nat, facts: seq<string>, metrics: seq<Metric>)

  datatype Snapshot = Snapshot(mode: OperationMode, createdAt: nat, resources: seq<ResourceState>)

  /** The first resource with that ID, as `iter().find` returns it. */
  function FindResource(resources: seq<ResourceState>, id: string): (r: Option<ResourceState>)
    ensures r.Some? ==> r.value in resources && r.value.id == id
    ensures r.None? <==> forall x :: x in resources ==> x.id != id
  {
    if resources == [] then None
    else if resources[0].id == id then Some(resources[0])
    else FindResource(resources[1..], id)
  }

  predicate HealthyIn(snapshot: Snapshot, id: string) {
    var r := FindResource(snapshot.resources, id);
    r.Some? && r.value.health.Healthy?
  }

  // ---------------------------------------------------------------- ActionRuns

  datatype ActionStatus =
    | Proposed | WaitingForApproval | WaitingForHuman | Ready | Running | Verifying
    | Succeeded | Failed | VerificationFailed | Cancelled
  {
    predicate IsTerminal() { Succeeded? || Failed? || VerificationFailed? || Cancelled? }

    /** The states a closed Issue must not leave behind: work that could still be started. */
    predicate IsUnstarted() { Proposed? || WaitingForApproval? || Ready? }

    /** The three states that give an idempotency key back. */
    predicate IsReleased() { Cancelled? || Failed? || VerificationFailed? }

    function Rank(): nat {
      match this
      case Proposed => 0
      case WaitingForApproval => 1
      case Ready => 2
      case Running => 3
      case WaitingForHuman => 4
      case Verifying => 4
      case _ => 5
    }

    predicate CanBecome(next: ActionStatus) {
      match this
      case Proposed => next.WaitingForApproval? || next.WaitingForHuman? || next.Ready? || next.Cancelled?
      case WaitingForApproval => next.Ready? || next.WaitingForHuman? || next.Cancelled?
      case WaitingForHuman => next.Cancelled?
      case Ready => next.Running? || next.WaitingForHuman? || next.Cancelled?
      case Running => next.Verifying? || next.Failed? || next.WaitingForHuman? || next.Cancelled?
      case Verifying => next.Succeeded? || next.VerificationFailed? || next.Failed?
      case _ => false
    }
  }

  datatype VerificationEvidence = DryRun | Observation | Weak | Strong

  datatype PlatformResult = PlatformResult(
    succeeded: bool, cancelled: bool, dryRun: bool, requiresHuman: bool, artifact: Option<Id>, summary: string)

  datatype ActionRun = ActionRun(
    id: Id,
    issueId: Id,
    jobId: Id,
    intent: Proposal,
    beforeSnapshot: Id,
    key: string,
    createdAt: nat,
    status: ActionStatus,
    approval: ApprovalState,
    approvedBy: Option<string>,
    denial: Option<Denial>,
    intervention: Option<string>,
    review: Option<HumanReview>,
    executionArtifact: Option<Id>,
    executionSummary: Option<string>,
    dryRun: bool,
    afterSnapshot: Option<Id>,
    evidence: Option<VerificationEvidence>,
    startedAt: Option<nat>,
    completedAt: Option<nat>)
  {
    predicate HasFailed() {
      status.Failed? || status.VerificationFailed? || (status.Cancelled? && executionArtifact.Some?)
    }

    predicate NeedsReview() {
      review.None? && (denial.Some? || HasFailed() || status.WaitingForHuman?)
    }

    predicate HoldsIdempotencyClaim() { !status.IsReleased() }

    /** The action reached the Platform and came back. */
    predicate WasExecuted() { status.Succeeded? || status.Failed? || status.VerificationFailed? }

    function TransitionTo(next: ActionStatus, now: nat): Result<ActionRun> {
      if !status.CanBecome(next) then Err(InvalidTransition)
      else Ok(this.(status := next,
                    startedAt := if next.Running? && startedAt.None? then Some(now) else startedAt,
                    completedAt := if next.IsTerminal() then Some(now) else completedAt))
    }

    function ApplyApproval(decided: ApprovalState, now: nat): Result<ActionRun> {
      if decided.Unevaluated? then Err(InvalidInput)
      else
        var next := if decided.Pending? then WaitingForApproval
                    else if decided.Rejected? then Cancelled else Ready;
        var moved := TransitionTo(next, now);
        if moved.Err? then moved else Ok(moved.value.(approval := decided))
    }

    function ApproveBy(approver: string, now: nat): Result<ActionRun> {
      var moved := ApplyApproval(Approved, now);
      if moved.Err? then moved else Ok(moved.value.(approvedBy := Some(approver)))
    }

    function Deny(why: Denial, now: nat): Result<ActionRun> {
      var moved := ApplyApproval(Rejected, now);
      if moved.Err? then moved else Ok(moved.value.(denial := Some(why)))
    }

    function WaitForHuman(reason: string, now: nat): Result<ActionRun> {
      var moved := TransitionTo(WaitingForHuman, now);
      if moved.Err? then moved else Ok(moved.value.(intervention := Some(reason)))
    }

    function RecordReview(given: HumanReview, now: nat): Result<ActionRun> {
      if !NeedsReview() then Err(InvalidInput)
      else
        var moved := if status.WaitingForHuman? then TransitionTo(Cancelled, now) else Ok(this);
        if moved.Err? then moved else Ok(moved.value.(review := Some(given)))
    }

    function Start(now: nat): Result<ActionRun> { TransitionTo(Running, now) }

    function RecordExecutionResult(r: PlatformResult, now: nat): Result<ActionRun> {
      if !status.Running? then Err(InvalidTransition)
      else
        var noted := this.(executionArtifact := r.artifact, executionSummary := Some(r.summary), dryRun := r.dryRun);
        if r.requiresHuman then noted.WaitForHuman(r.summary, now)
        else noted.TransitionTo(if r.cancelled then Cancelled else if r.succeeded then Verifying else Failed, now)
    }

    function RecordVerification(after: Option<Id>, passed: bool, graded: Option<VerificationEvidence>, now: nat)
      : Result<ActionRun>
    {
      if !status.Verifying? then Err(InvalidTransition)
      else this.(afterSnapshot := after, evidence := graded)
           .TransitionTo(if passed then Succeeded else VerificationFailed, now)
    }

    /** What closing the Issue writes over an action that has not started. */
    function CancelUnstarted(now: nat): Result<ActionRun> {
      var moved := TransitionTo(Cancelled, now);
      if moved.Err? then moved
      else Ok(moved.value.(executionSummary := Some("cancelled before execution because the Issue closed")))
    }
  }

  /** The record a proposal becomes before policy has looked at it. */
  function FromProposal(id: Id, issueId: Id, jobId: Id, intent: Proposal, before: Id, key: string, now: nat): ActionRun {
    ActionRun(id, issueId, jobId, intent, before, key, now, Proposed, Unevaluated, None, None, None, None,
              None, None, false, None, None, None, None)
  }

  /** Every way the control plane rewrites an ActionRun. */
  datatype ActionOp =
    | OpApply(decided: ApprovalState)
    | OpApprove(approver: string)
    | OpDeny(why: Denial)
    | OpWait(reason: string)
    | OpReview(given: HumanReview)
    | OpStart
    | OpResult(result: PlatformResult)
    | OpVerify(after: Option<Id>, passed: bool, graded: Option<VerificationEvidence>)
    | OpCancel
  {
    function Run(a: ActionRun, now: nat): Result<ActionRun> {
      match this
      case OpApply(d) => a.ApplyApproval(d, now)
      case OpApprove(who) => a.ApproveBy(who, now)
      case OpDeny(why) => a.Deny(why, now)
      case OpWait(reason) => a.WaitForHuman(reason, now)
      case OpReview(given) => a.RecordReview(given, now)
      case OpStart => a.Start(now)
      case OpResult(r) => a.RecordExecutionResult(r, now)
      case OpVerify(after, passed, graded) => a.RecordVerification(after, passed, graded, now)
      case OpCancel => a.CancelUnstarted(now)
    }

    /** A refusal goes through `Deny`, and only `ApproveBy` writes `Approved`. */
    predicate FromPolicy() { OpApply? ==> decided in {NotRequired, Pending} }
  }

  /** How far the record has come: its place on the longest path of statuses, and its one review. No
      rewrite leaves it alone, which rules out an ABA under compare-and-set. */
  function ActionVersion(a: ActionRun): (version: nat)
    ensures version <= 6
  {
    a.status.Rank() + if a.review.Some? then 1 else 0
  }

  predicate SameAction(a: ActionRun, b: ActionRun) {
    && a.id == b.id && a.issueId == b.issueId && a.jobId == b.jobId && a.intent == b.intent
    && a.beforeSnapshot == b.beforeSnapshot && a.key == b.key && a.createdAt == b.createdAt
  }

  /** What any number of rewrites by anyone can do to an ActionRun; reflexive and transitive. */
  predicate ActionEvolves(a: ActionRun, b: ActionRun) {
    || a == b
    || (&& SameAction(a, b)
        && ActionVersion(a) < ActionVersion(b)
        && (a.status.IsTerminal() ==> a.review.None? && b == a.(review := b.review))
        && (b.status.IsUnstarted() ==> a.status.IsUnstarted())
        && (a.startedAt.Some? ==> b.startedAt == a.startedAt)
        && (a.status.IsReleased() ==> b.status.IsReleased()))
  }

  /** What every ActionRun this controller wrote satisfies. */
  predicate ActionConsistent(a: ActionRun) {
    && (a.review.Some? ==> a.status.IsReleased())
    && (a.denial.Some? ==> a.status.Cancelled? && a.approval.Rejected?)
    && (a.status.Proposed? ==> a.approval.Unevaluated? && a.startedAt.None?)
    && (a.executionArtifact.Some? ==> a.startedAt.Some?)
    && (a.status.Running? || a.status.Verifying? || a.WasExecuted() ==> a.startedAt.Some?)
    && (a.status.IsUnstarted() ==> a.startedAt.None?)
    && (a.status.Ready? || (a.startedAt.Some? && a.denial.None?) ==>
          a.approval.NotRequired? || (a.approval.Approved? && a.approvedBy.Some?))
  }

  /** Each successful rewrite advances the version, keeps the identity and keeps the record consistent. */
  lemma RewriteEvolves(a: ActionRun, op: ActionOp, now: nat)
    requires op.Run(a, now).Ok?
    ensures ActionEvolves(a, op.Run(a, now).value)
    ensures ActionVersion(a) < ActionVersion(op.Run(a, now).value)
    ensures !op.OpStart? ==> op.Run(a, now).value.startedAt == a.startedAt
    ensures ActionConsistent(a) && op.FromPolicy() ==> ActionConsistent(op.Run(a, now).value)
  {
    RewriteAdvances(a, op, now);
    if ActionConsistent(a) && op.FromPolicy() { RewriteStaysConsistent(a, op, now); }
  }

  lemma RewriteAdvances(a: ActionRun, op: ActionOp, now: nat)
    requires op.Run(a, now).Ok?
    ensures ActionEvolves(a, op.Run(a, now).value)
    ensures ActionVersion(a) < ActionVersion(op.Run(a, now).value)
    ensures !op.OpStart? ==> op.Run(a, now).value.startedAt == a.startedAt
  {
  }

  lemma RewriteStaysConsistent(a: ActionRun, op: ActionOp, now: nat)
    requires op.Run(a, now).Ok? && ActionConsistent(a) && op.FromPolicy()
    ensures ActionConsistent(op.Run(a, now).value)
  {
  }

  lemma ActionEvolvesTransitive(a: ActionRun, b: ActionRun, c: ActionRun)
    requires ActionEvolves(a, b) && ActionEvolves(b, c)
    ensures ActionEvolves(a, c)
  {
  }

  // ---------------------------------------------------------------- Jobs

  datatype JobStatus =
    | JQueued | JRunning | JWaitingForHuman | JNeedsResnapshot | JCompleted | JFailed | JBlocked
    | JSuperseded | JCancelled
  {
    predicate IsTerminal() { JCompleted? || JFailed? || JSuperseded? || JCancelled? }

    function Rank(): nat {
      match this
      case JQueued => 0
      case JRunning => 1
      case JWaitingForHuman => 2
      case JNeedsResnapshot => 2
      case JBlocked => 2
      case _ => 3
    }

    predicate CanBecome(next: JobStatus) {
      match this
      case JQueued => next.JRunning? || next.JCancelled? || next.JSuperseded?
      case JRunning =>
        next.JWaitingForHuman? || next.JNeedsResnapshot? || next.JCompleted? || next.JFailed? || next.JBlocked?
        || next.JCancelled? || next.JSuperseded?
      case JWaitingForHuman =>
        next.JRunning? || next.JCompleted? || next.JFailed? || next.JCancelled? || next.JSuperseded?
      case JNeedsResnapshot => next.JSuperseded? || next.JCancelled?
      case JBlocked => next.JRunning? || next.JFailed? || next.JCancelled? || next.JSuperseded?
      case _ => false
    }
  }

  datatype JobOutcome = Solved | DiagnosisOnly | OptionsReady | NeedsMoreData | NeedsHuman | Blocked | OutcomeFailed

  function StatusFor(o: JobOutcome): JobStatus {
    match o
    case NeedsMoreData => JNeedsResnapshot
    case NeedsHuman => JWaitingForHuman
    case OptionsReady => JWaitingForHuman
    case Blocked => JBlocked
    case OutcomeFailed => JFailed
    case Solved => JCompleted
    case DiagnosisOnly => JCompleted
  }

  datatype JobResult = JobResult(
    outcome: JobOutcome, proposals: seq<Proposal>, requestedProbes: seq<string>, followUpRequested: bool)

  /** What the Scheduler grants a pass. */
  datatype JobBrief = JobBrief(
    scope: Scope, feedback: seq<HumanFeedback>, revises: Option<Id>, continues: Option<Id>, followUpBudget: nat)

  datatype Job = Job(
    id: Id,
    issueId: Id,
    baseSnapshot: Id,
    brief: JobBrief,
    supersedes: Option<Id>,
    createdAt: nat,
    status: JobStatus,
    review: Option<HumanReview>,
    result: Option<JobResult>)
  {
    predicate NeedsReview() {
      (status.JFailed? || status.JNeedsResnapshot?) && review.None?
    }

    function TransitionTo(next: JobStatus): Result<Job> {
      if !status.CanBecome(next) then Err(InvalidTransition) else Ok(this.(status := next))
    }

    function Complete(r: JobResult): Result<Job> {
      var moved := TransitionTo(StatusFor(r.outcome));
      if moved.Err? then moved else Ok(moved.value.(result := Some(r)))
    }

    function RecordReview(given: HumanReview): Result<Job> {
      if !NeedsReview() then Err(InvalidInput) else Ok(this.(review := Some(given)))
    }
  }

  function NewJob(id: Id, issueId: Id, base: Id, brief: JobBrief, supersedes: Option<Id>, now: nat): Job {
    Job(id, issueId, base, brief, supersedes, now, JQueued, None, None)
  }

  /** Every way the control plane rewrites a stored Job. A Job is stored only once it is `JRunning`. */
  datatype JobOp = JobComplete(result: JobResult) | JobCancel | JobSupersede | JobReview(given: HumanReview)
  {
    function Run(j: Job): Result<Job> {
      match this
      case JobComplete(r) => j.Complete(r)
      case JobCancel => j.TransitionTo(JCancelled)
      case JobSupersede => j.TransitionTo(JSuperseded)
      case JobReview(given) => j.RecordReview(given)
    }
  }

  function JobVersion(j: Job): nat {
    j.status.Rank() + if j.review.Some? then 1 else 0
  }

  predicate SameJob(a: Job, b: Job) {
    && a.id == b.id && a.issueId == b.issueId && a.baseSnapshot == b.baseSnapshot && a.brief == b.brief
    && a.supersedes == b.supersedes && a.createdAt == b.createdAt
  }

  predicate JobEvolves(a: Job, b: Job) {
    || a == b
    || (&& SameJob(a, b)
        && JobVersion(a) < JobVersion(b)
        && (a.status.IsTerminal() ==> a.review.None? && b == a.(review := b.review)))
  }

  predicate JobConsistent(j: Job) {
    && !j.status.JQueued?
    && (j.review.Some? ==> !j.status.JRunning? && !j.status.JCompleted? && !j.status.JWaitingForHuman? && !j.status.JBlocked?)
    && (j.status.JCompleted? <==> j.result.Some? && j.result.value.outcome in {Solved, DiagnosisOnly})
  }

  lemma JobRewriteEvolves(j: Job, op: JobOp)
    requires op.Run(j).Ok?
    ensures JobEvolves(j, op.Run(j).value)
    ensures JobVersion(j) < JobVersion(op.Run(j).value)
    ensures JobConsistent(j) ==> JobConsistent(op.Run(j).value)
  {
  }

  lemma JobEvolvesTransitive(a: Job, b: Job, c: Job)
    requires JobEvolves(a, b) && JobEvolves(b, c)
    ensures JobEvolves(a, c)
  {
  }

  // ---------------------------------------------------------------- Issues

  datatype IssueSource = FromJudge | FromHuman

  datatype IssuePriority = Low | Normal | High | Critical | HumanTop {
    function Level(): nat {
      match this
      case Low => 0
      case Normal => 1
      case High => 2
      case Critical => 3
      case HumanTop => 4
    }

    /** Nothing but a human report may sit at the top. */
    function ModelSafe(): IssuePriority { if HumanTop? then Critical else this }
  }

  function MaxPriority(a: IssuePriority, b: IssuePriority): IssuePriority {
    if a.Level() <= b.Level() then b else a
  }

  datatype IssueStatus =
    | Open | Investigating | IWaitingForHuman | Mitigating | IVerifying | Resolved | IFailed | ICancelled
  {
    predicate IsTerminal() { Resolved? || IFailed? || ICancelled? }

    predicate CanBecome(next: IssueStatus) {
      match this
      case Open => next.Investigating? || next.IWaitingForHuman? || next.ICancelled? || next.IFailed?
      case Investigating =>
        next.IWaitingForHuman? || next.Mitigating? || next.IVerifying? || next.Resolved? || next.IFailed? || next.ICancelled?
      case IWaitingForHuman =>
        next.Investigating? || next.Mitigating? || next.Resolved? || next.IFailed? || next.ICancelled?
      case Mitigating =>
        next.Investigating? || next.IWaitingForHuman? || next.IVerifying? || next.IFailed? || next.ICancelled?
      case IVerifying =>
        next.Investigating? || next.IWaitingForHuman? || next.Resolved? || next.Mitigating? || next.IFailed? || next.ICancelled?
      case _ => false
    }
  }

  datatype Issue = Issue(
    id: Id,
    source: IssueSource,
    sourceEvent: nat,
    dedupKey: Option<string>,
    affected: seq<string>,
    priority: IssuePriority,
    status: IssueStatus,
    currentSnapshot: Id,
    evidence: set<Id>,
    archived: bool)
  {
    predicate IsLive() { !status.IsTerminal() && !archived }

    function TransitionTo(next: IssueStatus): Result<Issue> {
      if !status.CanBecome(next) then Err(InvalidTransition) else Ok(this.(status := next))
    }
  }

  datatype HumanReport = HumanReport(reportId: Id, priority: Option<IssuePriority>, affected: seq<string>)

  function FromHumanReport(id: Id, r: HumanReport, snapshot: Id, event: nat): Issue {
    Issue(id, FromHuman, event, None, r.affected,
          if r.priority.Some? then r.priority.value else HumanTop, Open, snapshot, {}, false)
  }

  datatype IssueCandidate = IssueCandidate(
    snapshot: Id, proposedPriority: IssuePriority, affected: seq<string>, evidence: set<Id>, dedupKey: string)

  function FromCandidate(id: Id, c: IssueCandidate, event: nat): Issue {
    Issue(id, FromJudge, event, Some(c.dedupKey), c.affected, c.proposedPriority.ModelSafe(), Open,
          c.snapshot, c.evidence, false)
  }

  /** What any number of rewrites can do to an Issue. A closed Issue is final. */
  predicate IssueEvolves(a: Issue, b: Issue) {
    && a.id == b.id && a.source == b.source && a.sourceEvent == b.sourceEvent && a.dedupKey == b.dedupKey
    && a.affected == b.affected && a.archived == b.archived
    && (a.status.IsTerminal() ==> a == b)
    && (a.priority != b.priority ==> b.priority != HumanTop)
    && a.priority.Level() <= b.priority.Level()
    && a.evidence <= b.evidence
  }
}
