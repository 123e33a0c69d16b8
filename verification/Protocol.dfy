/** The scheduler's operations as threads over the shared store, one step per awaited store
    operation. `lifecycle_lock`, `triage_lock` and the readers of the mode lock are explicit; every
    other interleaving is allowed. The Team, the Platform, the Collector, the policy model and the
    operators may answer anything at all (src/scheduler.rs). */
module Protocol {
  import opened Wrappers
  import opened Policy
  import opened Domain
  import opened Reconciliation
  import opened Store
  import opened Verification

  type Tid = nat

  datatype SchedulerMode = ModeRunning | ModeDispatchFrozen | ModeFullyFrozen | ModeRecovering {
    predicate AllowsActions() { ModeRunning? || ModeDispatchFrozen? }
  }

  /** An operation that takes the lifecycle lock. */
  datatype Task =
    | Create(issueId: Id, base: Id, brief: JobBrief)
    | Supersede(previous: Id, base: Id, brief: JobBrief)
    | Admit(job: Job, intent: Proposal, before: Id, key: string)
    | Execute(actionId: Id)
    | Reconcile(issueId: Id)
    | Close(issueId: Id, closure: IssueStatus)

  /** `create_job` and `supersede_job` under the lock. */
  datatype DispatchPc =
    | DispatchAllowed(task: Task)
    | DispatchLive(issueId: Id, base: Id, brief: JobBrief)
    | CreateRead(issue: Issue, base: Id, brief: JobBrief)
    | CreateInserted(issue: Issue, job: Job)
    | SupersedeRead(previous: Job, base: Id, brief: JobBrief)
    | SupersedeLive(previous: Job, base: Id, brief: JobBrief)
    | SupersedeMarked(previous: Job, base: Id, brief: JobBrief)
    | SupersedeInserted(job: Job)

  /** `handle_callback`, `review_job` and `cancel_job_record`. */
  datatype JobPc =
    | CallbackRead(job: Job, result: JobResult)
    | CallbackLive(job: Job, result: JobResult)
    | CallbackIssue(job: Job, result: JobResult, issue: Issue, lists: ClassificationLists)
    | JobWrite(job: Job, op: JobOp)
    | CancelOneJob(job: Job)

  /** `create_action_run`, and every read-then-write on one ActionRun. */
  datatype ActionPc =
    | AdmitAllowed(jobId: Id, intent: Proposal, key: string)
    | AdmitLive(job: Job, intent: Proposal, before: Id, key: string)
    | AdmitInserted(action: ActionRun, job: Job)
    | Admitted(action: ActionRun, job: Job)
    | Claimed(action: ActionRun, job: Job)
    | ApproveRead(action: ActionRun, approver: string)
    | ActionWrite(action: ActionRun, op: ActionOp, now: nat)

  /** `execute_action`: the mode guard is held up to and including `ExecuteStarted`. */
  datatype ExecutePc =
    | ExecuteMode(actionId: Id)
    | ExecuteRead(action: ActionRun)
    | ExecuteLive(action: ActionRun, now: nat)
    | ExecuteStarted(action: ActionRun)
    | ExecuteMissing(action: ActionRun, reason: string)
    | ExecuteAborting
    | ExecuteReleasing(action: ActionRun)
    | ExecuteMissingReleasing(action: ActionRun, reason: string)
    | AtPlatform(action: ActionRun)
  {
    predicate HoldsReader() {
      ExecuteMode? || ExecuteRead? || ExecuteLive? || ExecuteStarted? || ExecuteMissing? || ExecuteAborting?
    }
  }

  /** `reconcile_issue` and `close_issue` up to the write of the Issue. */
  datatype ReconcilePc =
    | ReconcileRead(issue: Issue)
    | ReconcileJobs(issue: Issue, jobs: seq<Job>)
    | ReconcileActions(issue: Issue, jobs: seq<Job>, actions: seq<ActionRun>, lists: ClassificationLists)
    | CloseRead(issue: Issue, closure: IssueStatus)

  /** `cancel_issue_work` under the lock. */
  datatype ClearPc =
    | CancelList(issueId: Id)
    | CancelJobs(issueId: Id, pending: set<Id>)
    | CancelJob(issueId: Id, pending: set<Id>, job: Job)
    | CancelActionList(issueId: Id)
    | CancelActions(issueId: Id, pending: set<Id>)
    | CancelAction(issueId: Id, pending: set<Id>, action: ActionRun, now: nat)

  /** `triage_candidate` and `accept_human_report` under the triage lock. */
  datatype IntakePc =
    | TriageHeld(candidate: IssueCandidate)
    | TriageArchived(candidate: IssueCandidate, archivedIds: set<Id>)
    | TriageOpen(candidate: IssueCandidate, open: map<Id, Issue>)
    | TriageAccept(candidate: IssueCandidate, priority: IssuePriority)
    | TriageMerge(candidate: IssueCandidate, issueId: Id)
    | TriageMergeRead(candidate: IssueCandidate, issue: Issue)
    | TriageDone(made: Option<Issue>)
    | ReportHeld(report: HumanReport, snapshot: Id)
    | ReportChecked(report: HumanReport, snapshot: Id)
    | ReportAppended(report: HumanReport, snapshot: Id, eventIndex: nat)

  /** Single writes of other components: mode changes, captures, session import, events, intake. */
  datatype OtherPc =
    | PutMode(mode: SchedulerMode)
    | PutSnapshot(snapshotId: Id, content: Snapshot)
    | ImportIssue(issue: Issue)
    | ImportJob(job: Job)
    | ImportAction(action: ActionRun)
    | PutEvent(event: Event)
    | IntakeWrite(was: Issue, next: Issue)

  /** Where a thread is between two store operations, with the values it has read. */
  datatype Pc =
    | Idle
    | WaitLifecycle(task: Task)
    | Locked(task: Task)
    | Unlocking
    | Dispatching(d: DispatchPc)
    | OnJob(j: JobPc)
    | OnAction(a: ActionPc)
    | Executing(x: ExecutePc)
    | Reconciling(r: ReconcilePc)
    | Clearing(c: ClearPc)
    | WaitTriage(work: IntakePc)
    | Intaking(i: IntakePc)
    | Other(o: OtherPc)
  {
    predicate HoldsLifecycle() {
      || Locked? || Unlocking? || Dispatching? || Reconciling? || Clearing?
      || (OnAction? && (a.AdmitLive? || a.AdmitInserted?))
      || (Executing? && !x.AtPlatform?)
    }

    predicate HoldsTriage() { Intaking? }

    predicate HoldsReader() { Executing? && x.HoldsReader() }
  }

  datatype State = State(
    st: StoreState,
    mode: SchedulerMode,
    lifecycle: Option<Tid>,
    triage: Option<Tid>,
    readers: set<Tid>,
    pc: map<Tid, Pc>)

  function Goto(s: State, t: Tid, p: Pc): State { s.(pc := s.pc[t := p]) }

  function Save(s: State, st: StoreState, t: Tid, p: Pc): State { s.(st := st, pc := s.pc[t := p]) }

  /** The records a feedback item points at exist and are ours. */
  predicate OriginKnown(st: StoreState, o: FeedbackOrigin) {
    match o
    case IssueComment(_) => true
    case DeniedAction(id) => id in st.actions && st.Ours(st.actions[id].issueId)
    case BlockedAction(id) => id in st.actions && st.Ours(st.actions[id].issueId)
    case FailedAction(id) => id in st.actions && st.Ours(st.actions[id].issueId)
    case FailedJob(id) => id in st.jobs && st.Ours(st.jobs[id].issueId)
    case StalledJob(id) => id in st.jobs && st.Ours(st.jobs[id].issueId)
  }

  predicate FeedbackKnown(st: StoreState, feedback: seq<HumanFeedback>) {
    forall k :: 0 <= k < |feedback| ==> OriginKnown(st, feedback[k].origin)
  }

  /** A filtered listing read in one store operation. */
  ghost predicate ReadsJobs(st: StoreState, issueId: Id, xs: seq<Job>) {
    ListsJobs(xs, JobsIn(st.jobs, issueId))
  }

  ghost predicate ReadsActions(st: StoreState, issueId: Id, xs: seq<ActionRun>) {
    ListsActions(xs, ActionsIn(st.actions, issueId))
  }

  // ---------------------------------------------------------------- verdicts

  function BeforeOf(st: StoreState, a: ActionRun): Option<Snapshot> {
    if a.beforeSnapshot in st.snapshots then Some(st.snapshots[a.beforeSnapshot]) else None
  }

  /** What a verification may record: the judgment of a stored Snapshot, or a failed capture. */
  ghost predicate Judged(st: StoreState, a: ActionRun, lists: ClassificationLists, after: Option<Id>, v: Verdict) {
    if after.None? then v == Verdict(false, None)
    else after.value in st.snapshots && VerdictFor(a, lists, st.snapshots[after.value], BeforeOf(st, a), v)
  }

  ghost predicate VerdictKnown(st: StoreState, a: ActionRun, op: ActionOp) {
    op.OpVerify? ==> exists lists :: Judged(st, a, lists, op.after, Verdict(op.passed, op.graded))
  }

  // ---------------------------------------------------------------- first steps

  /** What a thread may begin with; everything it carries was read from the store in this step. */
  ghost predicate Begins(s: State, p: Pc) {
    match p
    case WaitLifecycle(task) =>
      && !task.Admit?
      && (task.Create? || task.Supersede? ==> FeedbackKnown(s.st, task.brief.feedback))
      && (task.Close? ==> task.closure.IsTerminal())
    case OnJob(CallbackRead(job, _)) => s.st.HoldsJob(job) && !job.status.IsTerminal()
    case OnJob(JobWrite(job, op)) => s.st.HoldsJob(job) && op.JobReview? && s.st.Ours(job.issueId)
    case OnJob(CancelOneJob(job)) => s.st.HoldsJob(job)
    case OnAction(AdmitAllowed(_, _, _)) => s.mode.AllowsActions()
    case OnAction(ApproveRead(action, _)) => s.st.Holds(action)
    case OnAction(ActionWrite(action, op, _)) =>
      && s.st.Holds(action)
      && ((op.OpVerify? && VerdictKnown(s.st, action, op))
          || ((op.OpReview? || (op.OpDeny? && op.why.ByHuman?)) && s.st.Ours(action.issueId)))
    case WaitTriage(work) => work.TriageHeld? || work.ReportHeld?
    case Other(IntakeWrite(was, next)) =>
      // The worker binds a fresh Snapshot, or parks an Issue it could not dispatch.
      && s.st.HoldsIssue(was) && was.IsLive()
      && (next == was.(currentSnapshot := next.currentSnapshot)
          || (was.status.Open? && next == was.(status := IWaitingForHuman)))
    case Other(_) => true
    case _ => false
  }

  // ---------------------------------------------------------------- one step of one thread

  /** Taking and dropping the two mutexes, and the first read under `lifecycle_lock`. */
  ghost predicate StepLocking(s: State, s': State, t: Tid)
    requires t in s.pc && t in s'.pc
  {
    match s.pc[t]
    case Idle => Begins(s, s'.pc[t]) && s' == Goto(s, t, s'.pc[t])
    case WaitLifecycle(task) => s.lifecycle.None? && s' == Goto(s, t, Locked(task)).(lifecycle := Some(t))
    case Unlocking => s' == Goto(s, t, Idle).(lifecycle := None)
    case WaitTriage(work) => s.triage.None? && s' == Goto(s, t, Intaking(work)).(triage := Some(t))
    case Intaking(TriageDone(_)) => s' == Goto(s, t, Idle).(triage := None)
    case _ => false
  }

  predicate StepLocked(s: State, s': State, t: Tid, task: Task)
    requires t in s.pc && t in s'.pc
  {
    match task
    case Create(_, _, _) => s' == Goto(s, t, if s.mode.ModeRunning? then Dispatching(DispatchAllowed(task)) else Unlocking)
    case Supersede(_, _, _) => s' == Goto(s, t, if s.mode.ModeRunning? then Dispatching(DispatchAllowed(task)) else Unlocking)
    case Admit(job, intent, before, key) =>
      s' == Goto(s, t, if s.st.LiveIssue(job.issueId) then OnAction(AdmitLive(job, intent, before, key)) else Unlocking)
    case Execute(id) =>
      s' == if s.mode.AllowsActions() then Goto(s, t, Executing(ExecuteMode(id))).(readers := s.readers + {t})
            else Goto(s, t, Unlocking)
    case Reconcile(i) =>
      s' == Goto(s, t, if i !in s.st.issues || s.st.issues[i].archived then Unlocking
                       else if s.st.issues[i].status.IsTerminal() then Clearing(CancelList(i))
                       else Reconciling(ReconcileRead(s.st.issues[i])))
    case Close(i, closure) =>
      s' == Goto(s, t, if i in s.st.issues then Reconciling(CloseRead(s.st.issues[i], closure)) else Unlocking)
  }

  predicate StepDispatch(s: State, s': State, t: Tid, d: DispatchPc)
    requires t in s.pc && t in s'.pc
  {
    var n := s'.pc[t];
    match d
    case DispatchAllowed(Create(i, base, brief)) =>
      s' == Goto(s, t, if s.st.LiveIssue(i) then Dispatching(DispatchLive(i, base, brief)) else Unlocking)
    case DispatchAllowed(Supersede(p, base, brief)) =>
      s' == Goto(s, t, if p in s.st.jobs && base in s.st.snapshots
                       then Dispatching(SupersedeRead(s.st.jobs[p], base, brief)) else Unlocking)
    case DispatchAllowed(_) => false
    case DispatchLive(i, base, brief) =>
      s' == Goto(s, t, if i in s.st.issues then Dispatching(CreateRead(s.st.issues[i], base, brief)) else Unlocking)
    case CreateRead(issue, base, brief) =>
      if base !in s.st.snapshots then s' == Goto(s, t, Unlocking)
      else
        && n.Dispatching? && n.d.CreateInserted? && n.d.issue == issue
        && IsNewJob(s.st, n.d.job, issue.id, base, brief, None)
        && s' == Save(s, s.st.PutJob(n.d.job), t, n)
    case CreateInserted(issue, job) =>
      s' == if issue.status.CanBecome(Investigating) && s.st.HoldsIssue(issue)
            then Save(s, s.st.PutIssue(issue.(status := Investigating)), t, Unlocking)
            else Goto(s, t, Unlocking)
    case SupersedeRead(previous, base, brief) =>
      s' == Goto(s, t, if s.st.LiveIssue(previous.issueId)
                       then Dispatching(SupersedeLive(previous, base, brief)) else Unlocking)
    case SupersedeLive(previous, base, brief) =>
      s' == if JobSupersede.Run(previous).Err? || !s.st.HoldsJob(previous) then Goto(s, t, Unlocking)
            else Save(s, s.st.PutJob(JobSupersede.Run(previous).value), t, Dispatching(SupersedeMarked(previous, base, brief)))
    case SupersedeMarked(previous, base, brief) =>
      && n.Dispatching? && n.d.SupersedeInserted?
      && IsNewJob(s.st, n.d.job, previous.issueId, base, brief, Some(previous.id))
      && s' == Save(s, s.st.PutJob(n.d.job), t, n)
    case SupersedeInserted(_) => s' == Goto(s, t, Unlocking)
  }

  /** A Job is first stored once it is running. */
  predicate IsNewJob(st: StoreState, job: Job, issueId: Id, base: Id, brief: JobBrief, supersedes: Option<Id>) {
    && job.id !in st.jobs
    && NewJob(job.id, issueId, base, brief, supersedes, job.createdAt).TransitionTo(JRunning) == Ok(job)
  }

  ghost predicate StepJob(s: State, s': State, t: Tid, j: JobPc)
    requires t in s.pc && t in s'.pc
  {
    match j
    case CallbackRead(job, result) =>
      s' == Goto(s, t, if job.issueId !in s.st.issues then Idle
                       else if s.st.issues[job.issueId].status.IsTerminal() then OnJob(CancelOneJob(job))
                       else OnJob(CallbackLive(job, result)))
    case CallbackLive(job, result) =>
      if !result.outcome.Solved? then s' == Goto(s, t, OnJob(JobWrite(job, JobComplete(result))))
      else if job.issueId !in s.st.issues || job.baseSnapshot !in s.st.snapshots then s' == Goto(s, t, Idle)
      else
        && s'.pc[t].OnJob? && s'.pc[t].j.CallbackIssue?
        && s' == Goto(s, t, OnJob(CallbackIssue(job, result, s.st.issues[job.issueId], s'.pc[t].j.lists)))
    case CallbackIssue(job, result, issue, lists) =>
      && job.baseSnapshot in s.st.snapshots
      && exists actions :: ReadsActions(s.st, job.issueId, actions) &&
           s' == Goto(s, t, OnJob(JobWrite(job, JobComplete(
             if SolvedIsSupported(issue, s.st.snapshots[job.baseSnapshot], actions, lists) then result
             else result.(outcome := DiagnosisOnly)))))
    case JobWrite(job, op) =>
      s' == if op.Run(job).Err? || !s.st.HoldsJob(job) then Goto(s, t, Idle)
            else Save(s, s.st.PutJob(op.Run(job).value), t, WaitLifecycle(Reconcile(job.issueId)))
    case CancelOneJob(job) =>
      s' == if job.status.IsTerminal() then Goto(s, t, Idle)
            else if !s.st.HoldsJob(job) then
              Goto(s, t, if job.id in s.st.jobs then OnJob(CancelOneJob(s.st.jobs[job.id])) else Idle)
            else if JobCancel.Run(job).Err? then Goto(s, t, Idle)
            else Save(s, s.st.PutJob(JobCancel.Run(job).value), t, Idle)
  }

  /** Admission happens under the lock; the claim and the decision happen outside it. */
  ghost predicate StepAction(s: State, s': State, t: Tid, a: ActionPc)
    requires t in s.pc && t in s'.pc
  {
    var n := s'.pc[t];
    match a
    case AdmitAllowed(jobId, intent, key) =>
      // The capture before the action may fail.
      if jobId !in s.st.jobs || n.Idle? then s' == Goto(s, t, Idle)
      else
        && n.WaitLifecycle? && n.task.Admit? && n.task == Admit(s.st.jobs[jobId], intent, n.task.before, key)
        && n.task.before in s.st.snapshots
        && s' == Goto(s, t, n)
    case AdmitLive(job, intent, before, key) =>
      && n.OnAction? && n.a.AdmitInserted? && n.a.job == job
      && n.a.action.id !in s.st.actions
      && n.a.action == FromProposal(n.a.action.id, job.issueId, job.id, intent, before, key, n.a.action.createdAt)
      && s' == Save(s, s.st.PutAction(n.a.action), t, n)
    case AdmitInserted(action, job) => s' == Goto(s, t, OnAction(Admitted(action, job))).(lifecycle := None)
    case Admitted(action, job) =>
      if ClaimBlocked(s.st, action) then
        && n.OnAction? && n.a.ActionWrite? && n.a.action == action && n.a.op.OpDeny? && n.a.op.why.ByPolicy?
        && s' == Goto(s, t, n)
      else s' == Goto(s, t, OnAction(Claimed(action, job)))
    case Claimed(action, job) =>
      // The repeat scan and the Platform's answer are free choices; the matrix is not.
      && action.beforeSnapshot in s.st.snapshots && n.OnAction? && n.a.ActionWrite? && n.a.action == action
      && s' == Goto(s, t, n)
      && exists policy, repeated ::
           DecidedAs(Decide(policy, action.intent, job.brief.scope, s.st.snapshots[action.beforeSnapshot].mode, repeated), n.a.op)
    case ApproveRead(action, approver) =>
      if !s.st.LiveIssue(action.issueId) then s' == Goto(s, t, Idle)
      else
        && n.OnAction? && n.a.ActionWrite? && n.a.action == action && n.a.op == OpApprove(approver)
        && s' == Goto(s, t, n)
    case ActionWrite(action, op, now) =>
      s' == if op.Run(action, now).Err? || !s.st.Holds(action) then Goto(s, t, Idle)
            else Save(s, s.st.PutAction(op.Run(action, now).value), t, WaitLifecycle(Reconcile(action.issueId)))
  }

  /** `claim_idempotency_key` answered with a holder. */
  predicate ClaimBlocked(st: StoreState, a: ActionRun) {
    exists id :: id in st.actions && BlocksClaim(st.actions[id], a.key, a.id)
  }

  /** A refusal cancels, an unknown runbook or a missing command waits for a human, and otherwise the
      matrix's own approval is applied. */
  predicate DecidedAs(d: Decision, op: ActionOp) {
    || (op.OpWait? && (d.opClass.None? || !d.approval.Rejected?))
    || (d.approval.Rejected? && op.OpDeny? && op.why.ByPolicy?)
    || (!d.approval.Rejected? && op == OpApply(d.approval))
  }

  predicate StepExecute(s: State, s': State, t: Tid, x: ExecutePc)
    requires t in s.pc && t in s'.pc
  {
    var n := s'.pc[t];
    match x
    case ExecuteMode(id) =>
      s' == Goto(s, t, Executing(if id in s.st.actions then ExecuteRead(s.st.actions[id]) else ExecuteAborting))
    case ExecuteRead(action) =>
      if !s.st.LiveIssue(action.issueId) then s' == Goto(s, t, Executing(ExecuteAborting))
      else
        && n.Executing? && s' == Goto(s, t, n)
        && (|| n.x.ExecuteAborting?
            || (n.x.ExecuteLive? && n.x.action == action)
            || (action.status.Ready? && n.x.ExecuteMissing? && n.x.action == action))
    case ExecuteLive(action, now) =>
      s' == if OpStart.Run(action, now).Err? || !s.st.Holds(action) then Goto(s, t, Executing(ExecuteAborting))
            else Save(s, s.st.PutAction(OpStart.Run(action, now).value), t,
                      Executing(ExecuteStarted(OpStart.Run(action, now).value)))
    case ExecuteStarted(action) => s' == Goto(s, t, Executing(ExecuteReleasing(action))).(readers := s.readers - {t})
    case ExecuteReleasing(action) => s' == Goto(s, t, Executing(AtPlatform(action))).(lifecycle := None)
    case ExecuteMissing(action, reason) =>
      s' == Goto(s, t, Executing(ExecuteMissingReleasing(action, reason))).(readers := s.readers - {t})
    case ExecuteMissingReleasing(action, reason) =>
      && n.OnAction? && n.a.ActionWrite? && n.a.action == action && n.a.op == OpWait(reason)
      && s' == Goto(s, t, n).(lifecycle := None)
    case ExecuteAborting => s' == Goto(s, t, Unlocking).(readers := s.readers - {t})
    case AtPlatform(action) =>
      && n.OnAction? && n.a.ActionWrite? && n.a.action == action && n.a.op.OpResult?
      && s' == Goto(s, t, n)
  }

  ghost predicate StepReconcile(s: State, s': State, t: Tid, r: ReconcilePc)
    requires t in s.pc && t in s'.pc
  {
    var n := s'.pc[t];
    match r
    case ReconcileRead(issue) =>
      && n.Reconciling? && n.r.ReconcileJobs? && n.r.issue == issue
      && ReadsJobs(s.st, issue.id, n.r.jobs)
      && s' == Goto(s, t, n)
    case ReconcileJobs(issue, jobs) =>
      && n.Reconciling? && n.r.ReconcileActions? && n.r.issue == issue && n.r.jobs == jobs
      && ReadsActions(s.st, issue.id, n.r.actions)
      && s' == Goto(s, t, n)
    case ReconcileActions(issue, jobs, actions, lists) =>
      var derived := DeriveIssueStatus(jobs, actions, lists);
      s' == if derived.None? || derived.value == issue.status || !issue.status.CanBecome(derived.value)
               || !s.st.HoldsIssue(issue)
            then Goto(s, t, Unlocking)
            else Save(s, s.st.PutIssue(issue.(status := derived.value)), t,
                      if derived.value.IsTerminal() then Clearing(CancelList(issue.id)) else Unlocking)
    case CloseRead(issue, closure) =>
      s' == if issue.archived then Goto(s, t, Unlocking)
            else if issue.status == closure then Goto(s, t, Clearing(CancelList(issue.id)))
            else if !issue.status.CanBecome(closure) || !s.st.HoldsIssue(issue) then Goto(s, t, Unlocking)
            else Save(s, s.st.PutIssue(issue.(status := closure)), t, Clearing(CancelList(issue.id)))
  }

  /** Each record is re-read and rewritten until it is terminal or out of reach. */
  predicate StepClear(s: State, s': State, t: Tid, c: ClearPc)
    requires t in s.pc && t in s'.pc
  {
    var n := s'.pc[t];
    match c
    case CancelList(i) => s' == Goto(s, t, Clearing(CancelJobs(i, JobsIn(s.st.jobs, i).Keys)))
    case CancelJobs(i, pending) =>
      if pending == {} then s' == Goto(s, t, Clearing(CancelActionList(i)))
      else
        && n.Clearing? && n.c.CancelJob? && n.c.job.id in pending && s.st.HoldsJob(n.c.job)
        && s' == Goto(s, t, Clearing(CancelJob(i, pending, n.c.job)))
    case CancelJob(i, pending, job) =>
      s' == if job.status.IsTerminal() then Goto(s, t, Clearing(CancelJobs(i, pending - {job.id})))
            else if JobCancel.Run(job).Err? || !s.st.HoldsJob(job) then Goto(s, t, Clearing(CancelJobs(i, pending)))
            else Save(s, s.st.PutJob(JobCancel.Run(job).value), t, Clearing(CancelJobs(i, pending - {job.id})))
    case CancelActionList(i) => s' == Goto(s, t, Clearing(CancelActions(i, ActionsIn(s.st.actions, i).Keys)))
    case CancelActions(i, pending) =>
      if pending == {} then s' == Goto(s, t, Unlocking)
      else
        && n.Clearing? && n.c.CancelAction? && n.c.action.id in pending && s.st.Holds(n.c.action)
        && s' == Goto(s, t, Clearing(CancelAction(i, pending, n.c.action, n.c.now)))
    case CancelAction(i, pending, action, now) =>
      s' == if !Cancellable(action) then Goto(s, t, Clearing(CancelActions(i, pending - {action.id})))
            else if OpCancel.Run(action, now).Err? || !s.st.Holds(action) then Goto(s, t, Clearing(CancelActions(i, pending)))
            else Save(s, s.st.PutAction(OpCancel.Run(action, now).value), t,
                      Clearing(CancelActions(i, pending - {action.id})))
  }

  /** What closing an Issue cancels; an admitted command finishes and is verified. */
  predicate Cancellable(a: ActionRun) { a.status.IsUnstarted() || a.status.WaitingForHuman? }

  predicate StepIntake(s: State, s': State, t: Tid, i: IntakePc)
    requires t in s.pc && t in s'.pc
  {
    var n := s'.pc[t];
    match i
    case TriageHeld(c) =>
      // Malformed candidates and findings older than a closure are turned away.
      && s' == Goto(s, t, n)
      && (|| n == Intaking(TriageDone(None))
          || n == Intaking(TriageArchived(c, set id | id in s.st.issues && s.st.issues[id].archived)))
    case TriageArchived(c, archivedIds) =>
      s' == Goto(s, t, Intaking(TriageOpen(c, map id | id in s.st.issues && !s.st.issues[id].status.IsTerminal()
                                                       && id !in archivedIds :: s.st.issues[id])))
    case TriageOpen(c, open) =>
      // A repeated finding merges; otherwise the policy model may say anything.
      && s' == Goto(s, t, n) && n.Intaking?
      && if exists id :: id in open && open[id].dedupKey == Some(c.dedupKey)
         then && n.i.TriageMerge? && n.i.candidate == c && n.i.issueId in open
              && open[n.i.issueId].dedupKey == Some(c.dedupKey)
         else || n.i == TriageDone(None)
              || (n.i.TriageAccept? && n.i.candidate == c)
              || (n.i.TriageMerge? && n.i.candidate == c && n.i.issueId in open)
    case TriageAccept(c, priority) =>
      && n.Intaking? && n.i.TriageDone? && n.i.made.Some?
      && var issue := n.i.made.value;
         && issue.id !in s.st.issues
         && issue == FromCandidate(issue.id, c, issue.sourceEvent).(priority := priority.ModelSafe())
         && s' == Save(s, s.st.PutIssue(issue), t, n)
    case TriageMerge(c, id) =>
      s' == Goto(s, t, Intaking(if s.st.LiveIssue(id) then TriageMergeRead(c, s.st.issues[id]) else TriageDone(None)))
    case TriageMergeRead(c, issue) =>
      if !s.st.HoldsIssue(issue) then s' == Goto(s, t, Intaking(TriageDone(None)))
      else
        && n.Intaking? && n.i.TriageDone? && n.i.made.Some?
        && MergesInto(c, issue, n.i.made.value)
        && s' == Save(s, s.st.PutIssue(n.i.made.value), t, n)
    case TriageDone(_) => false
    case ReportHeld(r, snapshot) =>
      s' == Goto(s, t, Intaking(if IssueReported(r.reportId) in s.st.events then TriageDone(None)
                                else ReportChecked(r, snapshot)))
    case ReportChecked(r, snapshot) =>
      s' == Save(s, s.st.(events := s.st.events + [IssueReported(r.reportId)]), t,
                 Intaking(ReportAppended(r, snapshot, |s.st.events|)))
    case ReportAppended(r, snapshot, eventIndex) =>
      && n.Intaking? && n.i.TriageDone? && n.i.made.Some?
      && var issue := n.i.made.value;
         && issue.id !in s.st.issues
         && issue == FromHumanReport(issue.id, r, snapshot, eventIndex)
         && s' == Save(s, s.st.PutIssue(issue), t, n)
  }

  /** The candidate's evidence and a model-safe priority are added; nothing is taken away. */
  predicate MergesInto(c: IssueCandidate, was: Issue, next: Issue) {
    && was.evidence + c.evidence <= next.evidence
    && next == was.(evidence := next.evidence,
                    priority := MaxPriority(was.priority, c.proposedPriority.ModelSafe()),
                    currentSnapshot := next.currentSnapshot)
    && (next.currentSnapshot == was.currentSnapshot || next.currentSnapshot == c.snapshot)
  }

  /** A session import checks for duplicates and marks its Issue an archive; its Jobs and ActionRuns
      belong to that Issue. */
  predicate StepOther(s: State, s': State, t: Tid, o: OtherPc)
    requires t in s.pc && t in s'.pc
  {
    match o
    case PutMode(m) => s.readers == {} && s' == Goto(s, t, Idle).(mode := m)
    case PutSnapshot(id, content) =>
      s' == if id in s.st.snapshots then Goto(s, t, Idle)
            else Save(s, s.st.(snapshots := s.st.snapshots[id := content]), t, Idle)
    case ImportIssue(issue) =>
      s' == if issue.id in s.st.issues then Goto(s, t, Idle)
            else Save(s, s.st.PutIssue(issue.(archived := true)), t, Idle)
    case ImportJob(job) =>
      s' == if job.id in s.st.jobs || !IsArchive(s.st, job.issueId) then Goto(s, t, Idle)
            else Save(s, s.st.PutJob(job), t, Idle)
    case ImportAction(action) =>
      s' == if action.id in s.st.actions || !IsArchive(s.st, action.issueId) then Goto(s, t, Idle)
            else Save(s, s.st.PutAction(action), t, Idle)
    case PutEvent(e) => s' == Save(s, s.st.(events := s.st.events + [e]), t, Idle)
    case IntakeWrite(was, next) =>
      s' == if s.st.HoldsIssue(was) then Save(s, s.st.PutIssue(next), t, Idle) else Goto(s, t, Idle)
  }

  predicate IsArchive(st: StoreState, i: Id) { i in st.issues && st.issues[i].archived }

  ghost predicate StepFrom(p: Pc, s: State, s': State, t: Tid)
    requires t in s.pc && t in s'.pc
  {
    match p
    case Locked(task) => StepLocked(s, s', t, task)
    case Dispatching(d) => StepDispatch(s, s', t, d)
    case OnJob(j) => StepJob(s, s', t, j)
    case OnAction(a) => StepAction(s, s', t, a)
    case Executing(x) => StepExecute(s, s', t, x)
    case Reconciling(r) => StepReconcile(s, s', t, r)
    case Clearing(c) => StepClear(s, s', t, c)
    case Intaking(i) => StepIntake(s, s', t, i) || StepLocking(s, s', t)
    case Other(o) => StepOther(s, s', t, o)
    case _ => StepLocking(s, s', t)
  }

  predicate AtPc(s: State, t: Tid, p: Pc) { t in s.pc && s.pc[t] == p }

  /** One store operation of one thread, from wherever it is. Naming the place with `AtPc` is what lets a
      proof look at the operation. */
  ghost predicate Step(s: State, s': State, t: Tid) {
    t in s.pc && t in s'.pc && forall p {:trigger AtPc(s, t, p)} :: AtPc(s, t, p) ==> StepFrom(p, s, s', t)
  }
}
