/** What one thread may do to the others (`Guarantee`), what each thread relies on between its steps
    (`PcHolds`), and what is true of the store at every moment (`StoreInvariant`). */
module ProtocolInvariant {
  import opened Wrappers
  import opened Policy
  import opened Domain
  import opened Reconciliation
  import opened Store
  import opened Protocol
  import opened Verification

  // ---------------------------------------------------------------- the store at every moment

  /** The pass an action of ours came from, on the same Issue, and the Snapshot taken before it. */
  ghost predicate ActionJob(st: StoreState, a: ActionRun) {
    && a.jobId in st.jobs && st.jobs[a.jobId].issueId == a.issueId
    && a.beforeSnapshot in st.snapshots
  }

  /** No approval without the matrix: whoever was not asked stayed inside the Job's grant. */
  ghost predicate Automatic(st: StoreState, a: ActionRun) {
    && a.jobId in st.jobs && a.beforeSnapshot in st.snapshots
    && AutomaticFor(a.intent, st.jobs[a.jobId].brief.scope, st.snapshots[a.beforeSnapshot].mode)
  }

  /** What a recorded `Solved` rests on: a real remediation on the Issue, and everything it touched
      Healthy in the Snapshot the Team reasoned over. */
  ghost predicate SolvedEvidence(st: StoreState, job: Job) {
    && job.issueId in st.issues
    && job.baseSnapshot in st.snapshots
    && (forall r :: r in st.issues[job.issueId].affected ==> HealthyIn(st.snapshots[job.baseSnapshot], r))
    && exists id :: id in st.actions && EvidenceFor(st, job, st.actions[id])
  }

  ghost predicate EvidenceFor(st: StoreState, job: Job, a: ActionRun)
    requires job.baseSnapshot in st.snapshots
  {
    && a.issueId == job.issueId && Remediates(a)
    && forall r :: r in a.intent.targets ==> HealthyIn(st.snapshots[job.baseSnapshot], r)
  }

  predicate ClaimsSolved(j: Job) { j.result.Some? && j.result.value.outcome.Solved? }

  ghost predicate JobFine(st: StoreState, j: Job) {
    && JobConsistent(j)
    && FeedbackKnown(st, j.brief.feedback)
    && (ClaimsSolved(j) ==> SolvedEvidence(st, j))
  }

  /** What a recorded remediation rests on: every target showed the effect in the after Snapshot, and the
      evidence is Strong exactly when one of them was not Healthy before. */
  ghost predicate SeenHealed(st: StoreState, a: ActionRun) {
    && a.afterSnapshot.Some? && a.afterSnapshot.value in st.snapshots && a.beforeSnapshot in st.snapshots
    && Shows(a, st.snapshots[a.afterSnapshot.value], a.intent.runbook == "mq.purge")
    && (a.evidence == Some(Strong) <==>
          exists t :: t in a.intent.targets && !WasHealthy(Some(st.snapshots[a.beforeSnapshot]), t))
  }

  ghost predicate ActionFine(st: StoreState, a: ActionRun) {
    && ActionConsistent(a)
    && ActionJob(st, a)
    && (Remediates(a) ==> SeenHealed(st, a))
    && (a.approval.NotRequired? ==> Automatic(st, a))
  }

  ghost predicate RecordsFine(st: StoreState) {
    && (forall id :: id in st.jobs ==> st.jobs[id].issueId in st.issues)
    && (forall id :: id in st.actions ==> st.actions[id].issueId in st.issues)
    && (forall id :: id in st.jobs && st.Ours(st.jobs[id].issueId) ==> JobFine(st, st.jobs[id]))
    && (forall id :: id in st.actions && st.Ours(st.actions[id].issueId) ==> ActionFine(st, st.actions[id]))
  }

  predicate LiveWithKey(st: StoreState, id: Id, key: string) {
    st.LiveIssue(id) && st.issues[id].dedupKey == Some(key)
  }

  predicate OpenedBy(st: StoreState, id: Id, reportId: Id) {
    && st.Ours(id) && st.issues[id].source.FromHuman?
    && st.issues[id].sourceEvent < |st.events| && st.events[st.issues[id].sourceEvent] == IssueReported(reportId)
  }

  ghost predicate Intake(st: StoreState) {
    && (forall i, k, key :: LiveWithKey(st, i, key) && LiveWithKey(st, k, key) ==> i == k)
    && (forall i, k, r :: OpenedBy(st, i, r) && OpenedBy(st, k, r) ==> i == k)
    && (forall i :: st.Ours(i) && st.issues[i].source.FromHuman? ==>
          st.issues[i].sourceEvent < |st.events| && st.events[st.issues[i].sourceEvent].IssueReported?)
    && (forall i :: st.Ours(i) && st.issues[i].source.FromJudge? ==> st.issues[i].priority != HumanTop)
  }

  ghost predicate StoreInvariant(st: StoreState) {
    KeyedById(st) && RecordsFine(st) && Intake(st)
  }

  /** A closed Issue of ours owns no unfinished Job and no action that could still be started. */
  ghost predicate Quiet(st: StoreState, i: Id) {
    && (forall id :: id in st.jobs && st.jobs[id].issueId == i ==> st.jobs[id].status.IsTerminal())
    && (forall id :: id in st.actions && st.actions[id].issueId == i ==> !st.actions[id].status.IsUnstarted())
  }

  predicate Closed(st: StoreState, i: Id) { st.Ours(i) && st.issues[i].status.IsTerminal() }

  /** Every closed Issue is quiet, but for the one the holder of the lock is clearing right now. */
  ghost predicate ClosedQuiet(s: State) {
    forall i :: Closed(s.st, i) ==> Quiet(s.st, i) || BeingCleared(s, i)
  }

  predicate BeingCleared(s: State, i: Id) {
    && s.lifecycle.Some? && s.lifecycle.value in s.pc
    && s.pc[s.lifecycle.value].Clearing? && s.pc[s.lifecycle.value].c.issueId == i
  }

  // ---------------------------------------------------------------- locks

  ghost predicate Locks(s: State) {
    && (forall t :: t in s.pc ==> (s.pc[t].HoldsLifecycle() <==> s.lifecycle == Some(t)))
    && (forall t :: t in s.pc ==> (s.pc[t].HoldsTriage() <==> s.triage == Some(t)))
    && (forall t :: t in s.pc ==> (s.pc[t].HoldsReader() <==> t in s.readers))
    && (s.lifecycle.Some? ==> s.lifecycle.value in s.pc)
    && (s.triage.Some? ==> s.triage.value in s.pc)
    && s.readers <= s.pc.Keys
  }

  // ---------------------------------------------------------------- what a thread relies on

  predicate KnowsJob(st: StoreState, j: Job) { j.id in st.jobs && SameJob(j, st.jobs[j.id]) }

  predicate KnowsAction(st: StoreState, a: ActionRun) { a.id in st.actions && SameAction(a, st.actions[a.id]) }

  ghost predicate TaskHolds(st: StoreState, task: Task) {
    match task
    case Create(_, _, brief) => FeedbackKnown(st, brief.feedback)
    case Supersede(_, _, brief) => FeedbackKnown(st, brief.feedback)
    case Admit(job, _, before, _) => KnowsJob(st, job) && before in st.snapshots
    case Close(_, closure) => closure.IsTerminal()
    case _ => true
  }

  /** An action just created from a proposal, as its creator remembers it. */
  predicate Fresh(st: StoreState, a: ActionRun, job: Job) {
    && KnowsAction(st, a) && KnowsJob(st, job) && a.jobId == job.id && a.issueId == job.issueId
    && a.status.Proposed? && a.beforeSnapshot in st.snapshots
  }

  ghost predicate WriteHolds(st: StoreState, a: ActionRun, op: ActionOp) {
    && KnowsAction(st, a) && op.FromPolicy() && !op.OpStart?
    && (op == OpApply(NotRequired) ==> Automatic(st, a))
    && (op.OpVerify? ==> VerdictHolds(st, a, op))
  }

  /** A verdict on an action of ours still follows from the two Snapshots it was judged by. */
  ghost predicate VerdictHolds(st: StoreState, a: ActionRun, op: ActionOp) {
    && a.issueId in st.issues
    && (st.Ours(a.issueId) ==> a.beforeSnapshot in st.snapshots && VerdictKnown(st, a, op))
  }

  ghost predicate JobWriteHolds(st: StoreState, j: Job, op: JobOp) {
    && KnowsJob(st, j)
    && (op.JobComplete? && op.result.outcome.Solved? ==> SolvedEvidence(st, j))
  }

  /** Under the lock no record of the Issue appears, and what was read has only evolved. */
  ghost predicate JobsCovered(st: StoreState, i: Id, xs: seq<Job>) {
    && (forall x :: x in xs ==> x.id in st.jobs && x.issueId == i && JobEvolves(x, st.jobs[x.id]))
    && (forall id :: id in st.jobs && st.jobs[id].issueId == i ==> exists x :: x in xs && x.id == id)
  }

  ghost predicate ActionsCovered(st: StoreState, i: Id, xs: seq<ActionRun>) {
    && (forall x :: x in xs ==> x.id in st.actions && x.issueId == i && ActionEvolves(x, st.actions[x.id]) && ActionConsistent(x))
    && (forall id :: id in st.actions && st.actions[id].issueId == i ==> exists x :: x in xs && x.id == id)
    && (forall k, l :: 0 <= k < l < |xs| ==> xs[k].id != xs[l].id)
  }

  ghost predicate JobsPending(st: StoreState, i: Id, pending: set<Id>) {
    forall id :: id in st.jobs && st.jobs[id].issueId == i && !st.jobs[id].status.IsTerminal() ==> id in pending
  }

  ghost predicate ActionsPending(st: StoreState, i: Id, pending: set<Id>) {
    forall id :: id in st.actions && st.actions[id].issueId == i && st.actions[id].status.IsUnstarted() ==> id in pending
  }

  ghost predicate ClearHolds(st: StoreState, c: ClearPc) {
    && Closed(st, c.issueId)
    && match c
       case CancelList(_) => true
       case CancelJobs(i, pending) => JobsPending(st, i, pending) && pending <= st.jobs.Keys
       case CancelJob(i, pending, job) =>
         && JobsPending(st, i, pending) && pending <= st.jobs.Keys
         && job.id in st.jobs && JobEvolves(job, st.jobs[job.id])
       case CancelActionList(i) => JobsPending(st, i, {})
       case CancelActions(i, pending) => JobsPending(st, i, {}) && ActionsPending(st, i, pending) && pending <= st.actions.Keys
       case CancelAction(i, pending, a, _) =>
         && JobsPending(st, i, {}) && ActionsPending(st, i, pending) && pending <= st.actions.Keys
         && a.id in st.actions && ActionEvolves(a, st.actions[a.id])
  }

  ghost predicate IntakeHolds(st: StoreState, i: IntakePc) {
    match i
    case TriageArchived(_, ids) => forall id :: id in ids ==> id in st.issues && st.issues[id].archived
    case TriageOpen(c, open) =>
      forall id :: LiveWithKey(st, id, c.dedupKey) ==> id in open && open[id].dedupKey == Some(c.dedupKey)
    case TriageAccept(c, _) => forall id :: !LiveWithKey(st, id, c.dedupKey)
    case TriageMergeRead(_, issue) => issue.IsLive()
    case ReportChecked(r, _) => forall id :: !OpenedBy(st, id, r.reportId)
    case ReportAppended(r, _, e) =>
      && (forall id :: !OpenedBy(st, id, r.reportId))
      && e < |st.events| && st.events[e] == IssueReported(r.reportId)
    case _ => true
  }

  ghost predicate DispatchHolds(st: StoreState, d: DispatchPc) {
    match d
    case DispatchAllowed(task) => (task.Create? || task.Supersede?) && TaskHolds(st, task)
    case DispatchLive(i, _, brief) => st.LiveIssue(i) && FeedbackKnown(st, brief.feedback)
    case CreateRead(issue, _, brief) => st.LiveIssue(issue.id) && FeedbackKnown(st, brief.feedback)
    case CreateInserted(_, _) => true
    case SupersedeRead(previous, base, brief) =>
      KnowsJob(st, previous) && base in st.snapshots && FeedbackKnown(st, brief.feedback)
    case SupersedeLive(previous, base, brief) =>
      KnowsJob(st, previous) && base in st.snapshots && FeedbackKnown(st, brief.feedback) && st.LiveIssue(previous.issueId)
    case SupersedeMarked(previous, base, brief) =>
      KnowsJob(st, previous) && base in st.snapshots && FeedbackKnown(st, brief.feedback) && st.LiveIssue(previous.issueId)
    case SupersedeInserted(_) => true
  }

  ghost predicate JobPcHolds(st: StoreState, j: JobPc) {
    match j
    case CallbackRead(job, _) => KnowsJob(st, job)
    case CallbackLive(job, _) => KnowsJob(st, job)
    case CallbackIssue(job, result, issue, _) =>
      && KnowsJob(st, job) && result.outcome.Solved? && job.baseSnapshot in st.snapshots
      && issue.id == job.issueId && issue.id in st.issues && issue.affected == st.issues[issue.id].affected
    case JobWrite(job, op) => JobWriteHolds(st, job, op)
    case CancelOneJob(job) => KnowsJob(st, job)
  }

  ghost predicate ActionPcHolds(st: StoreState, a: ActionPc) {
    match a
    case AdmitAllowed(_, _, _) => true
    case AdmitLive(job, _, before, _) => KnowsJob(st, job) && before in st.snapshots && st.LiveIssue(job.issueId)
    case AdmitInserted(action, job) => Fresh(st, action, job)
    case Admitted(action, job) => Fresh(st, action, job)
    case Claimed(action, job) => Fresh(st, action, job)
    case ApproveRead(action, _) => KnowsAction(st, action)
    case ActionWrite(action, op, _) => WriteHolds(st, action, op)
  }

  ghost predicate ExecuteHolds(s: State, x: ExecutePc) {
    match x
    case ExecuteMode(_) => s.mode.AllowsActions()
    case ExecuteRead(action) => s.mode.AllowsActions() && KnowsAction(s.st, action)
    case ExecuteLive(action, _) => s.mode.AllowsActions() && KnowsAction(s.st, action) && s.st.LiveIssue(action.issueId)
    case ExecuteStarted(action) => KnowsAction(s.st, action)
    case ExecuteReleasing(action) => KnowsAction(s.st, action)
    case ExecuteMissing(action, _) => KnowsAction(s.st, action) && action.status.Ready?
    case ExecuteMissingReleasing(action, _) => KnowsAction(s.st, action) && action.status.Ready?
    case ExecuteAborting => true
    case AtPlatform(action) => KnowsAction(s.st, action)
  }

  ghost predicate ReconcileHolds(st: StoreState, r: ReconcilePc) {
    match r
    case ReconcileRead(issue) => st.LiveIssue(issue.id)
    case ReconcileJobs(issue, jobs) => st.LiveIssue(issue.id) && JobsCovered(st, issue.id, jobs)
    case ReconcileActions(issue, jobs, actions, _) =>
      st.LiveIssue(issue.id) && JobsCovered(st, issue.id, jobs) && ActionsCovered(st, issue.id, actions)
    case CloseRead(issue, closure) =>
      && closure.IsTerminal() && issue.id in st.issues && issue.archived == st.issues[issue.id].archived
      && (issue.status.IsTerminal() ==> st.issues[issue.id].status == issue.status)
  }

  predicate OtherHolds(o: OtherPc) {
    o.IntakeWrite? ==> IssueEvolves(o.was, o.next) && !o.next.status.IsTerminal() && o.was.IsLive()
  }

  ghost predicate PcHolds(s: State, p: Pc) {
    match p
    case WaitLifecycle(task) => TaskHolds(s.st, task)
    case Locked(task) => TaskHolds(s.st, task)
    case Dispatching(d) => DispatchHolds(s.st, d)
    case OnJob(j) => JobPcHolds(s.st, j)
    case OnAction(a) => ActionPcHolds(s.st, a)
    case Executing(x) => ExecuteHolds(s, x)
    case Reconciling(r) => ReconcileHolds(s.st, r)
    case Clearing(c) => ClearHolds(s.st, c)
    case WaitTriage(i) => i.TriageHeld? || i.ReportHeld?
    case Intaking(i) => IntakeHolds(s.st, i)
    case Other(o) => OtherHolds(o)
    case _ => true
  }

  ghost predicate Inv(s: State) {
    && Locks(s)
    && StoreInvariant(s.st)
    && ClosedQuiet(s)
    && (forall t :: t in s.pc ==> PcHolds(s, s.pc[t]))
  }

  // ---------------------------------------------------------------- what one step may do to the rest

  /** Issues change only in ways every reader tolerates, and close only under the lock. */
  ghost predicate IssuesGuarded(s: State, s': State, t: Tid) {
    && (forall i :: i in s.st.issues ==> i in s'.st.issues && IssueEvolves(s.st.issues[i], s'.st.issues[i]))
    && (s.lifecycle != Some(t) ==>
          forall i :: i in s.st.issues && s'.st.issues[i].status.IsTerminal() ==> s.st.issues[i].status.IsTerminal())
    && (s.triage != Some(t) ==>
          forall i :: i in s'.st.issues && i !in s.st.issues ==> s'.st.issues[i].archived)
    && (forall i :: i in s'.st.issues && i !in s.st.issues ==> s'.st.issues[i].archived || s'.st.issues[i].status.Open?)
  }

  ghost predicate JobsGuarded(s: State, s': State, t: Tid) {
    && (forall j :: j in s.st.jobs ==> j in s'.st.jobs && JobEvolves(s.st.jobs[j], s'.st.jobs[j]))
    && (forall j :: j in s'.st.jobs && j !in s.st.jobs ==>
          && s'.st.jobs[j].issueId in s.st.issues
          && (s.st.issues[s'.st.jobs[j].issueId].archived
              || (s.lifecycle == Some(t) && s.st.LiveIssue(s'.st.jobs[j].issueId))))
  }

  /** What must be true at the moment an action starts. */
  predicate StartAllowed(s: State, a: ActionRun) {
    a.status.Ready? && s.mode.AllowsActions() && s.st.LiveIssue(a.issueId)
  }

  ghost predicate ActionsGuarded(s: State, s': State, t: Tid) {
    && (forall a :: a in s.st.actions ==> a in s'.st.actions && ActionEvolves(s.st.actions[a], s'.st.actions[a]))
    && (forall a :: a in s.st.actions && s.st.actions[a].startedAt.None? && s'.st.actions[a].startedAt.Some? ==>
          StartAllowed(s, s.st.actions[a]))
    && (forall a :: a in s'.st.actions && a !in s.st.actions ==>
          && s'.st.actions[a].issueId in s.st.issues
          && (s.st.issues[s'.st.actions[a].issueId].archived
              || (&& s.lifecycle == Some(t) && s.st.LiveIssue(s'.st.actions[a].issueId)
                  && s'.st.actions[a].startedAt.None?)))
  }

  ghost predicate LogGuarded(s: State, s': State) {
    && s.st.events <= s'.st.events
    && (forall k :: k in s.st.snapshots ==> k in s'.st.snapshots && s'.st.snapshots[k] == s.st.snapshots[k])
  }

  ghost predicate LocksGuarded(s: State, s': State, t: Tid) {
    && (s'.lifecycle == s.lifecycle || (s.lifecycle.None? && s'.lifecycle == Some(t)) || (s.lifecycle == Some(t) && s'.lifecycle.None?))
    && (s'.triage == s.triage || (s.triage.None? && s'.triage == Some(t)) || (s.triage == Some(t) && s'.triage.None?))
    && (s'.readers == s.readers || s'.readers == s.readers + {t} || s'.readers == s.readers - {t})
    && (s'.mode == s.mode || s.readers == {})
    && s'.pc.Keys == s.pc.Keys
    && (forall u :: u in s.pc && u != t ==> s'.pc[u] == s.pc[u])
  }

  ghost predicate Guarantee(s: State, s': State, t: Tid) {
    && IssuesGuarded(s, s', t) && JobsGuarded(s, s', t) && ActionsGuarded(s, s', t)
    && LogGuarded(s, s') && LocksGuarded(s, s', t)
    && (KeyedById(s.st) ==> KeyedById(s'.st))
  }
}
