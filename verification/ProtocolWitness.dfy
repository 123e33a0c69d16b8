/** The theorems speak about something: a run in which an action is verified and its Issue resolved, and
    a run in which an approval overtakes a claim. */
module ProtocolWitness {
  import opened Wrappers
  import opened Policy
  import opened Domain
  import opened Matching
  import opened Reconciliation
  import opened Verification
  import opened Store
  import opened Protocol
  import opened ProtocolInvariant
  import opened ProtocolProof
  import opened ProtocolTheorems
  import opened ProtocolClaims

  // ---------------------------------------------------------------- steps of one thread

  lemma Begun(start: State, s: State, t: Tid, p: Pc) returns (s': State)
    requires Reaches(start, s) && t in s.pc && s.pc[t].Idle? && Begins(s, p)
    ensures s' == Goto(s, t, p) && Reaches(start, s')
  {
    s' := Goto(s, t, p);
    assert Step(s, s', t);
    ReachesNext(start, s, s', t);
  }

  lemma LockTaken(start: State, s: State, t: Tid, task: Task) returns (s': State)
    requires Reaches(start, s) && t in s.pc && s.pc[t] == WaitLifecycle(task) && s.lifecycle.None?
    ensures s' == Goto(s, t, Locked(task)).(lifecycle := Some(t)) && Reaches(start, s')
  {
    s' := Goto(s, t, Locked(task)).(lifecycle := Some(t));
    assert StepLocking(s, s', t);
    assert Step(s, s', t);
    ReachesNext(start, s, s', t);
  }

  // ---------------------------------------------------------------- verifying and resolving

  lemma SnapshotStored(start: State, s: State, t: Tid, id: Id, content: Snapshot) returns (s': State)
    requires Reaches(start, s) && t in s.pc && s.pc[t] == Other(PutSnapshot(id, content)) && id !in s.st.snapshots
    ensures s' == Save(s, s.st.(snapshots := s.st.snapshots[id := content]), t, Idle) && Reaches(start, s')
  {
    s' := Save(s, s.st.(snapshots := s.st.snapshots[id := content]), t, Idle);
    assert StepOther(s, s', t, PutSnapshot(id, content));
    assert Step(s, s', t);
    ReachesNext(start, s, s', t);
  }

  lemma Verified(start: State, s: State, t: Tid, a: ActionRun, op: ActionOp, now: nat) returns (s': State)
    requires Reaches(start, s) && t in s.pc && s.pc[t].Idle? && op.OpVerify? && VerdictKnown(s.st, a, op)
    requires s.st.Holds(a) && op.Run(a, now).Ok?
    ensures s' == Save(s, s.st.PutAction(op.Run(a, now).value), t, WaitLifecycle(Reconcile(a.issueId))) && Reaches(start, s')
  {
    var judged := Begun(start, s, t, OnAction(ActionWrite(a, op, now)));
    s' := Save(judged, s.st.PutAction(op.Run(a, now).value), t, WaitLifecycle(Reconcile(a.issueId)));
    assert StepAction(judged, s', t, ActionWrite(a, op, now));
    assert Step(judged, s', t);
    ReachesNext(start, judged, s', t);
    assert s'.pc == s.pc[t := WaitLifecycle(Reconcile(a.issueId))];
  }

  lemma IssueRead(start: State, s: State, t: Tid, issue: Issue) returns (s': State)
    requires Reaches(start, s) && t in s.pc && s.pc[t] == Locked(Reconcile(issue.id))
    requires s.st.HoldsIssue(issue) && issue.IsLive()
    ensures s' == Goto(s, t, Reconciling(ReconcileRead(issue))) && Reaches(start, s')
  {
    s' := Goto(s, t, Reconciling(ReconcileRead(issue)));
    assert StepLocked(s, s', t, Reconcile(issue.id));
    assert Step(s, s', t);
    ReachesNext(start, s, s', t);
  }

  lemma RecordsRead(start: State, s: State, t: Tid, issue: Issue, jobs: seq<Job>, actions: seq<ActionRun>, lists: ClassificationLists)
    returns (s': State)
    requires Reaches(start, s) && t in s.pc && s.pc[t] == Reconciling(ReconcileRead(issue))
    requires ReadsJobs(s.st, issue.id, jobs) && ReadsActions(s.st, issue.id, actions)
    ensures s' == Goto(s, t, Reconciling(ReconcileActions(issue, jobs, actions, lists))) && Reaches(start, s')
  {
    var half := Goto(s, t, Reconciling(ReconcileJobs(issue, jobs)));
    assert StepReconcile(s, half, t, ReconcileRead(issue));
    assert Step(s, half, t);
    ReachesNext(start, s, half, t);
    s' := Goto(half, t, Reconciling(ReconcileActions(issue, jobs, actions, lists)));
    assert StepReconcile(half, s', t, ReconcileJobs(issue, jobs));
    assert Step(half, s', t);
    ReachesNext(start, half, s', t);
    assert s'.pc == s.pc[t := Reconciling(ReconcileActions(issue, jobs, actions, lists))];
  }

  lemma Committed(start: State, s: State, t: Tid, issue: Issue, jobs: seq<Job>, actions: seq<ActionRun>, lists: ClassificationLists)
    returns (s': State)
    requires Reaches(start, s) && t in s.pc && s.pc[t] == Reconciling(ReconcileActions(issue, jobs, actions, lists))
    requires DeriveIssueStatus(jobs, actions, lists) == Some(Resolved) && issue.status.CanBecome(Resolved) && s.st.HoldsIssue(issue)
    ensures Reaches(start, s') && Step(s, s', t) && Resolves(s, s', t, issue.id)
  {
    s' := Save(s, s.st.PutIssue(issue.(status := Resolved)), t, Clearing(CancelList(issue.id)));
    assert StepReconcile(s, s', t, ReconcileActions(issue, jobs, actions, lists));
    assert Step(s, s', t);
    ReachesNext(start, s, s', t);
  }

  /** Whoever finds everything settled, with a ground, resolves the Issue. */
  lemma Reconciled(start: State, s: State, t: Tid, issue: Issue, jobs: seq<Job>, actions: seq<ActionRun>, lists: ClassificationLists)
    returns (before: State, s': State)
    requires Reaches(start, s) && t in s.pc && s.pc[t] == WaitLifecycle(Reconcile(issue.id)) && s.lifecycle.None?
    requires s.st.HoldsIssue(issue) && issue.IsLive() && issue.status.CanBecome(Resolved)
    requires ReadsJobs(s.st, issue.id, jobs) && ReadsActions(s.st, issue.id, actions)
    requires DeriveIssueStatus(jobs, actions, lists) == Some(Resolved)
    ensures Reaches(start, before) && Step(before, s', t) && Resolves(before, s', t, issue.id)
  {
    before := LockTaken(start, s, t, Reconcile(issue.id));
    before := IssueRead(start, before, t, issue);
    before := RecordsRead(start, before, t, issue, jobs, actions, lists);
    s' := Committed(start, before, t, issue, jobs, actions, lists);
  }

  // A server that was down is restarted with an operator's approval; the Platform has answered, and the
  // verification is about to capture its Snapshot.

  function Lists(): ClassificationLists { ClassificationLists([], [], [], []) }

  function Restart(): Proposal { Proposal("server.restart", ["server-1"], [], "", "", []) }

  function Grant(): JobBrief { JobBrief(Scope(["operate.restart"], ["server-1"]), [], None, None, 0) }

  function Outage(status: IssueStatus): Issue {
    Issue(0, FromJudge, 0, Some("server down"), ["server-1"], Normal, status, 0, {}, false)
  }

  function Pass(proposals: seq<Proposal>): Job {
    Job(0, 0, 0, Grant(), None, 0, JCompleted, None, Some(JobResult(DiagnosisOnly, proposals, [], false)))
  }

  function Seen(at: nat, health: HealthState): Snapshot {
    Snapshot(ContestLocked, at, [ResourceState("server-1", health, at, [], [])])
  }

  function Restarted(): ActionRun {
    FromProposal(0, 0, 0, Restart(), 0, "key", 0)
      .(status := Verifying, approval := Approved, approvedBy := Some("operator"), startedAt := Some(1),
        executionArtifact := Some(0), executionSummary := Some(""))
  }

  function Ward(): StoreState {
    StoreState(map[0 := Outage(IVerifying)], map[0 := Pass([Restart()])], map[0 := Restarted()], map[0 := Seen(0, Unhealthy)], [])
  }

  function OneThread(st: StoreState): State { State(st, ModeRunning, None, None, {}, map[0 := Idle]) }

  function Healed(): ActionOp { OpVerify(Some(1), true, Some(Strong)) }

  /** The proposal is one the matrix sends to the operators during a contest. */
  lemma RestartIsAskedFor(policy: AuthorityPolicy, repeated: bool)
    requires policy.catalog == map["server-1" := BroccoliServer]
    ensures Decide(policy, Restart(), Grant().scope, ContestLocked, repeated) == Decision(Some(ServerRestart), Pending)
  {
    assert TargetInScope(policy, Restart(), ServerRestart, Grant().scope, "server-1");
    assert "operate.restart" in Grant().scope.capabilities;
  }

  lemma WardRecords()
    ensures KeyedById(Ward()) && RecordsFine(Ward())
  {
    assert ActionFine(Ward(), Restarted());
    assert JobFine(Ward(), Pass([Restart()]));
  }

  /** A quiet controller with one live Issue of the Judge's. */
  lemma QuietInit(s: State, issue: Issue)
    requires s.st.issues == map[issue.id := issue] && issue.IsLive() && issue.source.FromJudge? && issue.priority != HumanTop
    requires KeyedById(s.st) && RecordsFine(s.st)
    requires s.lifecycle.None? && s.triage.None? && s.readers == {} && forall t :: t in s.pc ==> s.pc[t].Idle?
    ensures Init(s)
  {
  }

  lemma WardInit()
    ensures Init(OneThread(Ward()))
  {
    WardRecords();
    QuietInit(OneThread(Ward()), Outage(IVerifying));
  }

  /** Unhealthy before, Healthy after the start: the strongest evidence there is. */
  lemma TheRestartShows(st: StoreState)
    requires st.snapshots == map[0 := Seen(0, Unhealthy), 1 := Seen(2, Healthy)]
    ensures VerdictKnown(st, Restarted(), Healed())
  {
    var after := Seen(2, Healthy);
    assert FindResource(after.resources, "server-1") == Some(after.resources[0]);
    assert EffectShown(after, "server-1", 1, [], false);
    assert "server-1" in Restarted().intent.targets && !WasHealthy(Some(Seen(0, Unhealthy)), "server-1");
    assert Judged(st, Restarted(), Lists(), Some(1), Verdict(true, Some(Strong)));
  }

  lemma AllIsMaterialized(job: Job, done: ActionRun)
    requires done.jobId == job.id && job.result.Some? && job.result.value.proposals == [done.intent]
    ensures Materialized(job, [done])
  {
    assert OwnedBy([done], job.id) == [done] by { assert [done][1..] == []; }
    assert Intents([done]) == [done.intent];
  }

  lemma DerivesResolved(job: Job, done: ActionRun, lists: ClassificationLists)
    requires job.status.JCompleted? && done.jobId == job.id && Remediates(done) && done.denial.None?
    requires job.result.Some? && job.result.value.proposals == [done.intent] && !job.result.value.followUpRequested
    ensures DeriveIssueStatus([job], [done], lists) == Some(Resolved)
  {
    AllIsMaterialized(job, done);
    assert Settled([job], [done]);
    assert ResolutionGround(LatestJob([job]), [done]);
    ResolvedIffSettledWithGround([job], [done], lists);
  }

  lemma OnlyRecords(st: StoreState, job: Job, a: ActionRun)
    requires st.jobs == map[job.id := job] && st.actions == map[a.id := a] && a.issueId == job.issueId
    ensures ReadsJobs(st, job.issueId, [job]) && ReadsActions(st, job.issueId, [a])
  {
  }

  /** What is left to do on the Issue is to verify its one action, and the verdict will be good. */
  ghost predicate AlmostHealed(st: StoreState, content: Snapshot, id: Id, op: ActionOp, issue: Issue, job: Job, a: ActionRun) {
    && id !in st.snapshots && st.HoldsIssue(issue) && issue.IsLive() && issue.status.CanBecome(Resolved)
    && st.jobs == map[job.id := job] && st.actions == map[a.id := a]
    && a.issueId == issue.id && job.issueId == issue.id && a.jobId == job.id
    && job.status.JCompleted? && job.result.Some? && job.result.value.proposals == [a.intent] && !job.result.value.followUpRequested
    && op.OpVerify? && op.Run(a, 3).Ok? && Remediates(op.Run(a, 3).value) && op.Run(a, 3).value.denial.None?
    && VerdictKnown(st.(snapshots := st.snapshots[id := content]), a, op)
  }

  lemma Judging(start: State, s: State, t: Tid, content: Snapshot, id: Id, op: ActionOp, issue: Issue, job: Job, a: ActionRun)
    returns (s': State)
    requires Reaches(start, s) && t in s.pc && s.pc[t].Idle?
    requires AlmostHealed(s.st, content, id, op, issue, job, a)
    ensures Reaches(start, s') && t in s'.pc && s'.pc[t] == WaitLifecycle(Reconcile(issue.id)) && s'.lifecycle == s.lifecycle
    ensures s'.st == s.st.(snapshots := s.st.snapshots[id := content]).PutAction(op.Run(a, 3).value)
  {
    s' := Begun(start, s, t, Other(PutSnapshot(id, content)));
    s' := SnapshotStored(start, s', t, id, content);
    s' := Verified(start, s', t, a, op, 3);
  }

  lemma HealedReading(st: StoreState, st': StoreState, content: Snapshot, id: Id, op: ActionOp, issue: Issue, job: Job, a: ActionRun)
    requires AlmostHealed(st, content, id, op, issue, job, a)
    requires st' == st.(snapshots := st.snapshots[id := content]).PutAction(op.Run(a, 3).value)
    ensures st'.HoldsIssue(issue) && issue.IsLive() && issue.status.CanBecome(Resolved)
    ensures ReadsJobs(st', issue.id, [job]) && ReadsActions(st', issue.id, [op.Run(a, 3).value])
    ensures DeriveIssueStatus([job], [op.Run(a, 3).value], Lists()) == Some(Resolved)
  {
    var done := op.Run(a, 3).value;
    RewriteAdvances(a, op, 3);
    DerivesResolved(job, done, Lists());
    assert st'.actions == map[a.id := done];
    OnlyRecords(st', job, done);
  }

  /** Capture, judge, reconcile: with the last action of the last pass the Issue is resolved. */
  lemma Healing(start: State, s: State, t: Tid, content: Snapshot, id: Id, op: ActionOp, issue: Issue, job: Job, a: ActionRun)
    returns (before: State, s': State)
    requires Reaches(start, s) && t in s.pc && s.pc[t].Idle? && s.lifecycle.None?
    requires AlmostHealed(s.st, content, id, op, issue, job, a)
    ensures Reaches(start, before) && Step(before, s', t) && Resolves(before, s', t, issue.id)
  {
    before := Judging(start, s, t, content, id, op, issue, job, a);
    HealedReading(s.st, before.st, content, id, op, issue, job, a);
    before, s' := Reconciled(start, before, t, issue, [job], [op.Run(a, 3).value], Lists());
  }

  lemma WardIsAlmostHealed()
    ensures AlmostHealed(Ward(), Seen(2, Healthy), 1, Healed(), Outage(IVerifying), Pass([Restart()]), Restarted())
  {
    TheRestartShows(Ward().(snapshots := Ward().snapshots[1 := Seen(2, Healthy)]));
  }

  lemma WardIsQuiet(start: State)
    requires start == OneThread(Ward())
    ensures Init(start) && Reaches(start, start) && 0 in start.pc && start.pc[0].Idle? && start.lifecycle.None? && start.st == Ward()
  {
    WardInit();
    ReachesStart(start);
  }

  /** The Snapshot is captured, the restart is judged by it, and reconciliation resolves the Issue. */
  lemma ResolutionHappens() returns (start: State, before: State, s': State)
    ensures Init(start) && Reaches(start, before)
    ensures Step(before, s', 0) && Resolves(before, s', 0, Outage(IVerifying).id)
  {
    start := OneThread(Ward());
    WardIsQuiet(start);
    WardIsAlmostHealed();
    before, s' := Healing(start, start, 0, Seen(2, Healthy), 1, Healed(), Outage(IVerifying), Pass([Restart()]), Restarted());
  }

  // ---------------------------------------------------------------- admitting

  lemma AdmissionAsked(start: State, s: State, t: Tid, job: Job, intent: Proposal, before: Id, key: string) returns (s': State)
    requires Reaches(start, s) && t in s.pc && s.pc[t].Idle? && s.mode.AllowsActions()
    requires s.st.HoldsJob(job) && before in s.st.snapshots
    ensures s' == Goto(s, t, WaitLifecycle(Admit(job, intent, before, key))) && Reaches(start, s')
  {
    var allowed := Begun(start, s, t, OnAction(AdmitAllowed(job.id, intent, key)));
    s' := Goto(allowed, t, WaitLifecycle(Admit(job, intent, before, key)));
    assert StepAction(allowed, s', t, AdmitAllowed(job.id, intent, key));
    assert Step(allowed, s', t);
    ReachesNext(start, allowed, s', t);
    assert s'.pc == s.pc[t := WaitLifecycle(Admit(job, intent, before, key))];
  }

  lemma AdmissionChecked(start: State, s: State, t: Tid, job: Job, intent: Proposal, before: Id, key: string) returns (s': State)
    requires Reaches(start, s) && t in s.pc && s.pc[t] == Locked(Admit(job, intent, before, key)) && s.st.LiveIssue(job.issueId)
    ensures s' == Goto(s, t, OnAction(AdmitLive(job, intent, before, key))) && Reaches(start, s')
  {
    s' := Goto(s, t, OnAction(AdmitLive(job, intent, before, key)));
    assert StepLocked(s, s', t, Admit(job, intent, before, key));
    assert Step(s, s', t);
    ReachesNext(start, s, s', t);
  }

  lemma ProposalStored(start: State, s: State, t: Tid, job: Job, intent: Proposal, before: Id, key: string, id: Id) returns (s': State)
    requires Reaches(start, s) && t in s.pc && s.pc[t] == OnAction(AdmitLive(job, intent, before, key)) && id !in s.st.actions
    ensures var a := FromProposal(id, job.issueId, job.id, intent, before, key, 0);
            s' == Save(s, s.st.PutAction(a), t, OnAction(AdmitInserted(a, job))) && Reaches(start, s')
  {
    var a := FromProposal(id, job.issueId, job.id, intent, before, key, 0);
    s' := Save(s, s.st.PutAction(a), t, OnAction(AdmitInserted(a, job)));
    assert StepAction(s, s', t, AdmitLive(job, intent, before, key));
    assert Step(s, s', t);
    ReachesNext(start, s, s', t);
  }

  lemma AdmissionReleased(start: State, s: State, t: Tid, a: ActionRun, job: Job) returns (s': State)
    requires Reaches(start, s) && t in s.pc && s.pc[t] == OnAction(AdmitInserted(a, job))
    ensures s' == Goto(s, t, OnAction(Admitted(a, job))).(lifecycle := None) && Reaches(start, s')
  {
    s' := Goto(s, t, OnAction(Admitted(a, job))).(lifecycle := None);
    assert StepAction(s, s', t, AdmitInserted(a, job));
    assert Step(s, s', t);
    ReachesNext(start, s, s', t);
  }

  lemma Admitting(start: State, s: State, t: Tid, job: Job, intent: Proposal, before: Id, key: string, id: Id) returns (s': State)
    requires Reaches(start, s) && t in s.pc && s.pc[t].Idle? && s.mode.AllowsActions() && s.lifecycle.None?
    requires s.st.HoldsJob(job) && before in s.st.snapshots && s.st.LiveIssue(job.issueId) && id !in s.st.actions
    ensures var a := FromProposal(id, job.issueId, job.id, intent, before, key, 0);
            s' == Save(s, s.st.PutAction(a), t, OnAction(Admitted(a, job))) && Reaches(start, s')
  {
    s' := AdmissionAsked(start, s, t, job, intent, before, key);
    s' := LockTaken(start, s', t, Admit(job, intent, before, key));
    s' := AdmissionChecked(start, s', t, job, intent, before, key);
    s' := ProposalStored(start, s', t, job, intent, before, key, id);
    var a := FromProposal(id, job.issueId, job.id, intent, before, key, 0);
    s' := AdmissionReleased(start, s', t, a, job);
    assert s'.pc == s.pc[t := OnAction(Admitted(a, job))];
  }

  // A pass proposed the same restart twice. An operator has approved the first one and it is about to
  // start; the runner is turning the second one into an action.

  function FirstRestart(): ActionRun {
    FromProposal(0, 0, 0, Restart(), 0, "key", 0).(status := Ready, approval := Approved, approvedBy := Some("operator"))
  }

  function Twins(): StoreState {
    StoreState(map[0 := Outage(Mitigating)], map[0 := Pass([Restart(), Restart()])], map[0 := FirstRestart()],
               map[0 := Seen(0, Unhealthy), 1 := Seen(1, Unhealthy)], [])
  }

  function TwoThreads(st: StoreState): State { State(st, ModeRunning, None, None, {}, map[0 := Idle, 1 := Idle]) }

  lemma TwinRecords()
    ensures KeyedById(Twins()) && RecordsFine(Twins())
  {
    assert ActionFine(Twins(), FirstRestart());
    assert JobFine(Twins(), Pass([Restart(), Restart()]));
  }

  lemma TwinsInit()
    ensures Init(TwoThreads(Twins()))
  {
    TwinRecords();
    QuietInit(TwoThreads(Twins()), Outage(Mitigating));
  }

  lemma OnlyOneAction(s: State, id: Id)
    requires s.st.actions.Keys == {id}
    ensures ClaimsExclusive(s)
  {
  }

  /** A proposal can be stored while its key is held, and then an approval can overtake its claim. */
  lemma AdmittedAndApproved(start: State, s: State, job: Job, intent: Proposal, before: Id, key: string, id: Id, holder: Id)
    returns (s': State)
    requires Reaches(start, s) && 0 in s.pc && 1 in s.pc && s.pc[0].Idle? && s.pc[1].Idle? && s.mode.AllowsActions() && s.lifecycle.None?
    requires s.st.HoldsJob(job) && before in s.st.snapshots && s.st.LiveIssue(job.issueId) && id !in s.st.actions
    requires HoldsKey(s, holder) && !s.st.actions[holder].status.Proposed? && s.st.actions[holder].key == key
    ensures Reaches(start, s') && !ClaimsExclusive(s')
  {
    var admitted := Admitting(start, s, 0, job, intent, before, key, id);
    assert HoldsKey(admitted, holder);
    s' := ApprovalCanOvertakeTheClaim(start, admitted, 1, admitted.st.actions[id], holder, "operator");
  }

  /** While the second proposal waits for the answer to its claim, its approval makes both ready to start. */
  lemma ApprovingAProposalBypassesTheClaim() returns (s': State)
    ensures Init(TwoThreads(Twins())) && ClaimsExclusive(TwoThreads(Twins()))
    ensures Reaches(TwoThreads(Twins()), s') && !ClaimsExclusive(s')
  {
    var start := TwoThreads(Twins());
    TwinsInit();
    OnlyOneAction(start, 0);
    ReachesStart(start);
    assert HoldsKey(start, 0);
    s' := AdmittedAndApproved(start, start, Pass([Restart(), Restart()]), Restart(), 1, "key", 1, 0);
  }
}
