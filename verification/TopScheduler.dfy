/** The scheduler as the object that owns the mode and drives the store: reconciliation, verification,
    review and recovery (src/scheduler.rs). Nothing else runs while a controller recovers, so these
    methods are sequential; the interleavings are in `Protocol`. The clock is a parameter. */
module TopSchedulers {
  import opened Wrappers
  import opened Policy
  import opened Domain
  import opened Reconciliation
  import opened Store
  import opened StateStores
  import opened Protocol
  import opened ProtocolInvariant
  import opened Recovery
  import opened RecoveryPhases
  import opened ModeLog
  import opened Verification
  import opened Records

  datatype RecoverySummary = RecoverySummary(
    previousMode: SchedulerMode,
    pendingReview: bool,
    interruptedJobs: seq<Id>,
    interruptedActions: seq<Id>,
    verifiedActions: seq<Id>,
    reconstructedReviews: seq<Id>,
    finalMode: SchedulerMode)

  predicate NothingTouched(s: RecoverySummary) {
    s.interruptedJobs == [] && s.interruptedActions == [] && s.verifiedActions == [] && s.reconstructedReviews == []
  }

  predicate InterruptedAny(s: RecoverySummary) { s.interruptedJobs != [] || s.interruptedActions != [] }

  function FinalMode(previous: SchedulerMode): SchedulerMode {
    if previous.ModeFullyFrozen? then ModeFullyFrozen else ModeDispatchFrozen
  }

  /** What the summary says about the log, and what the log says afterwards: the mode a person set last
      is still the one the next start will read. */
  ghost predicate SummaryHolds(log: seq<Event>, after: seq<Event>, s: RecoverySummary) {
    && SetTo(log, s.previousMode) && (s.pendingReview <==> ReviewPending(log))
    && s.finalMode == FinalMode(s.previousMode)
    && after == log + [ModeEvent(ModeRecovering)] + [ModeEvent(s.finalMode)] + [Recovered(InterruptedAny(s))]
    && SetTo(after, s.previousMode)
    && (ReviewPending(after) <==> ReviewPending(log) || InterruptedAny(s))
  }

  /** What the end of recovery reports and logs. */
  predicate Finished(log: seq<Event>, after: seq<Event>, previous: SchedulerMode, pending: bool, s: RecoverySummary) {
    && s.previousMode == previous && s.pendingReview == pending
    && s.finalMode == FinalMode(previous)
    && after == log + [ModeEvent(s.finalMode)] + [Recovered(InterruptedAny(s))]
  }

  lemma SummaryFollows(log: seq<Event>, after: seq<Event>, s: RecoverySummary)
    requires SetTo(log, s.previousMode) && (s.pendingReview <==> ReviewPending(log))
    requires Finished(log + [ModeEvent(ModeRecovering)], after, s.previousMode, s.pendingReview, s)
    ensures SummaryHolds(log, after, s)
  {
    RecoveryKeepsMode(log, s.previousMode, s.finalMode, InterruptedAny(s));
  }

  class TopScheduler {
    const store: StateStore
    const lists: ClassificationLists
    var mode: SchedulerMode

    constructor (store: StateStore, lists: ClassificationLists)
      ensures this.store == store && this.lists == lists && mode.ModeRunning?
    {
      this.store, this.lists, mode := store, lists, ModeRunning;
    }

    method SetMode(next: SchedulerMode)
      modifies this`mode, store
      ensures mode == next
      ensures store.inner == old(store.inner).(events := old(store.inner.events) + [ModeEvent(next)])
      ensures store.past == old(store.past) + [store.inner]
    {
      mode := next;
      var _ := store.AppendEvent(ModeEvent(next));
    }

    // -------------------------------------------------------------- cancelling

    method CancelJobRecord(id: Id) returns (r: Result<()>)
      requires Recoverable(store.inner)
      modifies store
      ensures r == if id in old(store.inner).jobs then Ok(()) else Err(NotFound)
      ensures store.inner == if r.Ok? then old(store.inner).PutJob(StopJob(old(store.inner).jobs[id])) else old(store.inner)
      ensures Recoverable(store.inner) && Sound(old(store.past), store.past)
    {
      var found := store.GetJob(id);
      if found.Err? { return Err(NotFound); }
      var job := found.value;
      if job.status.IsTerminal() { return Ok(()); }
      var next := new JobRecord(job);
      var _ := next.TransitionTo(JCancelled);
      JobWritten(store.inner, job, JobCancel);
      r := store.UpdateJobIf(job, next.Value());
    }

    method CancelActionRecord(id: Id, now: nat) returns (r: Result<()>)
      requires Recoverable(store.inner)
      modifies store
      ensures r == if id in old(store.inner).actions then Ok(()) else Err(NotFound)
      ensures store.inner == if r.Ok? then old(store.inner).PutAction(StopAction(old(store.inner).actions[id], now)) else old(store.inner)
      ensures Recoverable(store.inner) && Sound(old(store.past), store.past)
    {
      var found := store.GetActionRun(id);
      if found.Err? { return Err(NotFound); }
      var action := found.value;
      if !Cancellable(action) { return Ok(()); }
      var next := action.CancelUnstarted(now);
      ActionWritten(store.inner, action, OpCancel, now);
      r := store.UpdateActionRunIf(action, next.value);
    }

    /** One turn of the loop over the listed Jobs. */
    method CancelListedJob(ghost was: StoreState, i: Id, xs: seq<Job>, k: nat, ghost reached: set<Id>, ghost since: Past)
      requires k < |xs| && JobsReached(was, store.inner, i, xs, k, reached)
      requires Recoverable(store.inner) && Sound(since, store.past)
      modifies store
      ensures JobsReached(was, store.inner, i, xs, k + 1, reached + {xs[k].id})
      ensures Recoverable(store.inner) && Sound(since, store.past)
    {
      StopOneMoreJob(was, i, reached, xs[k].id);
      if xs[k].issueId == i {
        var _ := CancelJobRecord(xs[k].id);
        SoundTransitive(since, old(store.past), store.past);
      }
    }

    method CancelIssueJobs(i: Id)
      requires Recoverable(store.inner)
      modifies store
      ensures store.inner == old(store.inner).(jobs := WorkCancelled(old(store.inner), {i}, 0).jobs)
      ensures Recoverable(store.inner) && Sound(old(store.past), store.past)
    {
      var xs := ListOfJobs(store.inner.jobs);
      JobsListed(store.inner, i, xs);
      ghost var was, reached := store.inner, {};
      for k := 0 to |xs|
        invariant JobsReached(was, store.inner, i, xs, k, reached)
        invariant Recoverable(store.inner) && Sound(old(store.past), store.past)
      {
        CancelListedJob(was, i, xs, k, reached, old(store.past));
        reached := reached + {xs[k].id};
      }
      AllJobsReached(was, store.inner, i, xs, reached);
    }

    /** One turn of the loop over the listed Actions. */
    method CancelListedAction(ghost was: StoreState, i: Id, xs: seq<ActionRun>, k: nat, ghost reached: set<Id>, now: nat, ghost since: Past)
      requires k < |xs| && ActionsReached(was, store.inner, i, xs, k, reached, now)
      requires Recoverable(store.inner) && Sound(since, store.past)
      modifies store
      ensures ActionsReached(was, store.inner, i, xs, k + 1, reached + {xs[k].id}, now)
      ensures Recoverable(store.inner) && Sound(since, store.past)
    {
      StopOneMoreAction(was, i, reached, xs[k].id, now);
      if xs[k].issueId == i {
        var _ := CancelActionRecord(xs[k].id, now);
        SoundTransitive(since, old(store.past), store.past);
      }
    }

    method CancelIssueActions(i: Id, now: nat)
      requires Recoverable(store.inner)
      modifies store
      ensures store.inner == old(store.inner).(actions := WorkCancelled(old(store.inner), {i}, now).actions)
      ensures Recoverable(store.inner) && Sound(old(store.past), store.past)
    {
      var xs := ListOfActions(store.inner.actions);
      ActionsListed(store.inner, i, xs, now);
      ghost var was, reached := store.inner, {};
      for k := 0 to |xs|
        invariant ActionsReached(was, store.inner, i, xs, k, reached, now)
        invariant Recoverable(store.inner) && Sound(old(store.past), store.past)
      {
        CancelListedAction(was, i, xs, k, reached, now, old(store.past));
        reached := reached + {xs[k].id};
      }
      AllActionsReached(was, store.inner, i, xs, reached, now);
    }

    /** Every Job and every action of the Issue that has not started is stopped, and nothing else. */
    method CancelIssueWork(i: Id, now: nat)
      requires Recoverable(store.inner)
      modifies store
      ensures store.inner == WorkCancelled(old(store.inner), {i}, now)
      ensures Recoverable(store.inner) && Sound(old(store.past), store.past)
    {
      CancelIssueJobs(i);
      ghost var past := store.past;
      CancelIssueActions(i, now);
      SoundTransitive(old(store.past), past, store.past);
    }

    // -------------------------------------------------------------- reconciling and reviewing

    method ReconcileIssue(i: Id, now: nat) returns (r: Result<()>)
      requires Recoverable(store.inner)
      modifies store
      ensures r == if i in old(store.inner).issues then Ok(()) else Err(NotFound)
      ensures store.inner == if r.Ok? then Reconciled(old(store.inner), i, lists, now) else old(store.inner)
      ensures Recoverable(store.inner) && Sound(old(store.past), store.past)
    {
      var found := store.GetIssue(i);
      if found.Err? { return Err(NotFound); }
      var issue := found.value;
      if issue.archived { return Ok(()); }
      if issue.status.IsTerminal() {
        CancelIssueWork(i, now);
        return Ok(());
      }
      var derived := DeriveStatus(i);
      if derived.None? || derived.value == issue.status || !issue.status.CanBecome(derived.value) { return Ok(()); }
      MoveIssue(issue, derived.value);
      if derived.value.IsTerminal() {
        ghost var past := store.past;
        CancelIssueWork(i, now);
        SoundTransitive(old(store.past), past, store.past);
      }
      return Ok(());
    }

    /** The two listings and the pure derivation; their order does not matter. */
    method DeriveStatus(i: Id) returns (derived: Option<IssueStatus>)
      requires KeyedById(store.inner)
      ensures derived == Derived(store.inner, i, lists)
    {
      var st := store.inner;
      var jobs := ListOfJobs(JobsIn(st.jobs, i));
      var actions := ListOfActions(ActionsIn(st.actions, i));
      DeriveIgnoresOrder(JobsIn(st.jobs, i), ActionsIn(st.actions, i), jobs, JobList(JobsIn(st.jobs, i)),
                         actions, ActionList(ActionsIn(st.actions, i)), lists);
      derived := DeriveIssueStatus(jobs, actions, lists);
    }

    method MoveIssue(issue: Issue, status: IssueStatus)
      requires Recoverable(store.inner) && store.inner.HoldsIssue(issue) && issue.status.CanBecome(status)
      modifies store
      ensures store.inner == old(store.inner).PutIssue(issue.(status := status))
      ensures Recoverable(store.inner) && Sound(old(store.past), store.past)
    {
      var next := issue.TransitionTo(status);
      IssueWritten(store.inner, issue, status);
      var _ := store.UpdateIssueIf(issue, next.value);
    }

    /** The action was written and its Issue reconciled. */
    ghost predicate ActionRewritten(was: StoreState, next: ActionRun, now: nat, st: StoreState) {
      var written := was.PutAction(next);
      KeyedById(written) && next.issueId in written.issues && st == Reconciled(written, next.issueId, lists, now)
    }

    ghost predicate JobRewritten(was: StoreState, next: Job, now: nat, st: StoreState) {
      var written := was.PutJob(next);
      KeyedById(written) && next.issueId in written.issues && st == Reconciled(written, next.issueId, lists, now)
    }

    /** The tail every action rewrite has: compare-and-set, then reconcile the Issue. */
    method WriteAndReconcile(action: ActionRun, next: ActionRun, now: nat, ghost op: ActionOp)
      requires Recoverable(store.inner) && store.inner.Holds(action) && op.Run(action, now) == Ok(next)
      requires !op.OpStart? && !op.OpApply? && VerdictKnown(store.inner, action, op)
      modifies store
      ensures ActionRewritten(old(store.inner), next, now, store.inner)
      ensures Recoverable(store.inner) && Sound(old(store.past), store.past)
    {
      ActionWritten(store.inner, action, op, now);
      RewriteEvolves(action, op, now);
      var _ := store.UpdateActionRunIf(action, next);
      ghost var mid := store.past;
      var _ := ReconcileIssue(next.issueId, now);
      SoundTransitive(old(store.past), mid, store.past);
    }

    method WriteJobAndReconcile(job: Job, next: Job, now: nat, ghost op: JobOp)
      requires Recoverable(store.inner) && store.inner.HoldsJob(job) && op.Run(job) == Ok(next)
      requires op.JobComplete? ==> !op.result.outcome.Solved?
      modifies store
      ensures JobRewritten(old(store.inner), next, now, store.inner)
      ensures Recoverable(store.inner) && Sound(old(store.past), store.past)
    {
      JobWritten(store.inner, job, op);
      JobRewriteEvolves(job, op);
      var _ := store.UpdateJobIf(job, next);
      ghost var mid := store.past;
      var _ := ReconcileIssue(next.issueId, now);
      SoundTransitive(old(store.past), mid, store.past);
    }

    /** Takes a denied, failed or blocked action out of the inbox, exactly when it is in it. */
    method ReviewAction(id: Id, given: HumanReview, now: nat) returns (r: Result<()>)
      requires Recoverable(store.inner)
      modifies store
      ensures var was := old(store.inner);
              r == if id !in was.actions then Err(NotFound)
                   else if was.actions[id].issueId !in was.issues then Err(NotFound)
                   else if was.issues[was.actions[id].issueId].archived then Err(Archived)
                   else if !was.actions[id].NeedsReview() then Err(InvalidInput) else Ok(())
      ensures r.Err? ==> store.inner == old(store.inner)
      ensures r.Ok? ==> old(store.inner).actions[id].RecordReview(given, now).Ok?
                        && ActionRewritten(old(store.inner), old(store.inner).actions[id].RecordReview(given, now).value, now, store.inner)
      ensures Recoverable(store.inner) && Sound(old(store.past), store.past)
    {
      var found := store.GetActionRun(id);
      if found.Err? { return Err(NotFound); }
      var action := found.value;
      var issue := store.GetIssue(action.issueId);
      if issue.Err? { return Err(NotFound); }
      if issue.value.archived { return Err(Archived); }
      var next := new ActionRecord(action);
      var error := next.RecordReview(given, now);
      if error.Some? { return Err(InvalidInput); }
      WriteAndReconcile(action, next.Value(), now, OpReview(given));
      return Ok(());
    }

    method ReviewJob(id: Id, given: HumanReview, now: nat) returns (r: Result<()>)
      requires Recoverable(store.inner)
      modifies store
      ensures var was := old(store.inner);
              r == if id !in was.jobs then Err(NotFound)
                   else if was.jobs[id].issueId !in was.issues then Err(NotFound)
                   else if was.issues[was.jobs[id].issueId].archived then Err(Archived)
                   else if !was.jobs[id].NeedsReview() then Err(InvalidInput) else Ok(())
      ensures r.Err? ==> store.inner == old(store.inner)
      ensures r.Ok? ==> old(store.inner).jobs[id].RecordReview(given).Ok?
                        && JobRewritten(old(store.inner), old(store.inner).jobs[id].RecordReview(given).value, now, store.inner)
      ensures Recoverable(store.inner) && Sound(old(store.past), store.past)
    {
      var found := store.GetJob(id);
      if found.Err? { return Err(NotFound); }
      var job := found.value;
      var issue := store.GetIssue(job.issueId);
      if issue.Err? { return Err(NotFound); }
      if issue.value.archived { return Err(Archived); }
      var next := new JobRecord(job);
      var error := next.RecordReview(given);
      if error.Some? { return Err(InvalidInput); }
      WriteJobAndReconcile(job, next.Value(), now, JobReview(given));
      return Ok(());
    }

    /** Once every closed Issue is cleared, such a rewrite touches the one record and no other. */
    lemma ActionRewritePhase(was: StoreState, past: Past, st: StoreState, a: ActionRun, op: ActionOp, now: nat,
                             st': StoreState, past': Past)
      requires Phase(was, past, st, past) && st.Holds(a) && st.Ours(a.issueId)
      requires op.Run(a, now).Ok? && Settling(op) && !Queued(a) && VerdictKnown(st, a, op)
      requires ActionRewritten(st, op.Run(a, now).value, now, st') && Sound(past, past')
      ensures Phase(was, past, st', past')
      ensures st'.jobs == st.jobs && st'.actions == st.actions[a.id := op.Run(a, now).value]
    {
      var written := st.PutAction(op.Run(a, now).value);
      SettlingMayWrite(was, past, st, past, a, op, now);
      RewriteEvolves(a, op, now);
      ReconciledPhase(written, a.issueId, now, st');
      ProgressTransitive(was, written, st');
    }

    lemma ReviewPhase(st: StoreState, past: Past, a: ActionRun, given: HumanReview, now: nat, st': StoreState, past': Past)
      requires Recoverable(st) && AllCleared(st) && st.Holds(a) && st.Ours(a.issueId) && a.NeedsReview()
      requires a.RecordReview(given, now).Ok? && ActionRewritten(st, a.RecordReview(given, now).value, now, st') && Sound(past, past')
      ensures Phase(st, past, st', past')
      ensures st'.jobs == st.jobs && st'.actions == st.actions[a.id := a.RecordReview(given, now).value]
    {
      OursIsConsistent(st, a);
      PhaseNothing(st, past);
      ActionRewritePhase(st, past, st, a, OpReview(given), now, st', past');
    }

    lemma JobRewritePhase(st: StoreState, past: Past, job: Job, op: JobOp, now: nat, st': StoreState, past': Past)
      requires Recoverable(st) && AllCleared(st) && st.HoldsJob(job) && st.Ours(job.issueId)
      requires op.Run(job).Ok? && (op.JobComplete? ==> op.result.outcome.OutcomeFailed?)
      requires JobRewritten(st, op.Run(job).value, now, st') && Sound(past, past')
      ensures Phase(st, past, st', past')
      ensures st'.actions == st.actions && st'.jobs == st.jobs[job.id := op.Run(job).value]
    {
      var written := st.PutJob(op.Run(job).value);
      PhaseJob(st, past, job, op);
      JobRewriteEvolves(job, op);
      ReconciledPhase(written, job.issueId, now, st');
      ProgressTransitive(st, written, st');
    }

    lemma ReconciledPhase(st: StoreState, i: Id, now: nat, st': StoreState)
      requires Recoverable(st) && AllCleared(st) && i in st.issues && st' == Reconciled(st, i, lists, now)
      ensures Recoverable(st') && AllCleared(st') && Progress(st, st') && st' == st.(issues := st'.issues)
    {
      ReconcileKeeps(st, i, lists, now);
      ReconcileProgress(st, i, lists, now);
      ReconcileTouchesOnlyTheStatus(st, i, lists, now);
    }

    // -------------------------------------------------------------- verifying

    /** The Collector may answer anything, or fail. */
    method RequestSnapshot() returns (r: Result<Id>)
      requires Recoverable(store.inner)
      modifies store
      ensures r.Err? ==> store.inner == old(store.inner)
      ensures r.Ok? ==> r.value !in old(store.inner).snapshots && r.value in store.inner.snapshots
                        && store.inner == old(store.inner).(snapshots := old(store.inner).snapshots[r.value := store.inner.snapshots[r.value]])
      ensures Recoverable(store.inner) && Sound(old(store.past), store.past)
    {
      var id: Id, content: Snapshot, answered: bool := *, *, *;
      if !answered { return Err(External); }
      if id !in store.inner.snapshots { SnapshotWritten(store.inner, id, content); }
      var stored := store.InsertSnapshot(id, content);
      if stored.Err? { return Err(Duplicate); }
      return Ok(id);
    }

    /** One more Snapshot, or none. */
    predicate Captured(was: StoreState, st: StoreState) {
      || st == was
      || exists id :: id in st.snapshots && id !in was.snapshots
                      && st == was.(snapshots := was.snapshots[id := st.snapshots[id]])
    }

    /** The action was rewritten as a verification with that conclusion writes it, and its Issue reconciled. */
    ghost predicate Concluded(was: StoreState, judged: StoreState, st: StoreState, id: Id, now: nat, after: Option<Id>, v: Verdict)
      requires id in was.actions
    {
      var next := was.actions[id].RecordVerification(after, v.passed, v.evidence, now);
      && Captured(was, judged) && Judged(judged, was.actions[id], lists, after, v)
      && next.Ok? && ActionRewritten(judged, next.value, now, st)
    }

    method VerifyAction(id: Id, now: nat) returns (r: Result<()>)
      requires Recoverable(store.inner)
      modifies store
      ensures r == if id !in old(store.inner).actions then Err(NotFound)
                   else if !old(store.inner).actions[id].status.Verifying? then Err(InvalidTransition) else Ok(())
      ensures r.Err? ==> Captured(old(store.inner), store.inner)
      ensures r.Ok? ==> exists judged, after, v: Verdict :: Concluded(old(store.inner), judged, store.inner, id, now, after, v)
      ensures Recoverable(store.inner) && Sound(old(store.past), store.past)
    {
      var found := store.GetActionRun(id);
      if found.Err? { return Err(NotFound); }
      var after, v := CaptureAndJudge(found.value);
      ghost var judged, mid := store.inner, store.past;
      r := RecordVerificationResult(found.value, after, v, now);
      SoundTransitive(old(store.past), mid, store.past);
      if r.Ok? { assert Concluded(old(store.inner), judged, store.inner, id, now, after, v); }
    }

    method CaptureAndJudge(action: ActionRun) returns (after: Option<Id>, v: Verdict)
      requires Recoverable(store.inner)
      modifies store
      ensures Captured(old(store.inner), store.inner) && Judged(store.inner, action, lists, after, v)
      ensures Recoverable(store.inner) && Sound(old(store.past), store.past)
    {
      var captured := RequestSnapshot();
      if captured.Err? { return None, Verdict(false, None); }
      var st := store.inner;
      var before := if action.beforeSnapshot in st.snapshots then Some(st.snapshots[action.beforeSnapshot]) else None;
      after := Some(captured.value);
      v := Judge(action, lists, st.snapshots[captured.value], before);
    }

    method RecordVerificationResult(action: ActionRun, after: Option<Id>, v: Verdict, now: nat) returns (r: Result<()>)
      requires Recoverable(store.inner) && store.inner.Holds(action) && Judged(store.inner, action, lists, after, v)
      modifies store
      ensures r == if action.status.Verifying? then Ok(()) else Err(InvalidTransition)
      ensures r.Err? ==> store.inner == old(store.inner)
      ensures r.Ok? ==> action.RecordVerification(after, v.passed, v.evidence, now).Ok?
                        && ActionRewritten(old(store.inner), action.RecordVerification(after, v.passed, v.evidence, now).value, now, store.inner)
      ensures Recoverable(store.inner) && Sound(old(store.past), store.past)
    {
      var next := new ActionRecord(action);
      var error := next.RecordVerification(after, v.passed, v.evidence, now);
      if error.Some? { return Err(InvalidTransition); }
      assert OpVerify(after, v.passed, v.evidence).Run(action, now) == Ok(next.Value());
      WriteAndReconcile(action, next.Value(), now, OpVerify(after, v.passed, v.evidence));
      return Ok(());
    }

    lemma ConcludedPhase(was: StoreState, past: Past, judged: StoreState, st: StoreState, past': Past,
                         id: Id, now: nat, after: Option<Id>, v: Verdict)
      requires Recoverable(was) && AllCleared(was) && id in was.actions && was.Ours(was.actions[id].issueId)
      requires Concluded(was, judged, st, id, now, after, v) && Sound(past, past')
      ensures Phase(was, past, st, past')
      ensures st.jobs == was.jobs && RewrittenForGood(was, st, id)
    {
      CapturedPhase(was, past, judged);
      VerifiedPhase(was, past, judged, was.actions[id], after, v, now, st, past');
    }

    /** The one action and nothing else, and it is finished. */
    ghost predicate RewrittenForGood(was: StoreState, st: StoreState, id: Id) {
      id in st.actions && st.actions == was.actions[id := st.actions[id]] && st.actions[id].status.IsTerminal()
    }

    lemma VerifiedPhase(was: StoreState, past: Past, judged: StoreState, a: ActionRun, after: Option<Id>, v: Verdict, now: nat,
                        st: StoreState, past': Past)
      requires Phase(was, past, judged, past) && judged.Holds(a) && judged.Ours(a.issueId) && Judged(judged, a, lists, after, v)
      requires a.RecordVerification(after, v.passed, v.evidence, now).Ok?
      requires ActionRewritten(judged, a.RecordVerification(after, v.passed, v.evidence, now).value, now, st) && Sound(past, past')
      ensures Phase(was, past, st, past')
      ensures st.jobs == judged.jobs && RewrittenForGood(judged, st, a.id)
    {
      VerificationEnds(a, after, v.passed, v.evidence, now);
      var op := OpVerify(after, v.passed, v.evidence);
      assert VerdictKnown(judged, a, op);
      ActionRewritePhase(was, past, judged, a, op, now, st, past');
    }

    lemma CapturedPhase(was: StoreState, past: Past, st: StoreState)
      requires Recoverable(was) && AllCleared(was) && Captured(was, st)
      ensures Phase(was, past, st, past) && st.actions == was.actions && st.jobs == was.jobs && st.issues == was.issues
    {
      if st == was {
        PhaseNothing(was, past);
      } else {
        var id :| id in st.snapshots && id !in was.snapshots && st == was.(snapshots := was.snapshots[id := st.snapshots[id]]);
        SnapshotWritten(was, id, st.snapshots[id]);
        ClearedAfterSnapshot(was, id, st.snapshots[id]);
      }
    }

    // -------------------------------------------------------------- recovering

    /** A crash may have fallen between closing an Issue and cancelling its work. */
    method ClearClosedIssues(now: nat)
      requires Recoverable(store.inner)
      modifies store
      ensures Phase(old(store.inner), old(store.past), store.inner, store.past)
      ensures store.inner.issues == old(store.inner).issues
      ensures AllCleared(old(store.inner)) ==> store.inner == old(store.inner)
    {
      var xs := ListOfIssues(store.inner.issues);
      ghost var was := store.inner;
      ClearingBegins(was, xs);
      for k := 0 to |xs|
        invariant ClearedUpTo(was, store.inner, xs, k) && Sound(old(store.past), store.past)
      {
        ClearingTurn(was, store.inner, xs, k, now);
        if xs[k].status.IsTerminal() && !xs[k].archived {
          ghost var past := store.past;
          CancelIssueWork(xs[k].id, now);
          SoundTransitive(old(store.past), past, store.past);
        }
      }
      ClearingEnds(was, store.inner, xs);
    }

    method FailIfInterrupted(job: Job) returns (r: Result<bool>)
      requires Recoverable(store.inner) && AllCleared(store.inner)
      requires store.inner.HoldsJob(job) && store.inner.Ours(job.issueId)
      modifies store
      ensures r == Ok(InterruptedJob(job))
      ensures InterruptedJob(job) ==> job.Complete(INTERRUPTED_JOB).Ok?
      ensures store.inner == if InterruptedJob(job) then old(store.inner).PutJob(job.Complete(INTERRUPTED_JOB).value) else old(store.inner)
      ensures Phase(old(store.inner), old(store.past), store.inner, store.past)
    {
      PhaseNothing(store.inner, store.past);
      if !InterruptedJob(job) { return Ok(false); }
      var next := new JobRecord(job);
      var error := next.Complete(INTERRUPTED_JOB);
      InterruptedJobLegal(store.inner, store.past, job);
      if error.Some? { return Err(InvalidTransition); }
      var written := store.UpdateJobIf(job, next.Value());
      if written.Err? { return Err(Conflict); }
      return Ok(true);
    }

    /** The Team of a running Job is gone, so the Job is failed into the inbox. */
    method FailInterruptedJobs(xs: seq<Job>) returns (r: Result<seq<Id>>)
      requires Recoverable(store.inner) && AllCleared(store.inner) && JobsAwait(store.inner, xs, 0)
      modifies store
      ensures r.Ok? && NoInterruptedJobs(store.inner)
      ensures store.inner.actions == old(store.inner).actions && store.inner.issues == old(store.inner).issues
      ensures Phase(old(store.inner), old(store.past), store.inner, store.past)
      ensures NoInterruptedJobs(old(store.inner)) ==> store.inner == old(store.inner) && r.value == []
    {
      ghost var was, past := store.inner, store.past;
      PhaseNothing(was, past);
      var failed: seq<Id> := [];
      for k := 0 to |xs|
        invariant Recoverable(store.inner) && AllCleared(store.inner) && JobsAwait(store.inner, xs, k)
        invariant store.inner.actions == was.actions && store.inner.issues == was.issues
        invariant Phase(was, past, store.inner, store.past)
        invariant NoInterruptedJobs(was) ==> store.inner == was && failed == []
      {
        ghost var mid, midPast := store.inner, store.past;
        var turned := FailIfInterrupted(xs[k]);
        if turned.value { failed := failed + [xs[k].id]; }
        JobTurned(mid, xs, k, store.inner);
        PhaseTransitive(was, past, mid, midPast, store.inner, store.past);
      }
      return Ok(failed);
    }

    method InterruptAction(action: ActionRun, capture: bool, now: nat) returns (r: Result<()>)
      requires Recoverable(store.inner) && AllCleared(store.inner)
      requires store.inner.Holds(action) && store.inner.Ours(action.issueId) && InterruptedAction(action)
      modifies store
      ensures r.Ok? && action.id in store.inner.actions && store.inner.actions[action.id].status.IsTerminal()
      ensures store.inner.jobs == old(store.inner).jobs
      ensures store.inner.actions == old(store.inner).actions[action.id := store.inner.actions[action.id]]
      ensures Phase(old(store.inner), old(store.past), store.inner, store.past)
    {
      if action.status.Verifying? && capture {
        r := VerifyAction(action.id, now);
        ghost var judged, after, v: Verdict :| Concluded(old(store.inner), judged, store.inner, action.id, now, after, v);
        ConcludedPhase(old(store.inner), old(store.past), judged, store.inner, store.past, action.id, now, after, v);
      } else {
        var next := InterruptionOf(action, now);
        InterruptionMayWrite(store.inner, store.past, action, now);
        if next.Err? { return Err(InvalidTransition); }
        r := store.UpdateActionRunIf(action, next.value);
      }
    }

    method InterruptionOf(action: ActionRun, now: nat) returns (next: Result<ActionRun>)
      requires InterruptedAction(action)
      ensures next == Interruption(action).Run(action, now)
    {
      var record := new ActionRecord(action);
      var error;
      if action.status.Proposed? {
        error := record.Deny(INTERRUPTED_PROPOSAL, now);
      } else if action.status.Running? {
        error := record.RecordExecutionResult(INTERRUPTED_RUN, now);
      } else {
        error := record.RecordVerification(None, false, None, now);
      }
      if error.Some? { return Err(InvalidTransition); }
      return Ok(record.Value());
    }

    method InterruptListed(ghost was: StoreState, ghost past: Past, xs: seq<ActionRun>, k: nat, capture: bool, now: nat)
      returns (r: Result<bool>)
      requires Phase(was, past, store.inner, store.past) && k < |xs| && ActionsAwait(store.inner, xs, k)
      modifies store
      ensures r == Ok(InterruptedAction(xs[k]))
      ensures Phase(was, past, store.inner, store.past) && ActionsAwait(store.inner, xs, k + 1)
      ensures store.inner.jobs == old(store.inner).jobs
      ensures !InterruptedAction(xs[k]) ==> store.inner == old(store.inner)
      ensures NoInterruptedActions(old(store.inner)) ==> !InterruptedAction(xs[k])
    {
      if !InterruptedAction(xs[k]) { return Ok(false); }
      var turned := InterruptAction(xs[k], capture, now);
      ActionTurned(old(store.inner), xs, k, store.inner);
      PhaseTransitive(was, past, old(store.inner), old(store.past), store.inner, store.past);
      if turned.Err? { return Err(Conflict); }
      return Ok(true);
    }

    /** Whatever was running has an unknown outcome, whatever was never judged is refused, and what
        awaited verification is verified now or failed as unverified. The durable queue is left alone. */
    method InterruptActions(xs: seq<ActionRun>, capture: bool, now: nat) returns (r: Result<seq<Id>>, verified: seq<Id>)
      requires Recoverable(store.inner) && AllCleared(store.inner) && ActionsAwait(store.inner, xs, 0)
      modifies store
      ensures r.Ok? && NoInterruptedActions(store.inner) && store.inner.jobs == old(store.inner).jobs
      ensures Phase(old(store.inner), old(store.past), store.inner, store.past)
      ensures NoInterruptedActions(old(store.inner)) ==> store.inner == old(store.inner) && r.value == [] && verified == []
    {
      ghost var was, past := store.inner, store.past;
      PhaseNothing(was, past);
      var interrupted: seq<Id> := [];
      verified := [];
      for k := 0 to |xs|
        invariant Phase(was, past, store.inner, store.past) && ActionsAwait(store.inner, xs, k)
        invariant store.inner.jobs == was.jobs
        invariant NoInterruptedActions(was) ==> store.inner == was && interrupted == [] && verified == []
      {
        var turned := InterruptListed(was, past, xs, k, capture, now);
        if turned.Err? { return Err(Conflict), verified; }
        if turned.value {
          if xs[k].status.Verifying? && capture { verified := verified + [xs[k].id]; }
          else { interrupted := interrupted + [xs[k].id]; }
        }
      }
      return Ok(interrupted), verified;
    }

    /** A revising Job proves that a person sent an item upstream; the review the crash lost is written
        from the Job's own record. */
    method ReconstructReview(job: Job, now: nat) returns (r: Result<bool>)
      requires Recoverable(store.inner) && AllCleared(store.inner)
      requires NoInterruptedJobs(store.inner) && NoInterruptedActions(store.inner)
      modifies store
      ensures r.Ok? <==> Reviewable(old(store.inner), job)
      ensures r.Ok? ==> ReviewTurn(old(store.inner), store.inner, job, r.value)
      ensures Phase(old(store.inner), old(store.past), store.inner, store.past)
    {
      PhaseNothing(store.inner, store.past);
      if job.brief.revises.None? || job.brief.feedback == [] { return Ok(false); }
      var feedback := job.brief.feedback[|job.brief.feedback| - 1];
      var given := HumanReview(feedback.reviewer, SentUpstream(job.id), feedback.comment);
      match feedback.origin
      case IssueComment(_) => return Ok(false);
      case DeniedAction(id) => r := RestoreActionReview(id, given, now, feedback.origin);
      case BlockedAction(id) => r := RestoreActionReview(id, given, now, feedback.origin);
      case FailedAction(id) => r := RestoreActionReview(id, given, now, feedback.origin);
      case FailedJob(id) => r := RestoreJobReview(id, given, now, feedback.origin);
      case StalledJob(id) => r := RestoreJobReview(id, given, now, feedback.origin);
    }

    method RestoreActionReview(id: Id, given: HumanReview, now: nat, ghost o: FeedbackOrigin) returns (r: Result<bool>)
      requires Recoverable(store.inner) && AllCleared(store.inner)
      requires NoInterruptedJobs(store.inner) && NoInterruptedActions(store.inner)
      requires OriginAction(o) == Some(id) && OriginJob(o).None?
      modifies store
      ensures r.Ok? <==> ItemReviewable(old(store.inner), o)
      ensures r.Ok? ==> RestoredItem(old(store.inner), store.inner, o, r.value)
      ensures Phase(old(store.inner), old(store.past), store.inner, store.past)
    {
      PhaseNothing(store.inner, store.past);
      var found := store.GetActionRun(id);
      if found.Err? { return Err(NotFound); }
      if !found.value.NeedsReview() { return Ok(false); }
      var reviewed := ReviewAction(id, given, now);
      if reviewed.Err? { return Err(reviewed.error); }
      ReviewPhase(old(store.inner), old(store.past), found.value, given, now, store.inner, store.past);
      ActionReviewSettled(old(store.inner), store.inner, id, given, now);
      SettledJobsLast(old(store.inner), store.inner);
      forall x ensures ReviewLost(store.inner, x) ==> ReviewLost(old(store.inner), x) && OriginAction(x) != Some(id) {
        ActionReviewOnlyRemoves(old(store.inner), store.inner, id, given, now, x);
      }
      return Ok(true);
    }

    method RestoreJobReview(id: Id, given: HumanReview, now: nat, ghost o: FeedbackOrigin) returns (r: Result<bool>)
      requires Recoverable(store.inner) && AllCleared(store.inner)
      requires NoInterruptedJobs(store.inner) && NoInterruptedActions(store.inner)
      requires OriginJob(o) == Some(id) && OriginAction(o).None?
      modifies store
      ensures r.Ok? <==> ItemReviewable(old(store.inner), o)
      ensures r.Ok? ==> RestoredItem(old(store.inner), store.inner, o, r.value)
      ensures Phase(old(store.inner), old(store.past), store.inner, store.past)
    {
      PhaseNothing(store.inner, store.past);
      var found := store.GetJob(id);
      if found.Err? { return Err(NotFound); }
      if !found.value.NeedsReview() { return Ok(false); }
      var reviewed := ReviewJob(id, given, now);
      if reviewed.Err? { return Err(reviewed.error); }
      JobRewritePhase(old(store.inner), old(store.past), found.value, JobReview(given), now, store.inner, store.past);
      JobReviewSettled(old(store.inner), store.inner, id, given);
      SettledActionsLast(old(store.inner), store.inner);
      forall x ensures ReviewLost(store.inner, x) ==> ReviewLost(old(store.inner), x) && OriginJob(x) != Some(id) {
        JobReviewOnlyRemoves(old(store.inner), store.inner, id, given, x);
      }
      return Ok(true);
    }

    method ReconstructReviews(now: nat) returns (r: Result<seq<Id>>)
      requires Recoverable(store.inner) && AllCleared(store.inner)
      requires NoInterruptedJobs(store.inner) && NoInterruptedActions(store.inner)
      modifies store
      ensures r.Ok? <==> AllReviewable(old(store.inner))
      ensures r.Ok? ==> NoInterruptedJobs(store.inner) && NoInterruptedActions(store.inner) && NoReviewLost(store.inner)
      ensures r.Ok? && NoReviewLost(old(store.inner)) ==> store.inner == old(store.inner) && r.value == []
      ensures Phase(old(store.inner), old(store.past), store.inner, store.past)
    {
      ghost var was, past := store.inner, store.past;
      PhaseNothing(was, past);
      var xs := ListOfJobs(store.inner.jobs);
      var restored: seq<Id> := [];
      for k := 0 to |xs|
        invariant Phase(was, past, store.inner, store.past)
        invariant ReviewedUpTo(was, store.inner, xs, k)
        invariant NoReviewLost(was) ==> restored == []
      {
        ghost var mid, midPast := store.inner, store.past;
        ReviewableListed(was, mid, xs[k]);
        assert was.jobs[xs[k].id] == xs[k];
        var turned := ReconstructReview(xs[k], now);
        PhaseTransitive(was, past, mid, midPast, store.inner, store.past);
        if turned.Err? { return Err(turned.error); }
        ReviewTurned(was, mid, store.inner, xs, k, turned.value);
        if turned.value { restored := restored + [xs[k].id]; }
      }
      ReviewsDone(was, store.inner, xs);
      return Ok(restored);
    }

    method ReconcileAll(ids: seq<Id>, now: nat)
      requires Recoverable(store.inner) && AllCleared(store.inner)
      requires forall n :: 0 <= n < |ids| ==> ids[n] in store.inner.issues
      requires forall i :: store.inner.LiveIssue(i) ==> i in ids
      modifies store
      ensures store.inner.jobs == old(store.inner).jobs && store.inner.actions == old(store.inner).actions
      ensures Phase(old(store.inner), old(store.past), store.inner, store.past)
      ensures AllSteady(store.inner, lists)
      ensures AllSteady(old(store.inner), lists) ==> store.inner == old(store.inner)
    {
      ghost var was, past := store.inner, store.past;
      PhaseNothing(was, past);
      for k := 0 to |ids|
        invariant SteadyUpTo(was, store.inner, ids, k, lists)
        invariant Phase(was, past, store.inner, store.past)
      {
        ghost var mid, midPast := store.inner, store.past;
        SteadyTurn(was, mid, ids, k, lists, now);
        var _ := ReconcileIssue(ids[k], now);
        PhaseReconcile(mid, midPast, ids[k], lists, now, store.past);
        PhaseTransitive(was, past, mid, midPast, store.inner, store.past);
      }
      AllWereSteadied(was, store.inner, ids, lists);
    }

    /** The unfinished records that belong to this controller; imported archives are history. */
    method LiveUnfinished() returns (issues: seq<Id>, jobs: seq<Job>, actions: seq<ActionRun>)
      requires Recoverable(store.inner)
      ensures forall n :: 0 <= n < |issues| ==> issues[n] in store.inner.issues
      ensures forall i :: store.inner.LiveIssue(i) <==> i in issues
      ensures JobsAwait(store.inner, jobs, 0) && ActionsAwait(store.inner, actions, 0)
    {
      issues := LiveIssues(store.inner);
      assert forall n :: 0 <= n < |issues| ==> issues[n] in issues;
      jobs := UnfinishedJobs(store.inner);
      actions := UnfinishedActions(store.inner);
    }

    /** Jobs first, then actions; both lists were read before either was touched. */
    method SettleInterrupted(ghost was: StoreState, ghost past: Past, jobs: seq<Job>, actions: seq<ActionRun>, capture: bool, now: nat)
      returns (r: Result<RecoverySummary>)
      requires Phase(was, past, store.inner, store.past)
      requires JobsAwait(store.inner, jobs, 0) && ActionsAwait(store.inner, actions, 0)
      modifies store
      ensures r.Ok? && r.value.reconstructedReviews == []
      ensures Phase(was, past, store.inner, store.past)
      ensures NoInterruptedJobs(store.inner) && NoInterruptedActions(store.inner)
      ensures NoInterruptedJobs(old(store.inner)) && NoInterruptedActions(old(store.inner)) ==>
                store.inner == old(store.inner)
                && r.value.interruptedJobs == [] && r.value.interruptedActions == [] && r.value.verifiedActions == []
    {
      ghost var a, pa := store.inner, store.past;
      var failed := FailInterruptedJobs(jobs);
      ghost var b, pb := store.inner, store.past;
      if failed.Err? { return Err(InvalidTransition); }
      ActionsStillAwait(a, b, actions);
      PhaseTransitive(was, past, a, pa, b, pb);
      var interrupted, verified := InterruptActions(actions, capture, now);
      if interrupted.Err? { return Err(InvalidTransition); }
      SettledJobsLast(b, store.inner);
      PhaseTransitive(was, past, b, pb, store.inner, store.past);
      return Ok(RecoverySummary(ModeRunning, false, failed.value, interrupted.value, verified, [], ModeDispatchFrozen));
    }

    /** Everything recovery does to the records, between its first and its last log entry. */
    method RecoverRecords(capture: bool, now: nat) returns (r: Result<RecoverySummary>)
      requires Recoverable(store.inner)
      modifies store
      ensures r.Ok? <==> AllReviewable(old(store.inner))
      ensures Phase(old(store.inner), old(store.past), store.inner, store.past)
      ensures r.Ok? ==> Quiescent(store.inner, lists)
      ensures r.Ok? && Quiescent(old(store.inner), lists) ==> store.inner == old(store.inner) && NothingTouched(r.value)
    {
      ghost var was, past := store.inner, store.past;
      ClearClosedIssues(now);
      var issues, jobs, actions := LiveUnfinished();
      assert forall i :: was.LiveIssue(i) <==> store.inner.LiveIssue(i);
      var settled := SettleInterrupted(was, past, jobs, actions, capture, now);
      ghost var mid, midPast := store.inner, store.past;
      if settled.Err? { return settled; }
      AllReviewableLasts(was, mid);
      var reviews := ReconstructReviews(now);
      PhaseTransitive(was, past, mid, midPast, store.inner, store.past);
      if reviews.Err? { return Err(reviews.error); }
      ReconcileLive(was, past, issues, now);
      r := Ok(settled.value.(reconstructedReviews := reviews.value));
    }

    /** The Issues that were unfinished when recovery began are the only ones that can be live now. */
    method ReconcileLive(ghost was: StoreState, ghost past: Past, ids: seq<Id>, now: nat)
      requires Phase(was, past, store.inner, store.past)
      requires NoInterruptedJobs(store.inner) && NoInterruptedActions(store.inner) && NoReviewLost(store.inner)
      requires forall n :: 0 <= n < |ids| ==> ids[n] in was.issues
      requires forall i :: was.LiveIssue(i) ==> i in ids
      modifies store
      ensures Phase(was, past, store.inner, store.past)
      ensures Quiescent(store.inner, lists)
      ensures AllSteady(old(store.inner), lists) ==> store.inner == old(store.inner)
    {
      ghost var mid, midPast := store.inner, store.past;
      forall i | mid.LiveIssue(i) ensures i in ids { LiveBefore(was, mid, i); }
      ReconcileAll(ids, now);
      PhaseTransitive(was, past, mid, midPast, store.inner, store.past);
      SettledLasts(mid, store.inner);
    }

    /** `recover_with`. From any store a crash can leave, at any point of any run or of an earlier
        recovery, it succeeds exactly when every revising Job points at an item that can be reviewed; and
        then nothing is left that claims to be running, nothing that waited was lost, and recovering again
        changes no record. */
    method Recover(capture: bool, now: nat) returns (r: Result<RecoverySummary>)
      requires Recoverable(store.inner)
      modifies this`mode, store
      ensures r.Ok? <==> AllReviewable(old(store.inner))
      ensures Recoverable(store.inner) && Sound(old(store.past), store.past)
      ensures Progress(old(store.inner), store.inner)
      ensures r.Err? ==> mode.ModeRecovering?
      ensures r.Ok? ==> Quiescent(store.inner, lists)
      ensures r.Ok? ==> SummaryHolds(old(store.inner.events), store.inner.events, r.value) && mode == r.value.finalMode
      ensures r.Ok? && Quiescent(old(store.inner), lists) ==>
                store.inner == old(store.inner).(events := store.inner.events) && NothingTouched(r.value)
    {
      var previous, pending := PersistedMode(store.inner.events);
      BeginRecovery();
      r := RecoverAndFinish(old(store.inner), old(store.past), previous, pending, capture, now);
      if r.Ok? { SummaryFollows(old(store.inner.events), store.inner.events, r.value); }
    }

    method RecoverRecordsSince(ghost was: StoreState, ghost past: Past, capture: bool, now: nat) returns (r: Result<RecoverySummary>)
      requires Recoverable(store.inner) && Sound(past, store.past) && Progress(was, store.inner)
      modifies store
      ensures r.Ok? <==> AllReviewable(old(store.inner))
      ensures Recoverable(store.inner) && Sound(past, store.past) && Progress(was, store.inner)
      ensures store.inner.events == old(store.inner.events)
      ensures r.Ok? ==> Quiescent(store.inner, lists)
      ensures r.Ok? && Quiescent(old(store.inner), lists) ==> store.inner == old(store.inner) && NothingTouched(r.value)
    {
      r := RecoverRecords(capture, now);
      ProgressTransitive(was, old(store.inner), store.inner);
      SoundTransitive(past, old(store.past), store.past);
    }

    method RecoverAndFinish(ghost was: StoreState, ghost past: Past, previous: SchedulerMode, pending: bool, capture: bool, now: nat)
      returns (r: Result<RecoverySummary>)
      requires Recoverable(store.inner) && Sound(past, store.past) && Progress(was, store.inner)
      modifies this`mode, store
      ensures r.Ok? <==> AllReviewable(old(store.inner))
      ensures Recoverable(store.inner) && Sound(past, store.past) && Progress(was, store.inner)
      ensures r.Err? ==> mode == old(mode)
      ensures r.Ok? ==> Quiescent(store.inner, lists)
      ensures r.Ok? ==> mode == r.value.finalMode && Finished(old(store.inner.events), store.inner.events, previous, pending, r.value)
      ensures r.Ok? && Quiescent(old(store.inner), lists) ==>
                store.inner == old(store.inner).(events := store.inner.events) && NothingTouched(r.value)
    {
      var records := RecoverRecordsSince(was, past, capture, now);
      if records.Err? { return records; }
      var summary := FinishSummary(was, past, previous, pending, records.value);
      return Ok(summary);
    }

    method FinishSummary(ghost was: StoreState, ghost past: Past, previous: SchedulerMode, pending: bool, records: RecoverySummary)
      returns (s: RecoverySummary)
      requires Recoverable(store.inner) && Quiescent(store.inner, lists) && Progress(was, store.inner) && Sound(past, store.past)
      modifies this`mode, store
      ensures s == records.(previousMode := s.previousMode, pendingReview := s.pendingReview, finalMode := s.finalMode)
      ensures mode == s.finalMode && Finished(old(store.inner.events), store.inner.events, previous, pending, s)
      ensures store.inner == old(store.inner).(events := store.inner.events)
      ensures Recoverable(store.inner) && Quiescent(store.inner, lists) && Progress(was, store.inner) && Sound(past, store.past)
    {
      s := records.(previousMode := previous, pendingReview := pending, finalMode := FinalMode(previous));
      FinishRecovery(was, past, s.finalMode, InterruptedAny(s));
    }

    method BeginRecovery()
      requires Recoverable(store.inner)
      modifies this`mode, store
      ensures mode.ModeRecovering? && store.inner == old(store.inner).(events := old(store.inner.events) + [ModeEvent(ModeRecovering)])
      ensures Recoverable(store.inner) && Sound(old(store.past), store.past) && Progress(old(store.inner), store.inner)
      ensures AllReviewable(store.inner) <==> AllReviewable(old(store.inner))
      ensures Quiescent(old(store.inner), lists) ==> Quiescent(store.inner, lists)
    {
      EnterMode(ModeRecovering);
      BeginningKeeps(old(store.inner), store.inner, lists);
    }

    method EnterMode(next: SchedulerMode)
      requires Recoverable(store.inner)
      modifies this`mode, store
      ensures mode == next
      ensures store.inner == old(store.inner).(events := old(store.inner.events) + [ModeEvent(next)])
      ensures Recoverable(store.inner) && Sound(old(store.past), store.past) && Progress(old(store.inner), store.inner)
    {
      LogRecoverable(store.inner, store.past, ModeEvent(next));
      LogOnly(store.inner, ModeEvent(next));
      SetMode(next);
    }

    method FinishRecovery(ghost was: StoreState, ghost past: Past, final: SchedulerMode, touched: bool)
      requires Recoverable(store.inner) && Quiescent(store.inner, lists) && Progress(was, store.inner) && Sound(past, store.past)
      modifies this`mode, store
      ensures mode == final
      ensures store.inner == old(store.inner).(events := old(store.inner.events) + [ModeEvent(final)] + [Recovered(touched)])
      ensures Recoverable(store.inner) && Quiescent(store.inner, lists) && Progress(was, store.inner) && Sound(past, store.past)
    {
      EnterMode(final);
      ghost var mid, midPast := store.inner, store.past;
      ProgressTransitive(was, old(store.inner), mid);
      SoundTransitive(past, old(store.past), midPast);
      LogRecoverable(mid, midPast, Recovered(touched));
      LogOnly(mid, Recovered(touched));
      var _ := store.AppendEvent(Recovered(touched));
      ProgressTransitive(was, mid, store.inner);
      SoundTransitive(past, midPast, store.past);
      QuiescentIgnoresLog(old(store.inner), store.inner, lists);
    }
  }

  method LiveIssues(st: StoreState) returns (ids: seq<Id>)
    requires KeyedById(st)
    ensures forall i :: st.LiveIssue(i) <==> i in ids
  {
    var xs := ListOfIssues(st.issues);
    ids := [];
    for k := 0 to |xs|
      invariant forall i :: i in ids <==> exists n :: 0 <= n < k && xs[n].id == i && xs[n].IsLive()
    {
      if xs[k].IsLive() { ids := ids + [xs[k].id]; }
    }
    forall i | st.LiveIssue(i) ensures i in ids { assert st.issues[i] in xs; }
  }

  method UnfinishedJobs(st: StoreState) returns (out: seq<Job>)
    requires KeyedById(st)
    ensures JobsAwait(st, out, 0)
  {
    var xs := ListOfJobs(st.jobs);
    out := [];
    for k := 0 to |xs|
      invariant forall j :: j in out <==> exists n :: 0 <= n < k && xs[n] == j && !j.status.IsTerminal() && st.Ours(j.issueId)
      invariant forall m, n :: 0 <= m < n < |out| ==> out[m].id != out[n].id
    {
      if !xs[k].status.IsTerminal() && st.Ours(xs[k].issueId) { out := out + [xs[k]]; }
    }
    forall j | j in st.jobs && st.Ours(st.jobs[j].issueId) && InterruptedJob(st.jobs[j])
      ensures exists n :: 0 <= n < |out| && out[n].id == j
    {
      assert st.jobs[j] in xs;
      assert st.jobs[j] in out;
    }
  }

  method UnfinishedActions(st: StoreState) returns (out: seq<ActionRun>)
    requires KeyedById(st)
    ensures ActionsAwait(st, out, 0)
  {
    var xs := ListOfActions(st.actions);
    out := [];
    for k := 0 to |xs|
      invariant forall a :: a in out <==> exists n :: 0 <= n < k && xs[n] == a && !a.status.IsTerminal() && st.Ours(a.issueId)
      invariant forall m, n :: 0 <= m < n < |out| ==> out[m].id != out[n].id
    {
      if !xs[k].status.IsTerminal() && st.Ours(xs[k].issueId) { out := out + [xs[k]]; }
    }
    forall a | a in st.actions && st.Ours(st.actions[a].issueId) && InterruptedAction(st.actions[a])
      ensures exists n :: 0 <= n < |out| && out[n].id == a
    {
      assert st.actions[a] in xs;
      assert st.actions[a] in out;
    }
  }
}
