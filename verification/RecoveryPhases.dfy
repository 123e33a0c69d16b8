/** What every phase of recovery keeps, and the single writes phases are made of. */
module RecoveryPhases {
  import opened Wrappers
  import opened Policy
  import opened Domain
  import opened Store
  import opened Protocol
  import opened ProtocolInvariant
  import opened Recovery
  import opened Verification

  type Past = seq<StoreState>

  /** A store recovery can start from. */
  ghost predicate Recoverable(st: StoreState) { StoreInvariant(st) }

  /** Every state written since then is one recovery can start from. */
  ghost predicate Sound(before: Past, after: Past) {
    && before <= after
    && forall k :: |before| <= k < |after| ==> Recoverable(after[k])
  }

  lemma SoundTransitive(a: Past, b: Past, c: Past)
    requires Sound(a, b) && Sound(b, c)
    ensures Sound(a, c)
  {
    forall k | |a| <= k < |c| ensures Recoverable(c[k]) {
      if k < |b| { assert c[k] == b[k]; }
    }
  }

  ghost predicate Phase(st: StoreState, past: Past, st': StoreState, past': Past) {
    && Recoverable(st') && AllCleared(st') && Progress(st, st') && st'.events == st.events && Sound(past, past')
  }

  lemma PhaseTransitive(a: StoreState, pa: Past, b: StoreState, pb: Past, c: StoreState, pc: Past)
    requires Phase(a, pa, b, pb) && Phase(b, pb, c, pc)
    ensures Phase(a, pa, c, pc)
  {
    ProgressTransitive(a, b, c);
    SoundTransitive(pa, pb, pc);
  }

  lemma PhaseNothing(st: StoreState, past: Past)
    requires Recoverable(st) && AllCleared(st)
    ensures Phase(st, past, st, past)
  {
  }

  lemma PhaseJob(st: StoreState, past: Past, job: Job, op: JobOp)
    requires Recoverable(st) && AllCleared(st) && st.HoldsJob(job) && st.Ours(job.issueId)
    requires op.Run(job).Ok? && (op.JobComplete? ==> op.result.outcome.OutcomeFailed?)
    ensures Phase(st, past, st.PutJob(op.Run(job).value), past + [st.PutJob(op.Run(job).value)])
  {
    JobWritten(st, job, op);
    JobProgress(st, job, op);
    ClearedAfterJob(st, job, op);
  }

  lemma ClearedAfterJob(st: StoreState, job: Job, op: JobOp)
    requires AllCleared(st) && st.HoldsJob(job) && op.Run(job).Ok?
    requires op.JobComplete? ==> op.result.outcome.OutcomeFailed?
    ensures AllCleared(st.PutJob(op.Run(job).value))
  {
    JobRewriteEvolves(job, op);
    var st' := st.PutJob(op.Run(job).value);
    forall i | Closed(st', i) ensures Cleared(st', i) { assert Closed(st, i) && Cleared(st, i); }
  }

  /** What recovery writes over an action: never anything that could still be started. */
  predicate Settling(op: ActionOp) {
    match op
    case OpDeny(_) => true
    case OpResult(r) => !r.requiresHuman
    case OpVerify(_, _, _) => true
    case OpReview(_) => true
    case _ => false
  }

  lemma SettlingIsNotCancellable(a: ActionRun, op: ActionOp, now: nat)
    requires op.Run(a, now).Ok? && Settling(op)
    ensures Cancellable(op.Run(a, now).value) ==> Cancellable(a) && op.Run(a, now).value.status == a.status
  {
  }

  lemma PhaseAction(st: StoreState, past: Past, a: ActionRun, op: ActionOp, now: nat)
    requires Recoverable(st) && AllCleared(st) && st.Holds(a) && st.Ours(a.issueId)
    requires op.Run(a, now).Ok? && Settling(op) && !Queued(a) && VerdictKnown(st, a, op)
    ensures Phase(st, past, st.PutAction(op.Run(a, now).value), past + [st.PutAction(op.Run(a, now).value)])
  {
    ActionWritten(st, a, op, now);
    ActionRewriteProgress(st, a, op, now);
    ClearedAfterAction(st, a, op, now);
  }

  lemma PhaseThenAction(was: StoreState, past: Past, st: StoreState, mid: Past, a: ActionRun, op: ActionOp, now: nat)
    requires Phase(was, past, st, mid) && st.Holds(a) && st.Ours(a.issueId)
    requires op.Run(a, now).Ok? && Settling(op) && !Queued(a) && VerdictKnown(st, a, op)
    ensures Phase(was, past, st.PutAction(op.Run(a, now).value), mid + [st.PutAction(op.Run(a, now).value)])
  {
    PhaseAction(st, mid, a, op, now);
    PhaseTransitive(was, past, st, mid, st.PutAction(op.Run(a, now).value), mid + [st.PutAction(op.Run(a, now).value)]);
  }

  /** An action record may be rewritten by a settling operation of any kind. */
  ghost predicate MayWrite(was: StoreState, past: Past, st: StoreState, mid: Past, a: ActionRun, next: ActionRun) {
    && SameAction(a, next) && a.issueId in st.issues
    && Phase(was, past, st.PutAction(next), mid + [st.PutAction(next)])
  }

  lemma SettlingMayWrite(was: StoreState, past: Past, st: StoreState, mid: Past, a: ActionRun, op: ActionOp, now: nat)
    requires Phase(was, past, st, mid) && st.Holds(a) && st.Ours(a.issueId)
    requires op.Run(a, now).Ok? && Settling(op) && !Queued(a) && VerdictKnown(st, a, op)
    ensures MayWrite(was, past, st, mid, a, op.Run(a, now).value)
  {
    PhaseThenAction(was, past, st, mid, a, op, now);
    RewriteEvolves(a, op, now);
  }

  lemma VerificationEnds(a: ActionRun, after: Option<Id>, passed: bool, graded: Option<VerificationEvidence>, now: nat)
    requires a.RecordVerification(after, passed, graded, now).Ok?
    ensures OpVerify(after, passed, graded).Run(a, now) == a.RecordVerification(after, passed, graded, now)
    ensures var next := a.RecordVerification(after, passed, graded, now).value; next.id == a.id && next.status.IsTerminal()
    ensures !Queued(a)
  {
  }

  lemma OursIsConsistent(st: StoreState, a: ActionRun)
    requires Recoverable(st) && st.Holds(a) && st.Ours(a.issueId)
    ensures ActionConsistent(a)
  {
    assert ActionFine(st, st.actions[a.id]);
  }

  lemma ClearedAfterAction(st: StoreState, a: ActionRun, op: ActionOp, now: nat)
    requires AllCleared(st) && st.Holds(a) && op.Run(a, now).Ok? && Settling(op)
    ensures AllCleared(st.PutAction(op.Run(a, now).value))
  {
    RewriteEvolves(a, op, now);
    SettlingIsNotCancellable(a, op, now);
    var st' := st.PutAction(op.Run(a, now).value);
    forall i | Closed(st', i) ensures Cleared(st', i) { assert Closed(st, i) && Cleared(st, i); }
  }

  lemma PhaseReconcile(st: StoreState, past: Past, i: Id, lists: ClassificationLists, now: nat, past': Past)
    requires Recoverable(st) && AllCleared(st) && i in st.issues && Sound(past, past')
    ensures Phase(st, past, Reconciled(st, i, lists, now), past')
  {
    ReconcileKeeps(st, i, lists, now);
    ReconcileProgress(st, i, lists, now);
    ReconcileTouchesOnlyTheStatus(st, i, lists, now);
  }

  lemma ClearedAfterSnapshot(st: StoreState, id: Id, content: Snapshot)
    requires AllCleared(st) && id !in st.snapshots
    ensures var st' := st.(snapshots := st.snapshots[id := content]); AllCleared(st') && Progress(st, st')
  {
    var st' := st.(snapshots := st.snapshots[id := content]);
    forall i | Closed(st', i) ensures Cleared(st', i) { assert Closed(st, i) && Cleared(st, i); }
  }

  // ---------------------------------------------------------------- what is outstanding

  ghost predicate NoInterruptedJobs(st: StoreState) {
    forall j :: j in st.jobs && st.Ours(st.jobs[j].issueId) ==> !InterruptedJob(st.jobs[j])
  }

  ghost predicate NoInterruptedActions(st: StoreState) {
    forall a :: a in st.actions && st.Ours(st.actions[a].issueId) ==> !InterruptedAction(st.actions[a])
  }

  /** The item a revising Job was dispatched for, unless it was only a comment. */
  function ReviewedItem(j: Job): Option<FeedbackOrigin> {
    if j.brief.revises.None? || j.brief.feedback == [] then None
    else
      var origin := j.brief.feedback[|j.brief.feedback| - 1].origin;
      if origin.IssueComment? then None else Some(origin)
  }

  function OriginAction(o: FeedbackOrigin): Option<Id> {
    match o
    case DeniedAction(id) => Some(id)
    case BlockedAction(id) => Some(id)
    case FailedAction(id) => Some(id)
    case _ => None
  }

  function OriginJob(o: FeedbackOrigin): Option<Id> {
    match o
    case FailedJob(id) => Some(id)
    case StalledJob(id) => Some(id)
    case _ => None
  }

  /** The item is there and still asks for the review that the crash lost. */
  predicate ReviewLost(st: StoreState, o: FeedbackOrigin) {
    || (OriginAction(o).Some? && OriginAction(o).value in st.actions && st.actions[OriginAction(o).value].NeedsReview())
    || (OriginJob(o).Some? && OriginJob(o).value in st.jobs && st.jobs[OriginJob(o).value].NeedsReview())
  }

  /** The item can be looked up, and is not an archive that still asks for review. */
  predicate ItemReviewable(st: StoreState, o: FeedbackOrigin) {
    && (OriginAction(o).Some? ==>
          && OriginAction(o).value in st.actions
          && (st.actions[OriginAction(o).value].NeedsReview() ==> st.Ours(st.actions[OriginAction(o).value].issueId)))
    && (OriginJob(o).Some? ==>
          && OriginJob(o).value in st.jobs
          && (st.jobs[OriginJob(o).value].NeedsReview() ==> st.Ours(st.jobs[OriginJob(o).value].issueId)))
  }

  predicate Reviewable(st: StoreState, j: Job) {
    ReviewedItem(j).Some? ==> ItemReviewable(st, ReviewedItem(j).value)
  }

  ghost predicate AllReviewable(st: StoreState) {
    forall j :: j in st.jobs ==> Reviewable(st, st.jobs[j])
  }

  ghost predicate NoReviewLost(st: StoreState) {
    forall j :: j in st.jobs && ReviewedItem(st.jobs[j]).Some? ==> !ReviewLost(st, ReviewedItem(st.jobs[j]).value)
  }

  /** The controller's own Jobs only ever point at its own records. */
  lemma OwnJobsReviewable(st: StoreState, j: Job)
    requires FeedbackKnown(st, j.brief.feedback)
    ensures Reviewable(st, j)
  {
    if ReviewedItem(j).Some? { assert OriginKnown(st, j.brief.feedback[|j.brief.feedback| - 1].origin); }
  }

  lemma OwnAllReviewable(st: StoreState)
    requires RecordsFine(st) && forall i :: i in st.issues ==> !st.issues[i].archived
    ensures AllReviewable(st)
  {
    forall j | j in st.jobs ensures Reviewable(st, st.jobs[j]) {
      assert JobFine(st, st.jobs[j]);
      OwnJobsReviewable(st, st.jobs[j]);
    }
  }

  lemma OursLasts(a: StoreState, b: StoreState, i: Id)
    requires Progress(a, b)
    ensures a.Ours(i) <==> b.Ours(i)
  {
    if i in a.issues { assert IssueProgress(a.issues[i], b.issues[i]); }
  }

  lemma ActionReviewableLasts(a: StoreState, b: StoreState, x: Id)
    requires Progress(a, b) && x in a.actions
    ensures a.actions[x].NeedsReview() && !a.Ours(a.actions[x].issueId)
            <==> b.actions[x].NeedsReview() && !b.Ours(b.actions[x].issueId)
  {
    assert ActionProgress(a, b, a.actions[x], b.actions[x]);
    OursLasts(a, b, a.actions[x].issueId);
  }

  lemma JobReviewableLasts(a: StoreState, b: StoreState, j: Id)
    requires Progress(a, b) && j in a.jobs
    ensures a.jobs[j].NeedsReview() && !a.Ours(a.jobs[j].issueId) <==> b.jobs[j].NeedsReview() && !b.Ours(b.jobs[j].issueId)
  {
    assert SameJob(a.jobs[j], b.jobs[j]);
    OursLasts(a, b, a.jobs[j].issueId);
  }

  /** Whether an item can be reviewed does not change while recovery works on the store. */
  lemma ReviewableLasts(a: StoreState, b: StoreState, o: FeedbackOrigin)
    requires Progress(a, b)
    ensures ItemReviewable(a, o) <==> ItemReviewable(b, o)
  {
    if OriginAction(o).Some? && OriginAction(o).value in a.actions { ActionReviewableLasts(a, b, OriginAction(o).value); }
    if OriginJob(o).Some? && OriginJob(o).value in a.jobs { JobReviewableLasts(a, b, OriginJob(o).value); }
  }

  ghost predicate AllSteady(st: StoreState, lists: ClassificationLists)
    requires KeyedById(st)
  {
    forall i :: Steady(st, i, lists)
  }

  /** A store that has nothing left to recover. */
  ghost predicate Quiescent(st: StoreState, lists: ClassificationLists)
    requires KeyedById(st)
  {
    && AllCleared(st) && NoInterruptedJobs(st) && NoInterruptedActions(st) && NoReviewLost(st) && AllSteady(st, lists)
  }

  // ---------------------------------------------------------------- bookkeeping of the loops

  /** Clearing one more closed Issue. */
  lemma ClearOneMore(was: StoreState, st: StoreState, i: Id, now: nat)
    requires Progress(was, st) && st.issues == was.issues && Closed(was, i) && StoreInvariant(st)
    ensures var st' := WorkCancelled(st, {i}, now);
            && Progress(was, st') && st'.issues == was.issues && Cleared(st', i)
            && (forall k :: Cleared(st, k) ==> Cleared(st', k))
            && (Cleared(st, i) ==> st' == st)
  {
    var st' := WorkCancelled(st, {i}, now);
    CancelProgress(st, i, now);
    ProgressTransitive(was, st, st');
    CancelledIsCleared(st, {i}, now, i);
    forall k | Cleared(st, k) ensures Cleared(st', k) { CancelledIsCleared(st, {i}, now, k); }
    if Cleared(st, i) { ClearedIsFixed(st, {i}, now); }
  }

  /** Interrupted Jobs of ours that are still to be looked at. */
  ghost predicate JobsAwait(st: StoreState, xs: seq<Job>, k: nat)
    requires k <= |xs|
  {
    && (forall j :: j in st.jobs && st.Ours(st.jobs[j].issueId) && InterruptedJob(st.jobs[j]) ==>
          exists n :: k <= n < |xs| && xs[n].id == j)
    && (forall n :: k <= n < |xs| ==> st.HoldsJob(xs[n]) && st.Ours(xs[n].issueId))
    && (forall m, n :: 0 <= m < n < |xs| ==> xs[m].id != xs[n].id)
  }

  ghost predicate ActionsAwait(st: StoreState, xs: seq<ActionRun>, k: nat)
    requires k <= |xs|
  {
    && (forall a :: a in st.actions && st.Ours(st.actions[a].issueId) && InterruptedAction(st.actions[a]) ==>
          exists n :: k <= n < |xs| && xs[n].id == a)
    && (forall n :: k <= n < |xs| ==> st.Holds(xs[n]) && st.Ours(xs[n].issueId))
    && (forall m, n :: 0 <= m < n < |xs| ==> xs[m].id != xs[n].id)
  }

  lemma JobLookedAt(st: StoreState, st': StoreState, xs: seq<Job>, k: nat, next: Job)
    requires KeyedById(st) && k < |xs| && JobsAwait(st, xs, k)
    requires st'.jobs == st.jobs[xs[k].id := next] && st'.issues == st.issues
    requires next.id == xs[k].id && next.issueId == xs[k].issueId && !InterruptedJob(next)
    ensures JobsAwait(st', xs, k + 1)
  {
    forall j | j in st'.jobs && st'.Ours(st'.jobs[j].issueId) && InterruptedJob(st'.jobs[j])
      ensures exists n :: k + 1 <= n < |xs| && xs[n].id == j
    {
      assert j != xs[k].id && InterruptedJob(st.jobs[j]);
      var n :| k <= n < |xs| && xs[n].id == j;
    }
  }

  lemma ActionLookedAt(st: StoreState, st': StoreState, xs: seq<ActionRun>, k: nat, next: ActionRun)
    requires KeyedById(st) && k < |xs| && ActionsAwait(st, xs, k)
    requires st'.actions == st.actions[xs[k].id := next] && (forall i :: st'.Ours(i) <==> st.Ours(i))
    requires next.id == xs[k].id && next.issueId == xs[k].issueId && !InterruptedAction(next)
    ensures ActionsAwait(st', xs, k + 1)
  {
    forall a | a in st'.actions && st'.Ours(st'.actions[a].issueId) && InterruptedAction(st'.actions[a])
      ensures exists n :: k + 1 <= n < |xs| && xs[n].id == a
    {
      assert a != xs[k].id && InterruptedAction(st.actions[a]);
      var n :| k <= n < |xs| && xs[n].id == a;
    }
  }

  // ---------------------------------------------------------------- interruptions

  const INTERRUPTED_JOB := JobResult(OutcomeFailed, [], [], false)
  const INTERRUPTED_RUN := PlatformResult(false, false, false, false, None, "interrupted by a controller restart while executing")
  const INTERRUPTED_PROPOSAL := ByPolicy("interrupted by a controller restart before authority was evaluated")

  /** What recovery writes over an action it cannot verify. */
  function Interruption(a: ActionRun): ActionOp
    requires InterruptedAction(a)
  {
    if a.status.Proposed? then OpDeny(INTERRUPTED_PROPOSAL)
    else if a.status.Running? then OpResult(INTERRUPTED_RUN)
    else OpVerify(None, false, None)
  }

  lemma InterruptionLegal(a: ActionRun, now: nat)
    requires InterruptedAction(a)
    ensures Interruption(a).Run(a, now).Ok? && Settling(Interruption(a))
    ensures Interruption(a).Run(a, now).value.status.IsTerminal()
  {
  }

  /** No Snapshot after the interruption means a failed verification. */
  lemma InterruptionKnown(st: StoreState, a: ActionRun)
    requires InterruptedAction(a)
    ensures VerdictKnown(st, a, Interruption(a))
  {
    if a.status.Verifying? { assert Judged(st, a, ClassificationLists([], [], [], []), None, Verdict(false, None)); }
  }

  lemma InterruptionMayWrite(st: StoreState, past: Past, a: ActionRun, now: nat)
    requires Recoverable(st) && AllCleared(st) && st.Holds(a) && st.Ours(a.issueId) && InterruptedAction(a)
    ensures Interruption(a).Run(a, now).Ok? && Interruption(a).Run(a, now).value.status.IsTerminal()
    ensures MayWrite(st, past, st, past, a, Interruption(a).Run(a, now).value)
  {
    InterruptionLegal(a, now);
    InterruptionKnown(st, a);
    PhaseNothing(st, past);
    SettlingMayWrite(st, past, st, past, a, Interruption(a), now);
  }

  /** No Job is ever stored as Queued, so failing what was running is always legal. */
  lemma InterruptedJobLegal(st: StoreState, past: Past, j: Job)
    requires Recoverable(st) && AllCleared(st) && st.HoldsJob(j) && st.Ours(j.issueId) && InterruptedJob(j)
    ensures j.Complete(INTERRUPTED_JOB).Ok? && j.Complete(INTERRUPTED_JOB).value.status.JFailed?
    ensures SameJob(j, j.Complete(INTERRUPTED_JOB).value)
    ensures var st' := st.PutJob(j.Complete(INTERRUPTED_JOB).value); Phase(st, past, st', past + [st'])
  {
    OursNotQueued(st, j);
    InterruptedJobFails(j);
    PhaseJob(st, past, j, JobComplete(INTERRUPTED_JOB));
  }

  lemma OursNotQueued(st: StoreState, j: Job)
    requires Recoverable(st) && st.HoldsJob(j) && st.Ours(j.issueId)
    ensures !j.status.JQueued?
  {
    assert JobFine(st, st.jobs[j.id]);
  }

  lemma InterruptedJobFails(j: Job)
    requires j.status.JRunning?
    ensures j.Complete(INTERRUPTED_JOB).Ok? && j.Complete(INTERRUPTED_JOB).value.status.JFailed?
    ensures SameJob(j, j.Complete(INTERRUPTED_JOB).value)
    ensures JobComplete(INTERRUPTED_JOB).Run(j) == j.Complete(INTERRUPTED_JOB)
  {
  }

  // ---------------------------------------------------------------- lost reviews

  /** A review only ever takes items out. */
  lemma ActionReviewOnlyRemoves(a: StoreState, b: StoreState, id: Id, given: HumanReview, now: nat, o: FeedbackOrigin)
    requires id in a.actions && a.actions[id].RecordReview(given, now).Ok?
    requires b.jobs == a.jobs && b.actions == a.actions[id := a.actions[id].RecordReview(given, now).value]
    ensures ReviewLost(b, o) ==> ReviewLost(a, o) && OriginAction(o) != Some(id)
  {
  }

  lemma JobReviewOnlyRemoves(a: StoreState, b: StoreState, id: Id, given: HumanReview, o: FeedbackOrigin)
    requires id in a.jobs && a.jobs[id].RecordReview(given).Ok?
    requires b.actions == a.actions && b.jobs == a.jobs[id := a.jobs[id].RecordReview(given).value]
    ensures ReviewLost(b, o) ==> ReviewLost(a, o) && OriginJob(o) != Some(id)
  {
  }

  /** A review interrupts nothing. */
  lemma ActionReviewSettled(a: StoreState, b: StoreState, id: Id, given: HumanReview, now: nat)
    requires Progress(a, b) && NoInterruptedActions(a) && id in a.actions && a.actions[id].RecordReview(given, now).Ok?
    requires b.actions == a.actions[id := a.actions[id].RecordReview(given, now).value]
    ensures NoInterruptedActions(b)
  {
    forall x | x in b.actions && b.Ours(b.actions[x].issueId) ensures !InterruptedAction(b.actions[x]) {
      OursLasts(a, b, a.actions[x].issueId);
      assert ActionProgress(a, b, a.actions[x], b.actions[x]);
    }
  }

  lemma JobReviewSettled(a: StoreState, b: StoreState, id: Id, given: HumanReview)
    requires Progress(a, b) && NoInterruptedJobs(a) && id in a.jobs && a.jobs[id].RecordReview(given).Ok?
    requires b.jobs == a.jobs[id := a.jobs[id].RecordReview(given).value]
    ensures NoInterruptedJobs(b)
  {
    forall x | x in b.jobs && b.Ours(b.jobs[x].issueId) ensures !InterruptedJob(b.jobs[x]) {
      OursLasts(a, b, a.jobs[x].issueId);
    }
  }

  lemma SettledLasts(a: StoreState, b: StoreState)
    requires Progress(a, b) && b.jobs == a.jobs && b.actions == a.actions
    ensures NoInterruptedJobs(a) ==> NoInterruptedJobs(b)
    ensures NoInterruptedActions(a) ==> NoInterruptedActions(b)
    ensures NoReviewLost(a) ==> NoReviewLost(b)
  {
    forall i ensures a.Ours(i) <==> b.Ours(i) { OursLasts(a, b, i); }
    forall o | ReviewLost(b, o) ensures ReviewLost(a, o) {}
  }

  /** How far the first loop has come. */
  ghost predicate ClearedUpTo(was: StoreState, st: StoreState, xs: seq<Issue>, k: nat)
    requires k <= |xs|
  {
    && Recoverable(st) && Progress(was, st) && st.issues == was.issues && st.events == was.events
    && ListedCleared(was, st, xs, k)
    && (forall n :: 0 <= n < |xs| ==> was.HoldsIssue(xs[n]))
    && (AllCleared(was) ==> st == was)
  }

  ghost predicate ListedCleared(was: StoreState, st: StoreState, xs: seq<Issue>, k: nat)
    requires k <= |xs|
  {
    forall n :: 0 <= n < k ==> Closed(was, xs[n].id) ==> Cleared(st, xs[n].id)
  }

  lemma ClearingBegins(was: StoreState, xs: seq<Issue>)
    requires Recoverable(was) && ListsIssues(xs, was.issues)
    ensures ClearedUpTo(was, was, xs, 0)
  {
    NoProgress(was);
    forall n | 0 <= n < |xs| ensures was.HoldsIssue(xs[n]) { assert xs[n] in xs; }
  }

  lemma NoProgress(st: StoreState)
    ensures Progress(st, st)
  {
  }

  lemma ClearingTurn(was: StoreState, st: StoreState, xs: seq<Issue>, k: nat, now: nat)
    requires k < |xs| && ClearedUpTo(was, st, xs, k)
    ensures ClearedUpTo(was, if xs[k].status.IsTerminal() && !xs[k].archived then WorkCancelled(st, {xs[k].id}, now) else st, xs, k + 1)
  {
    if Closed(was, xs[k].id) {
      ClearOneMore(was, st, xs[k].id, now);
      CancelKeeps(st, xs[k].id, now);
      ClearingMoves(was, st, xs, k, WorkCancelled(st, {xs[k].id}, now));
    }
  }

  lemma ClearingMoves(was: StoreState, st: StoreState, xs: seq<Issue>, k: nat, st': StoreState)
    requires k < |xs| && ClearedUpTo(was, st, xs, k) && Closed(was, xs[k].id)
    requires Recoverable(st') && Progress(was, st') && st'.issues == was.issues && st'.events == st.events
    requires Cleared(st', xs[k].id) && (forall i :: Cleared(st, i) ==> Cleared(st', i))
    requires Cleared(st, xs[k].id) ==> st' == st
    ensures ClearedUpTo(was, st', xs, k + 1)
  {
    assert ListedCleared(was, st', xs, k + 1) by { ListedOneMore(was, st, xs, k, st'); }
    assert AllCleared(was) ==> Cleared(was, xs[k].id);
  }

  lemma ListedOneMore(was: StoreState, st: StoreState, xs: seq<Issue>, k: nat, st': StoreState)
    requires k < |xs| && ListedCleared(was, st, xs, k)
    requires Cleared(st', xs[k].id) && forall i :: Cleared(st, i) ==> Cleared(st', i)
    ensures ListedCleared(was, st', xs, k + 1)
  {
  }

  lemma ClearingEnds(was: StoreState, st: StoreState, xs: seq<Issue>)
    requires Recoverable(was) && ListsIssues(xs, was.issues) && ClearedUpTo(was, st, xs, |xs|)
    ensures AllCleared(st)
  {
    forall i | Closed(st, i) ensures Cleared(st, i) { assert was.issues[i] in xs; }
  }

  lemma JobTurned(mid: StoreState, xs: seq<Job>, k: nat, st: StoreState)
    requires KeyedById(mid) && k < |xs| && JobsAwait(mid, xs, k)
    requires InterruptedJob(xs[k]) ==> xs[k].Complete(INTERRUPTED_JOB).Ok?
    requires st == if InterruptedJob(xs[k]) then mid.PutJob(xs[k].Complete(INTERRUPTED_JOB).value) else mid
    ensures JobsAwait(st, xs, k + 1)
    ensures NoInterruptedJobs(mid) ==> !InterruptedJob(xs[k])
  {
    if InterruptedJob(xs[k]) {
      JobRewriteEvolves(xs[k], JobComplete(INTERRUPTED_JOB));
      JobLookedAt(mid, st, xs, k, xs[k].Complete(INTERRUPTED_JOB).value);
    }
  }

  lemma ActionTurned(mid: StoreState, xs: seq<ActionRun>, k: nat, st: StoreState)
    requires KeyedById(mid) && k < |xs| && ActionsAwait(mid, xs, k) && Progress(mid, st)
    requires InterruptedAction(xs[k]) && xs[k].id in st.actions && st.actions == mid.actions[xs[k].id := st.actions[xs[k].id]]
    requires st.actions[xs[k].id].status.IsTerminal()
    ensures ActionsAwait(st, xs, k + 1)
    ensures !NoInterruptedActions(mid)
  {
    forall i ensures st.Ours(i) <==> mid.Ours(i) { OursLasts(mid, st, i); }
    assert SameAction(mid.actions[xs[k].id], st.actions[xs[k].id]) by {
      assert ActionProgress(mid, st, mid.actions[xs[k].id], st.actions[xs[k].id]);
    }
    ActionLookedAt(mid, st, xs, k, st.actions[xs[k].id]);
  }

  // ---------------------------------------------------------------- the review loop

  /** How far the loop over revising Jobs has come. */
  ghost predicate ReviewedUpTo(was: StoreState, st: StoreState, xs: seq<Job>, k: nat)
    requires k <= |xs|
  {
    && NoInterruptedJobs(st) && NoInterruptedActions(st)
    && (forall n :: 0 <= n < k ==> !ItemLost(st, xs[n]))
    && (forall n :: 0 <= n < k ==> Reviewable(was, xs[n]))
    && (NoReviewLost(was) ==> st == was)
  }

  predicate ItemLost(st: StoreState, j: Job) { ReviewedItem(j).Some? && ReviewLost(st, ReviewedItem(j).value) }

  /** What one turn does: it restores at most the one review, and loses none. */
  ghost predicate ReviewTurn(mid: StoreState, st: StoreState, job: Job, restored: bool) {
    && NoInterruptedJobs(st) && NoInterruptedActions(st)
    && !ItemLost(st, job)
    && (restored <==> ItemLost(mid, job))
    && (!restored ==> st == mid)
    && forall o :: ReviewLost(st, o) ==> ReviewLost(mid, o)
  }

  /** The same for the item itself. */
  ghost predicate RestoredItem(mid: StoreState, st: StoreState, o: FeedbackOrigin, restored: bool) {
    && NoInterruptedJobs(st) && NoInterruptedActions(st)
    && !ReviewLost(st, o)
    && (restored <==> ReviewLost(mid, o))
    && (!restored ==> st == mid)
    && forall x :: ReviewLost(st, x) ==> ReviewLost(mid, x)
  }

  lemma SettledJobsLast(a: StoreState, b: StoreState)
    requires Progress(a, b) && b.jobs == a.jobs && NoInterruptedJobs(a)
    ensures NoInterruptedJobs(b)
  {
    forall i ensures a.Ours(i) <==> b.Ours(i) { OursLasts(a, b, i); }
  }

  lemma SettledActionsLast(a: StoreState, b: StoreState)
    requires Progress(a, b) && b.actions == a.actions && NoInterruptedActions(a)
    ensures NoInterruptedActions(b)
  {
    forall i ensures a.Ours(i) <==> b.Ours(i) { OursLasts(a, b, i); }
  }

  lemma ReviewTurned(was: StoreState, mid: StoreState, st: StoreState, xs: seq<Job>, k: nat, restored: bool)
    requires k < |xs| && ReviewedUpTo(was, mid, xs, k) && ReviewTurn(mid, st, xs[k], restored)
    requires Reviewable(was, xs[k])
    requires NoReviewLost(was) ==> !ItemLost(was, xs[k])
    ensures ReviewedUpTo(was, st, xs, k + 1)
    ensures NoReviewLost(was) ==> !restored
  {
  }

  lemma ReviewableListed(was: StoreState, mid: StoreState, job: Job)
    requires Progress(was, mid)
    ensures Reviewable(mid, job) <==> Reviewable(was, job)
  {
    if ReviewedItem(job).Some? { ReviewableLasts(was, mid, ReviewedItem(job).value); }
  }

  /** The listing was read from `was`; at the end every stored Job is one of the listed ones. */
  lemma ReviewsDone(was: StoreState, st: StoreState, xs: seq<Job>)
    requires ListsJobs(xs, was.jobs) && Progress(was, st) && ReviewedUpTo(was, st, xs, |xs|)
    ensures NoReviewLost(st) && AllReviewable(was)
  {
    forall j | j in st.jobs && ReviewedItem(st.jobs[j]).Some? ensures !ReviewLost(st, ReviewedItem(st.jobs[j]).value) {
      assert was.jobs[j] in xs;
      assert SameJob(was.jobs[j], st.jobs[j]);
    }
    forall j | j in was.jobs ensures Reviewable(was, was.jobs[j]) { assert was.jobs[j] in xs; }
  }

  lemma AllReviewableLasts(a: StoreState, b: StoreState)
    requires Progress(a, b)
    ensures AllReviewable(a) <==> AllReviewable(b)
  {
    forall j | j in a.jobs ensures Reviewable(a, a.jobs[j]) <==> Reviewable(b, b.jobs[j]) {
      ReviewableListed(a, b, a.jobs[j]);
      assert SameJob(a.jobs[j], b.jobs[j]);
    }
  }

  // ---------------------------------------------------------------- the last loop, and the whole

  ghost predicate SteadyUpTo(was: StoreState, st: StoreState, ids: seq<Id>, k: nat, lists: ClassificationLists)
    requires k <= |ids|
  {
    && Recoverable(st) && AllCleared(st) && st.jobs == was.jobs && st.actions == was.actions
    && st.issues.Keys == was.issues.Keys
    && ListedSteady(st, ids, k, lists)
    && (KeyedById(was) && AllSteady(was, lists) ==> st == was)
  }

  ghost predicate ListedSteady(st: StoreState, ids: seq<Id>, k: nat, lists: ClassificationLists)
    requires k <= |ids| && KeyedById(st)
  {
    forall n :: 0 <= n < k ==> Steady(st, ids[n], lists)
  }

  lemma SteadyTurn(was: StoreState, st: StoreState, ids: seq<Id>, k: nat, lists: ClassificationLists, now: nat)
    requires k < |ids| && SteadyUpTo(was, st, ids, k, lists) && ids[k] in st.issues
    ensures SteadyUpTo(was, Reconciled(st, ids[k], lists, now), ids, k + 1, lists)
  {
    ReconcileKeeps(st, ids[k], lists, now);
    ReconcileTouchesOnlyTheStatus(st, ids[k], lists, now);
    ReconcileSteadies(st, ids[k], lists, now);
    SteadyMoves(was, st, ids, k, lists, Reconciled(st, ids[k], lists, now));
  }

  lemma SteadyMoves(was: StoreState, st: StoreState, ids: seq<Id>, k: nat, lists: ClassificationLists, st': StoreState)
    requires k < |ids| && SteadyUpTo(was, st, ids, k, lists)
    requires Recoverable(st') && AllCleared(st') && st' == st.(issues := st'.issues) && st'.issues.Keys == st.issues.Keys
    requires Steady(st', ids[k], lists) && forall i :: Steady(st, i, lists) ==> Steady(st', i, lists)
    requires Steady(st, ids[k], lists) ==> st' == st
    ensures SteadyUpTo(was, st', ids, k + 1, lists)
  {
    ListedSteadyOneMore(st, ids, k, lists, st');
    if KeyedById(was) && AllSteady(was, lists) { assert Steady(was, ids[k], lists); }
  }

  lemma ListedSteadyOneMore(st: StoreState, ids: seq<Id>, k: nat, lists: ClassificationLists, st': StoreState)
    requires k < |ids| && KeyedById(st) && KeyedById(st') && ListedSteady(st, ids, k, lists)
    requires Steady(st', ids[k], lists) && forall i :: Steady(st, i, lists) ==> Steady(st', i, lists)
    ensures ListedSteady(st', ids, k + 1, lists)
  {
  }

  lemma AllWereSteadied(was: StoreState, st: StoreState, ids: seq<Id>, lists: ClassificationLists)
    requires SteadyUpTo(was, st, ids, |ids|, lists) && Progress(was, st)
    requires forall i :: was.LiveIssue(i) ==> i in ids
    ensures AllSteady(st, lists)
  {
    forall i ensures Steady(st, i, lists) {
      if st.LiveIssue(i) {
        assert IssueProgress(was.issues[i], st.issues[i]);
        assert i in ids;
      }
    }
  }

  lemma LiveBefore(a: StoreState, b: StoreState, i: Id)
    requires Progress(a, b) && b.LiveIssue(i)
    ensures a.LiveIssue(i)
  {
    assert IssueProgress(a.issues[i], b.issues[i]);
  }

  lemma ActionsStillAwait(a: StoreState, b: StoreState, xs: seq<ActionRun>)
    requires ActionsAwait(a, xs, 0) && b.actions == a.actions && b.issues == a.issues
    ensures ActionsAwait(b, xs, 0)
  {
  }

  /** The log and nothing else changed. */
  lemma LogOnly(st: StoreState, e: Event)
    ensures var st' := st.(events := st.events + [e]); Progress(st, st') && (AllCleared(st) ==> AllCleared(st'))
  {
    var st' := st.(events := st.events + [e]);
    if AllCleared(st) {
      forall i | Closed(st', i) ensures Cleared(st', i) { assert Closed(st, i) && Cleared(st, i); }
    }
  }

  lemma LogRecoverable(st: StoreState, past: Past, e: Event)
    requires Recoverable(st)
    ensures var st' := st.(events := st.events + [e]); Recoverable(st') && Sound(past, past + [st'])
  {
    LogWritten(st, e);
  }

  lemma QuiescentIgnoresLog(st: StoreState, st': StoreState, lists: ClassificationLists)
    requires KeyedById(st) && Quiescent(st, lists) && st' == st.(events := st'.events)
    ensures KeyedById(st') && Quiescent(st', lists)
  {
    forall i | Closed(st', i) ensures Cleared(st', i) { assert Closed(st, i) && Cleared(st, i); }
    forall j | j in st'.jobs && ReviewedItem(st'.jobs[j]).Some? ensures !ReviewLost(st', ReviewedItem(st'.jobs[j]).value) {
      assert !ReviewLost(st, ReviewedItem(st.jobs[j]).value);
    }
    forall i ensures Steady(st', i, lists) {
      DerivedFromRecords(st, st', i, lists);
      assert Steady(st, i, lists);
    }
  }

  lemma BeginningKeeps(st: StoreState, st': StoreState, lists: ClassificationLists)
    requires Recoverable(st) && Progress(st, st') && st' == st.(events := st'.events)
    ensures AllReviewable(st') <==> AllReviewable(st)
    ensures KeyedById(st') && (Quiescent(st, lists) ==> Quiescent(st', lists))
  {
    AllReviewableLasts(st, st');
    if Quiescent(st, lists) { QuiescentIgnoresLog(st, st', lists); }
  }
}
