/** What a thread relies on survives every step of every other thread. */
module ProtocolStability {
  import opened Wrappers
  import opened Policy
  import opened Domain
  import opened Reconciliation
  import opened Store
  import opened Protocol
  import opened ProtocolInvariant
  import opened Verification

  /** Facts about single records survive any step, locks or no locks. */
  lemma KnowledgeStable(s: State, s': State, t: Tid)
    requires Guarantee(s, s', t)
    ensures forall j :: KnowsJob(s.st, j) ==> KnowsJob(s'.st, j)
    ensures forall a :: KnowsAction(s.st, a) ==> KnowsAction(s'.st, a)
    ensures forall i :: s.st.Ours(i) ==> s'.st.Ours(i)
  {
  }

  lemma FeedbackStable(s: State, s': State, t: Tid, feedback: seq<HumanFeedback>)
    requires Guarantee(s, s', t) && FeedbackKnown(s.st, feedback)
    ensures FeedbackKnown(s'.st, feedback)
  {
    forall k | 0 <= k < |feedback| ensures OriginKnown(s'.st, feedback[k].origin) {
      assert OriginKnown(s.st, feedback[k].origin);
    }
  }

  lemma TaskStable(s: State, s': State, t: Tid, task: Task)
    requires Guarantee(s, s', t) && TaskHolds(s.st, task)
    ensures TaskHolds(s'.st, task)
  {
    KnowledgeStable(s, s', t);
    if task.Create? || task.Supersede? { FeedbackStable(s, s', t, task.brief.feedback); }
  }

  lemma AutomaticStable(s: State, s': State, t: Tid, a: ActionRun)
    requires Guarantee(s, s', t) && Automatic(s.st, a)
    ensures Automatic(s'.st, a)
  {
  }

  lemma EvidenceStable(s: State, s': State, t: Tid, job: Job)
    requires Guarantee(s, s', t) && SolvedEvidence(s.st, job)
    ensures SolvedEvidence(s'.st, job)
  {
    var id :| id in s.st.actions && EvidenceFor(s.st, job, s.st.actions[id]);
    assert ActionEvolves(s.st.actions[id], s'.st.actions[id]);
    assert EvidenceFor(s'.st, job, s'.st.actions[id]);
  }

  /** The lock holder's two readings stay complete: nobody else adds to a live Issue. */
  lemma JobsCoveredStable(s: State, s': State, t: Tid, i: Id, xs: seq<Job>)
    requires Guarantee(s, s', t) && s.lifecycle != Some(t) && s.st.LiveIssue(i)
    requires JobsCovered(s.st, i, xs)
    ensures JobsCovered(s'.st, i, xs)
  {
    forall x | x in xs ensures x.id in s'.st.jobs && JobEvolves(x, s'.st.jobs[x.id]) {
      JobEvolvesTransitive(x, s.st.jobs[x.id], s'.st.jobs[x.id]);
    }
    forall id | id in s'.st.jobs && s'.st.jobs[id].issueId == i ensures exists x :: x in xs && x.id == id {
      assert id in s.st.jobs && s.st.jobs[id].issueId == i;
    }
  }

  lemma ActionsCoveredStable(s: State, s': State, t: Tid, i: Id, xs: seq<ActionRun>)
    requires Guarantee(s, s', t) && s.lifecycle != Some(t) && s.st.LiveIssue(i)
    requires ActionsCovered(s.st, i, xs)
    ensures ActionsCovered(s'.st, i, xs)
  {
    forall x | x in xs ensures x.id in s'.st.actions && ActionEvolves(x, s'.st.actions[x.id]) {
      ActionEvolvesTransitive(x, s.st.actions[x.id], s'.st.actions[x.id]);
    }
    forall id | id in s'.st.actions && s'.st.actions[id].issueId == i ensures exists x :: x in xs && x.id == id {
      assert id in s.st.actions && s.st.actions[id].issueId == i;
    }
  }

  /** A closed Issue of ours gets no new records, and none of its records comes back to life. */
  lemma ClosedStable(s: State, s': State, t: Tid, i: Id)
    requires Guarantee(s, s', t) && Closed(s.st, i)
    ensures Closed(s'.st, i)
    ensures forall pending :: JobsPending(s.st, i, pending) ==> JobsPending(s'.st, i, pending)
    ensures forall pending :: ActionsPending(s.st, i, pending) ==> ActionsPending(s'.st, i, pending)
    ensures Quiet(s.st, i) ==> Quiet(s'.st, i)
  {
    forall id | id in s'.st.jobs && s'.st.jobs[id].issueId == i
      ensures id in s.st.jobs && s.st.jobs[id].issueId == i
              && (s.st.jobs[id].status.IsTerminal() ==> s'.st.jobs[id].status.IsTerminal())
    {
      assert !s.st.LiveIssue(i);
    }
    forall id | id in s'.st.actions && s'.st.actions[id].issueId == i
      ensures id in s.st.actions && s.st.actions[id].issueId == i
              && (s'.st.actions[id].status.IsUnstarted() ==> s.st.actions[id].status.IsUnstarted())
    {
      assert !s.st.LiveIssue(i);
    }
  }

  lemma ClearStable(s: State, s': State, t: Tid, c: ClearPc)
    requires Guarantee(s, s', t) && ClearHolds(s.st, c)
    ensures ClearHolds(s'.st, c)
  {
    ClosedStable(s, s', t, c.issueId);
    match c
    case CancelJob(_, _, job) => JobEvolvesTransitive(job, s.st.jobs[job.id], s'.st.jobs[job.id]);
    case CancelAction(_, _, a, _) => ActionEvolvesTransitive(a, s.st.actions[a.id], s'.st.actions[a.id]);
    case _ =>
  }

  /** Only the triage holder opens Issues of ours, so its decision stays right until it writes. */
  lemma IntakeStable(s: State, s': State, t: Tid, i: IntakePc)
    requires Guarantee(s, s', t) && Intake(s.st) && s.triage != Some(t)
    requires IntakeHolds(s.st, i)
    ensures IntakeHolds(s'.st, i)
  {
    forall id, key | LiveWithKey(s'.st, id, key) ensures LiveWithKey(s.st, id, key) {
      assert id in s.st.issues;
    }
    forall id, r | OpenedBy(s'.st, id, r) ensures OpenedBy(s.st, id, r) {
      assert id in s.st.issues && s.st.Ours(id);
    }
  }

  lemma DispatchStable(s: State, s': State, t: Tid, d: DispatchPc)
    requires Guarantee(s, s', t) && s.lifecycle != Some(t) && DispatchHolds(s.st, d)
    ensures DispatchHolds(s'.st, d)
  {
    KnowledgeStable(s, s', t);
    match d
    case DispatchAllowed(task) => TaskStable(s, s', t, task);
    case CreateInserted(_, _) =>
    case SupersedeInserted(_) =>
    case _ => FeedbackStable(s, s', t, d.brief.feedback);
  }

  lemma JobPcStable(s: State, s': State, t: Tid, j: JobPc)
    requires Guarantee(s, s', t) && JobPcHolds(s.st, j)
    ensures JobPcHolds(s'.st, j)
  {
    KnowledgeStable(s, s', t);
    if j.JobWrite? && j.op.JobComplete? && j.op.result.outcome.Solved? { EvidenceStable(s, s', t, j.job); }
  }

  lemma ActionPcStable(s: State, s': State, t: Tid, a: ActionPc)
    requires Guarantee(s, s', t) && ActionPcHolds(s.st, a)
    requires a.AdmitLive? ==> s.lifecycle != Some(t)
    ensures ActionPcHolds(s'.st, a)
  {
    KnowledgeStable(s, s', t);
    if a.ActionWrite? && a.op == OpApply(NotRequired) { AutomaticStable(s, s', t, a.action); }
    if a.ActionWrite? && a.op.OpVerify? { VerdictStable(s, s', t, a.action, a.op); }
  }

  /** Snapshots are never replaced, so a verdict by them stays what it was. */
  lemma VerdictStable(s: State, s': State, t: Tid, a: ActionRun, op: ActionOp)
    requires Guarantee(s, s', t) && op.OpVerify? && VerdictHolds(s.st, a, op)
    ensures VerdictHolds(s'.st, a, op)
  {
    if s'.st.Ours(a.issueId) {
      var lists :| Judged(s.st, a, lists, op.after, Verdict(op.passed, op.graded));
      assert Judged(s'.st, a, lists, op.after, Verdict(op.passed, op.graded));
    }
  }

  lemma HealedStable(s: State, s': State, t: Tid, a: ActionRun)
    requires Guarantee(s, s', t) && SeenHealed(s.st, a)
    ensures SeenHealed(s'.st, a)
  {
  }

  lemma ExecuteStable(s: State, s': State, t: Tid, x: ExecutePc)
    requires Guarantee(s, s', t) && ExecuteHolds(s, x)
    requires !x.AtPlatform? ==> s.lifecycle != Some(t)
    requires x.HoldsReader() ==> s.readers != {}
    ensures ExecuteHolds(s', x)
  {
    KnowledgeStable(s, s', t);
  }

  lemma ReconcileStable(s: State, s': State, t: Tid, r: ReconcilePc)
    requires Guarantee(s, s', t) && s.lifecycle != Some(t) && ReconcileHolds(s.st, r)
    ensures ReconcileHolds(s'.st, r)
  {
    match r
    case ReconcileRead(issue) =>
    case ReconcileJobs(issue, jobs) => JobsCoveredStable(s, s', t, issue.id, jobs);
    case ReconcileActions(issue, jobs, actions, _) =>
      JobsCoveredStable(s, s', t, issue.id, jobs);
      ActionsCoveredStable(s, s', t, issue.id, actions);
    case CloseRead(issue, _) =>
  }

  lemma PcStable(s: State, s': State, t: Tid, u: Tid)
    requires Guarantee(s, s', t) && Intake(s.st)
    requires u in s.pc && u != t && PcHolds(s, s.pc[u])
    requires s.pc[u].HoldsLifecycle() ==> s.lifecycle == Some(u)
    requires s.pc[u].HoldsTriage() ==> s.triage == Some(u)
    requires s.pc[u].HoldsReader() ==> u in s.readers
    ensures PcHolds(s', s.pc[u])
  {
    match s.pc[u]
    case WaitLifecycle(task) => TaskStable(s, s', t, task);
    case Locked(task) => TaskStable(s, s', t, task);
    case Dispatching(d) => DispatchStable(s, s', t, d);
    case OnJob(j) => JobPcStable(s, s', t, j);
    case OnAction(a) => ActionPcStable(s, s', t, a);
    case Executing(x) => ExecuteStable(s, s', t, x);
    case Reconciling(r) => ReconcileStable(s, s', t, r);
    case Clearing(c) => ClearStable(s, s', t, c);
    case Intaking(i) => IntakeStable(s, s', t, i);
    case _ =>
  }
}
