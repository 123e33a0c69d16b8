/** The invariant holds at the start and survives every step, hence in every reachable state. */
module ProtocolProof {
  import opened Wrappers
  import opened Policy
  import opened Domain
  import opened Reconciliation
  import opened Store
  import opened Protocol
  import opened ProtocolInvariant
  import opened ProtocolGuarantee
  import opened ProtocolStability
  import opened ProtocolStore

  // ---------------------------------------------------------------- locks

  ghost predicate OwnLocks(s: State, t: Tid)
    requires t in s.pc
  {
    && (s.pc[t].HoldsLifecycle() <==> s.lifecycle == Some(t))
    && (s.pc[t].HoldsTriage() <==> s.triage == Some(t))
    && (s.pc[t].HoldsReader() <==> t in s.readers)
  }

  lemma LocksKept(s: State, s': State, t: Tid)
    requires Locks(s) && LocksGuarded(s, s', t) && t in s.pc && OwnLocks(s', t)
    ensures Locks(s')
  {
  }

  // ---------------------------------------------------------------- the store, group by group

  lemma NewPassFine(s: State, s': State, t: Tid, job: Job, issueId: Id, base: Id, brief: JobBrief, supersedes: Option<Id>)
    requires RecordsFine(s.st) && Guarantee(s, s', t)
    requires IsNewJob(s.st, job, issueId, base, brief, supersedes) && FeedbackKnown(s.st, brief.feedback)
    requires s'.st == s.st.PutJob(job)
    ensures RecordsFine(s'.st)
  {
    PutJobFine(s, s', t, job);
  }

  lemma DispatchRecords(s: State, s': State, t: Tid, d: DispatchPc)
    requires t in s.pc && t in s'.pc && RecordsFine(s.st) && Guarantee(s, s', t)
    requires DispatchHolds(s.st, d) && StepDispatch(s, s', t, d)
    ensures RecordsFine(s'.st)
  {
    if s'.st.jobs == s.st.jobs {
      OthersFine(s, s', t);
    } else if d.SupersedeLive? {
      RewrittenJobFine(s, s', t, d.previous, JobSupersede);
    } else {
      NewPassFine(s, s', t, s'.pc[t].d.job, if d.CreateRead? then d.issue.id else d.previous.issueId, d.base, d.brief,
                  if d.CreateRead? then None else Some(d.previous.id));
    }
  }

  lemma JobRecords(s: State, s': State, t: Tid, j: JobPc)
    requires t in s.pc && t in s'.pc && RecordsFine(s.st) && Guarantee(s, s', t)
    requires JobPcHolds(s.st, j) && StepJob(s, s', t, j)
    ensures RecordsFine(s'.st)
  {
    if s'.st == s.st { OthersFine(s, s', t); }
    else { RewrittenJobFine(s, s', t, j.job, if j.JobWrite? then j.op else JobCancel); }
  }

  /** The stored record is the one the writer read, so what it knew about it still applies. */
  lemma ActionRecords(s: State, s': State, t: Tid, a: ActionPc)
    requires t in s.pc && t in s'.pc && RecordsFine(s.st) && Guarantee(s, s', t)
    requires ActionPcHolds(s.st, a) && StepAction(s, s', t, a)
    ensures RecordsFine(s'.st)
  {
    if s'.st == s.st { OthersFine(s, s', t); }
    else if a.AdmitLive? { AdmittedFine(s, s', t, a); }
    else { ActionWriteRecords(s, s', t, a); }
  }

  lemma ActionWriteRecords(s: State, s': State, t: Tid, a: ActionPc)
    requires t in s.pc && t in s'.pc && RecordsFine(s.st) && Guarantee(s, s', t)
    requires a.ActionWrite? && ActionPcHolds(s.st, a) && StepAction(s, s', t, a) && s'.st != s.st
    ensures RecordsFine(s'.st)
  {
    RewrittenActionFine(s, s', t, a.action, a.op, a.now);
  }

  lemma AdmittedFine(s: State, s': State, t: Tid, a: ActionPc)
    requires t in s.pc && t in s'.pc && RecordsFine(s.st) && Guarantee(s, s', t)
    requires a.AdmitLive? && ActionPcHolds(s.st, a) && StepAction(s, s', t, a)
    ensures RecordsFine(s'.st)
  {
    PutActionFine(s, s', t, s'.pc[t].a.action);
  }

  lemma ExecuteRecords(s: State, s': State, t: Tid, x: ExecutePc)
    requires t in s.pc && t in s'.pc && RecordsFine(s.st) && Guarantee(s, s', t)
    requires StepExecute(s, s', t, x)
    ensures RecordsFine(s'.st)
  {
    if s'.st == s.st { OthersFine(s, s', t); }
    else { RewrittenActionFine(s, s', t, x.action, OpStart, x.now); }
  }

  lemma ClearRecords(s: State, s': State, t: Tid, c: ClearPc)
    requires t in s.pc && t in s'.pc && RecordsFine(s.st) && Guarantee(s, s', t)
    requires StepClear(s, s', t, c)
    ensures RecordsFine(s'.st)
  {
    if s'.st == s.st { OthersFine(s, s', t); }
    else if c.CancelJob? { RewrittenJobFine(s, s', t, c.job, JobCancel); }
    else { RewrittenActionFine(s, s', t, c.action, OpCancel, c.now); }
  }

  lemma OtherRecords(s: State, s': State, t: Tid, o: OtherPc)
    requires t in s.pc && t in s'.pc && RecordsFine(s.st) && Guarantee(s, s', t)
    requires StepOther(s, s', t, o)
    ensures RecordsFine(s'.st)
  {
    if s'.st.jobs == s.st.jobs && s'.st.actions == s.st.actions { OthersFine(s, s', t); }
    else if o.ImportJob? { PutJobFine(s, s', t, o.job); }
    else { PutActionFine(s, s', t, o.action); }
  }

  // ---------------------------------------------------------------- what the moved thread knows

  lemma LockedPc(s: State, s': State, t: Tid, task: Task)
    requires t in s.pc && t in s'.pc && RecordsFine(s.st) && KeyedById(s.st)
    requires TaskHolds(s.st, task) && StepLocked(s, s', t, task)
    ensures PcHolds(s', s'.pc[t])
  {
  }

  lemma DispatchPcKept(s: State, s': State, t: Tid, d: DispatchPc)
    requires t in s.pc && t in s'.pc && KeyedById(s.st) && Guarantee(s, s', t)
    requires DispatchHolds(s.st, d) && StepDispatch(s, s', t, d)
    ensures PcHolds(s', s'.pc[t])
  {
    if d.SupersedeLive? && s'.st != s.st {
      KnowledgeStable(s, s', t);
      FeedbackStable(s, s', t, d.brief.feedback);
    }
  }

  lemma JobPcKept(s: State, s': State, t: Tid, j: JobPc)
    requires t in s.pc && t in s'.pc && KeyedById(s.st) && RecordsFine(s.st)
    requires JobPcHolds(s.st, j) && StepJob(s, s', t, j)
    ensures PcHolds(s', s'.pc[t])
  {
    match j
    case CallbackIssue(job, result, issue, lists) =>
      if s'.pc[t] == OnJob(JobWrite(job, JobComplete(result))) {
        var actions :| ReadsActions(s.st, job.issueId, actions) && SolvedIsSupported(issue, s.st.snapshots[job.baseSnapshot], actions, lists);
        SupportIsEvidence(s.st, job, issue, actions, lists);
      }
    case _ =>
  }

  /** A supported claim is backed by the store it was checked against. */
  lemma SupportIsEvidence(st: StoreState, job: Job, issue: Issue, actions: seq<ActionRun>, lists: ClassificationLists)
    requires job.issueId in st.issues && issue.affected == st.issues[job.issueId].affected && job.baseSnapshot in st.snapshots
    requires ReadsActions(st, job.issueId, actions)
    requires SolvedIsSupported(issue, st.snapshots[job.baseSnapshot], actions, lists)
    ensures SolvedEvidence(st, job)
  {
    var a :| a in actions && IsRemediation(a, lists);
    RemediationIgnoresLists(a, lists);
    assert a.id in ActionsIn(st.actions, job.issueId);
    assert EvidenceFor(st, job, st.actions[a.id]);
  }

  lemma ActionPcKept(s: State, s': State, t: Tid, a: ActionPc)
    requires t in s.pc && t in s'.pc && KeyedById(s.st)
    requires ActionPcHolds(s.st, a) && StepAction(s, s', t, a)
    ensures PcHolds(s', s'.pc[t])
  {
    match a
    case Claimed(action, job) =>
      var policy, repeated :| DecidedAs(Decide(policy, action.intent, job.brief.scope,
                                               s.st.snapshots[action.beforeSnapshot].mode, repeated), s'.pc[t].a.op);
      NotRequiredIsAutomatic(policy, action.intent, job.brief.scope, s.st.snapshots[action.beforeSnapshot].mode, repeated);
    case _ =>
  }

  lemma ExecutePcKept(s: State, s': State, t: Tid, x: ExecutePc)
    requires t in s.pc && t in s'.pc && KeyedById(s.st)
    requires ExecuteHolds(s, x) && StepExecute(s, s', t, x)
    ensures PcHolds(s', s'.pc[t])
  {
  }

  lemma ReadJobsCovered(st: StoreState, i: Id, xs: seq<Job>)
    requires KeyedById(st) && ReadsJobs(st, i, xs)
    ensures JobsCovered(st, i, xs)
  {
    forall x | x in xs ensures x.id in st.jobs && x.issueId == i && JobEvolves(x, st.jobs[x.id]) {
      assert x.id in JobsIn(st.jobs, i);
    }
    forall id | id in st.jobs && st.jobs[id].issueId == i ensures exists x :: x in xs && x.id == id {
      assert id in JobsIn(st.jobs, i);
      assert st.jobs[id] in xs;
    }
  }

  lemma ReadActionsCovered(st: StoreState, i: Id, xs: seq<ActionRun>)
    requires KeyedById(st) && RecordsFine(st) && st.LiveIssue(i) && ReadsActions(st, i, xs)
    ensures ActionsCovered(st, i, xs)
  {
    forall x | x in xs ensures x.id in st.actions && x.issueId == i && ActionEvolves(x, st.actions[x.id]) && ActionConsistent(x) {
      assert x.id in ActionsIn(st.actions, i);
      assert ActionFine(st, st.actions[x.id]);
    }
    forall id | id in st.actions && st.actions[id].issueId == i ensures exists x :: x in xs && x.id == id {
      assert id in ActionsIn(st.actions, i);
      assert st.actions[id] in xs;
    }
  }

  lemma ReconcilePcKept(s: State, s': State, t: Tid, r: ReconcilePc)
    requires t in s.pc && t in s'.pc && KeyedById(s.st) && RecordsFine(s.st)
    requires ReconcileHolds(s.st, r) && StepReconcile(s, s', t, r)
    ensures PcHolds(s', s'.pc[t])
  {
    match r
    case ReconcileRead(issue) => ReadJobsCovered(s.st, issue.id, s'.pc[t].r.jobs);
    case ReconcileJobs(issue, jobs) => ReadActionsCovered(s.st, issue.id, s'.pc[t].r.actions);
    case _ =>
  }

  /** Each record taken off the pending set is out of reach for good. */
  lemma ClearPcKept(s: State, s': State, t: Tid, c: ClearPc)
    requires t in s.pc && t in s'.pc && KeyedById(s.st)
    requires ClearHolds(s.st, c) && StepClear(s, s', t, c)
    ensures s'.pc[t].Clearing? ==> s'.pc[t].c.issueId == c.issueId && ClearHolds(s'.st, s'.pc[t].c)
    ensures !s'.pc[t].Clearing? ==> s'.pc[t].Unlocking? && Quiet(s'.st, c.issueId)
  {
    if c.CancelJob? { ClearJobKept(s, s', t, c); }
    else if c.CancelAction? { ClearActionKept(s, s', t, c); }
  }

  lemma ClearJobKept(s: State, s': State, t: Tid, c: ClearPc)
    requires t in s.pc && t in s'.pc && KeyedById(s.st) && c.CancelJob?
    requires ClearHolds(s.st, c) && StepClear(s, s', t, c)
    ensures s'.pc[t].Clearing? && s'.pc[t].c.issueId == c.issueId && ClearHolds(s'.st, s'.pc[t].c)
  {
    if s'.st != s.st { JobRewriteEvolves(c.job, JobCancel); }
  }

  lemma ClearActionKept(s: State, s': State, t: Tid, c: ClearPc)
    requires t in s.pc && t in s'.pc && KeyedById(s.st) && c.CancelAction?
    requires ClearHolds(s.st, c) && StepClear(s, s', t, c)
    ensures s'.pc[t].Clearing? && s'.pc[t].c.issueId == c.issueId && ClearHolds(s'.st, s'.pc[t].c)
  {
    if s'.st != s.st { RewriteEvolves(c.action, OpCancel, c.now); }
  }

  lemma IntakePcKept(s: State, s': State, t: Tid, i: IntakePc)
    requires t in s.pc && t in s'.pc && KeyedById(s.st) && Intake(s.st)
    requires IntakeHolds(s.st, i) && StepIntake(s, s', t, i)
    ensures s'.pc[t].Intaking? && IntakeHolds(s'.st, s'.pc[t].i)
  {
    if i.ReportChecked? {
      forall id, r | OpenedBy(s'.st, id, r) ensures OpenedBy(s.st, id, r) {}
    }
  }

  // ---------------------------------------------------------------- one step, everything at once

  ghost predicate Context(s: State, t: Tid) {
    t in s.pc && OwnLocks(s, t) && KeyedById(s.st) && RecordsFine(s.st) && Intake(s.st)
  }

  /** An Issue of ours closes only by the lock holder that then clears it, and clearing ends in quiet. */
  ghost predicate ClosingOrderly(s: State, s': State, t: Tid)
    requires t in s.pc && t in s'.pc
  {
    && (forall i :: Closed(s'.st, i) && !Closed(s.st, i) ==> s'.pc[t] == Clearing(CancelList(i)))
    && (s.pc[t].Clearing? ==>
          || (s'.pc[t].Clearing? && s'.pc[t].c.issueId == s.pc[t].c.issueId)
          || Quiet(s'.st, s.pc[t].c.issueId))
  }

  ghost predicate Rest(s: State, s': State, t: Tid)
    requires t in s.pc
  {
    t in s'.pc && OwnLocks(s', t) && ClosingOrderly(s, s', t)
  }

  ghost predicate Moved(s: State, s': State, t: Tid)
    requires t in s.pc
  {
    Rest(s, s', t) && Guarantee(s, s', t) && RecordsFine(s'.st) && Intake(s'.st) && PcHolds(s', s'.pc[t])
  }

  lemma LockingMoved(s: State, s': State, t: Tid)
    requires Context(s, t) && t in s'.pc && PcHolds(s, s.pc[t]) && StepLocking(s, s', t)
    ensures Moved(s, s', t)
  {
    LockingGuaranteed(s, s', t);
    assert s'.st == s.st;
    LockingRest(s, s', t);
    BeginsHold(s, s', t);
  }

  lemma LockingRest(s: State, s': State, t: Tid)
    requires t in s.pc && OwnLocks(s, t) && t in s'.pc && StepLocking(s, s', t)
    ensures Rest(s, s', t)
  {
  }

  lemma BeginsHold(s: State, s': State, t: Tid)
    requires t in s.pc && t in s'.pc && KeyedById(s.st) && RecordsFine(s.st) && PcHolds(s, s.pc[t]) && StepLocking(s, s', t)
    ensures PcHolds(s', s'.pc[t]) && s'.st == s.st
  {
  }

  lemma LockedMoved(s: State, s': State, t: Tid, task: Task)
    requires Context(s, t) && t in s'.pc && s.pc[t] == Locked(task) && TaskHolds(s.st, task) && StepLocked(s, s', t, task)
    ensures Moved(s, s', t)
  {
    LockedGuaranteed(s, s', t, task);
    OthersFine(s, s', t);
    LockedPc(s, s', t, task);
    LockedRest(s, s', t, task);
  }

  lemma LockedRest(s: State, s': State, t: Tid, task: Task)
    requires t in s.pc && OwnLocks(s, t) && t in s'.pc && s.pc[t] == Locked(task) && StepLocked(s, s', t, task)
    ensures Rest(s, s', t) && s'.st == s.st
  {
  }

  lemma DispatchRest(s: State, s': State, t: Tid, d: DispatchPc)
    requires Context(s, t) && t in s'.pc && s.pc[t] == Dispatching(d) && StepDispatch(s, s', t, d)
    ensures Rest(s, s', t)
  {
  }

  lemma DispatchMoved(s: State, s': State, t: Tid, d: DispatchPc)
    requires Context(s, t) && t in s'.pc && s.pc[t] == Dispatching(d) && DispatchHolds(s.st, d) && StepDispatch(s, s', t, d)
    ensures Moved(s, s', t)
  {
    DispatchGuaranteed(s, s', t, d);
    DispatchRecords(s, s', t, d);
    DispatchPcKept(s, s', t, d);
    DispatchRest(s, s', t, d);
    IntakeKept(s, s', t);
  }

  lemma JobRest(s: State, s': State, t: Tid, j: JobPc)
    requires Context(s, t) && t in s'.pc && s.pc[t] == OnJob(j) && StepJob(s, s', t, j)
    ensures Rest(s, s', t)
  {
  }

  lemma JobMoved(s: State, s': State, t: Tid, j: JobPc)
    requires Context(s, t) && t in s'.pc && s.pc[t] == OnJob(j) && JobPcHolds(s.st, j) && StepJob(s, s', t, j)
    ensures Moved(s, s', t)
  {
    JobGuaranteed(s, s', t, j);
    JobRecords(s, s', t, j);
    JobPcKept(s, s', t, j);
    JobRest(s, s', t, j);
    IntakeKept(s, s', t);
  }

  lemma ActionRest(s: State, s': State, t: Tid, a: ActionPc)
    requires Context(s, t) && t in s'.pc && s.pc[t] == OnAction(a) && StepAction(s, s', t, a)
    ensures Rest(s, s', t)
  {
  }

  lemma ActionMoved(s: State, s': State, t: Tid, a: ActionPc)
    requires Context(s, t) && t in s'.pc && s.pc[t] == OnAction(a) && ActionPcHolds(s.st, a) && StepAction(s, s', t, a)
    ensures Moved(s, s', t)
  {
    ActionGuaranteed(s, s', t, a);
    ActionRecords(s, s', t, a);
    ActionPcKept(s, s', t, a);
    ActionRest(s, s', t, a);
    IntakeKept(s, s', t);
  }

  lemma ExecuteRest(s: State, s': State, t: Tid, x: ExecutePc)
    requires Context(s, t) && t in s'.pc && s.pc[t] == Executing(x) && StepExecute(s, s', t, x)
    ensures Rest(s, s', t)
  {
  }

  lemma ExecuteMoved(s: State, s': State, t: Tid, x: ExecutePc)
    requires Context(s, t) && t in s'.pc && s.pc[t] == Executing(x) && ExecuteHolds(s, x) && StepExecute(s, s', t, x)
    ensures Moved(s, s', t)
  {
    ExecuteGuaranteed(s, s', t, x);
    ExecuteRecords(s, s', t, x);
    ExecutePcKept(s, s', t, x);
    ExecuteRest(s, s', t, x);
    IntakeKept(s, s', t);
  }

  lemma ReconcileRest(s: State, s': State, t: Tid, r: ReconcilePc)
    requires Context(s, t) && t in s'.pc && s.pc[t] == Reconciling(r) && StepReconcile(s, s', t, r)
    ensures Rest(s, s', t)
  {
  }

  lemma ReconcileMoved(s: State, s': State, t: Tid, r: ReconcilePc)
    requires Context(s, t) && t in s'.pc && s.pc[t] == Reconciling(r) && ReconcileHolds(s.st, r) && StepReconcile(s, s', t, r)
    ensures Moved(s, s', t)
  {
    ReconcileGuaranteed(s, s', t, r);
    OthersFine(s, s', t);
    ReconcilePcKept(s, s', t, r);
    ReconcileRest(s, s', t, r);
    IntakeKept(s, s', t);
  }

  lemma ClearMoved(s: State, s': State, t: Tid, c: ClearPc)
    requires Context(s, t) && t in s'.pc && s.pc[t] == Clearing(c) && ClearHolds(s.st, c) && StepClear(s, s', t, c)
    ensures Moved(s, s', t)
  {
    ClearGuaranteed(s, s', t, c);
    ClearRecords(s, s', t, c);
    ClearPcKept(s, s', t, c);
    ClearRest(s, s', t, c);
    IntakeKept(s, s', t);
  }

  lemma ClearRest(s: State, s': State, t: Tid, c: ClearPc)
    requires t in s.pc && OwnLocks(s, t) && t in s'.pc && s.pc[t] == Clearing(c) && StepClear(s, s', t, c)
    requires s'.pc[t].Clearing? ==> s'.pc[t].c.issueId == c.issueId
    requires s'.pc[t].Clearing? ==> ClearHolds(s'.st, s'.pc[t].c)
    requires !s'.pc[t].Clearing? ==> s'.pc[t].Unlocking? && Quiet(s'.st, c.issueId)
    ensures Rest(s, s', t) && PcHolds(s', s'.pc[t]) && s'.st.issues == s.st.issues
  {
  }

  lemma IntakeRest(s: State, s': State, t: Tid, i: IntakePc)
    requires Context(s, t) && t in s'.pc && s.pc[t] == Intaking(i) && IntakeHolds(s.st, i) && StepIntake(s, s', t, i)
    requires s'.pc[t].Intaking?
    ensures Rest(s, s', t)
  {
  }

  lemma IntakeMoved(s: State, s': State, t: Tid, i: IntakePc)
    requires Context(s, t) && t in s'.pc && s.pc[t] == Intaking(i) && IntakeHolds(s.st, i) && StepIntake(s, s', t, i)
    ensures Moved(s, s', t)
  {
    IntakeStoreMoved(s, s', t, i);
    IntakePcKept(s, s', t, i);
    IntakeRest(s, s', t, i);
  }

  lemma IntakeStoreMoved(s: State, s': State, t: Tid, i: IntakePc)
    requires Context(s, t) && t in s'.pc && s.pc[t] == Intaking(i) && IntakeHolds(s.st, i) && StepIntake(s, s', t, i)
    ensures Guarantee(s, s', t) && RecordsFine(s'.st) && Intake(s'.st)
  {
    IntakeGuaranteed(s, s', t, i);
    OthersFine(s, s', t);
    IntakeIntake(s, s', t, i);
  }

  lemma IntakeIntake(s: State, s': State, t: Tid, i: IntakePc)
    requires t in s.pc && t in s'.pc && Intake(s.st) && Guarantee(s, s', t)
    requires IntakeHolds(s.st, i) && StepIntake(s, s', t, i)
    ensures Intake(s'.st)
  {
    match i
    case TriageAccept(c, _) => TriagedIssueFine(s, s', s'.pc[t].i.made.value, c.dedupKey);
    case ReportAppended(r, _, _) => ReportedIssueFine(s, s', s'.pc[t].i.made.value, r.reportId);
    case _ => IntakeKept(s, s', t);
  }

  lemma OtherMoved(s: State, s': State, t: Tid, o: OtherPc)
    requires Context(s, t) && t in s'.pc && s.pc[t] == Other(o) && OtherHolds(o) && StepOther(s, s', t, o)
    ensures Moved(s, s', t)
  {
    OtherGuaranteed(s, s', t, o);
    OtherRecords(s, s', t, o);
    OtherRest(s, s', t, o);
    IntakeKept(s, s', t);
  }

  lemma OtherRest(s: State, s': State, t: Tid, o: OtherPc)
    requires t in s.pc && OwnLocks(s, t) && t in s'.pc && s.pc[t] == Other(o) && OtherHolds(o) && StepOther(s, s', t, o)
    ensures Rest(s, s', t) && s'.pc[t].Idle?
    ensures forall i :: i in s'.st.issues && i !in s.st.issues ==> s'.st.issues[i].archived
  {
  }

  predicate OnRecords(p: Pc) { p.Locked? || p.Dispatching? || p.OnJob? || p.OnAction? || p.Executing? }

  lemma RecordStepMoved(s: State, s': State, t: Tid)
    requires Context(s, t) && OnRecords(s.pc[t]) && PcHolds(s, s.pc[t]) && Step(s, s', t)
    ensures Moved(s, s', t)
  {
    assert AtPc(s, t, s.pc[t]);
    match s.pc[t]
    case Locked(task) => LockedMoved(s, s', t, task);
    case Dispatching(d) => DispatchMoved(s, s', t, d);
    case OnJob(j) => JobMoved(s, s', t, j);
    case OnAction(a) => ActionMoved(s, s', t, a);
    case Executing(x) => ExecuteMoved(s, s', t, x);
  }

  predicate OnIssues(p: Pc) { p.Reconciling? || p.Clearing? }

  lemma IssueStepMoved(s: State, s': State, t: Tid)
    requires Context(s, t) && OnIssues(s.pc[t]) && PcHolds(s, s.pc[t]) && Step(s, s', t)
    ensures Moved(s, s', t)
  {
    assert AtPc(s, t, s.pc[t]);
    match s.pc[t]
    case Reconciling(r) => ReconcileMoved(s, s', t, r);
    case Clearing(c) => ClearMoved(s, s', t, c);
  }

  lemma IntakeStepMoved(s: State, s': State, t: Tid)
    requires Context(s, t) && s.pc[t].Intaking? && PcHolds(s, s.pc[t]) && Step(s, s', t)
    ensures Moved(s, s', t)
  {
    assert AtPc(s, t, s.pc[t]);
    if StepIntake(s, s', t, s.pc[t].i) { IntakeMoved(s, s', t, s.pc[t].i); } else { LockingMoved(s, s', t); }
  }

  lemma OtherStepMoved(s: State, s': State, t: Tid)
    requires Context(s, t) && !OnRecords(s.pc[t]) && !OnIssues(s.pc[t]) && !s.pc[t].Intaking?
    requires PcHolds(s, s.pc[t]) && Step(s, s', t)
    ensures Moved(s, s', t)
  {
    assert AtPc(s, t, s.pc[t]);
    if s.pc[t].Other? { OtherMoved(s, s', t, s.pc[t].o); } else { LockingMoved(s, s', t); }
  }

  lemma ClosedQuietKept(s: State, s': State, t: Tid)
    requires Locks(s) && ClosedQuiet(s) && t in s.pc && t in s'.pc
    requires Guarantee(s, s', t) && OwnLocks(s', t) && ClosingOrderly(s, s', t)
    ensures ClosedQuiet(s')
  {
    forall i | Closed(s'.st, i) ensures Quiet(s'.st, i) || BeingCleared(s', i) {
      if Closed(s.st, i) {
        ClosedStable(s, s', t, i);
        if !Quiet(s.st, i) {
          assert BeingCleared(s, i);
        }
      }
    }
  }

  lemma StepMoved(s: State, s': State, t: Tid)
    requires Context(s, t) && PcHolds(s, s.pc[t]) && Step(s, s', t)
    ensures Moved(s, s', t)
  {
    if OnRecords(s.pc[t]) { RecordStepMoved(s, s', t); }
    else if OnIssues(s.pc[t]) { IssueStepMoved(s, s', t); }
    else if s.pc[t].Intaking? { IntakeStepMoved(s, s', t); }
    else { OtherStepMoved(s, s', t); }
  }

  /** The invariant survives every step of every thread. */
  lemma InvKept(s: State, s': State, t: Tid)
    requires Inv(s) && Step(s, s', t)
    ensures Inv(s') && Guarantee(s, s', t)
  {
    InvContext(s, t);
    StepMoved(s, s', t);
    LocksKept(s, s', t);
    ClosedQuietKept(s, s', t);
    OthersKeepPcs(s, s', t);
  }

  lemma InvContext(s: State, t: Tid)
    requires Inv(s) && t in s.pc
    ensures Context(s, t) && PcHolds(s, s.pc[t])
  {
  }

  lemma OthersKeepPcs(s: State, s': State, t: Tid)
    requires Inv(s) && t in s.pc && t in s'.pc && Guarantee(s, s', t) && PcHolds(s', s'.pc[t])
    ensures forall u :: u in s'.pc ==> PcHolds(s', s'.pc[u])
  {
    forall u | u in s'.pc ensures PcHolds(s', s'.pc[u]) {
      if u != t { PcStable(s, s', t, u); }
    }
  }

  // ---------------------------------------------------------------- runs

  /** A started controller: nobody is working and no closed Issue has work left. The store may hold
      anything earlier runs and imports left that satisfies the store invariant. */
  ghost predicate Init(s: State) {
    && StoreInvariant(s.st)
    && (forall i :: Closed(s.st, i) ==> Quiet(s.st, i))
    && s.lifecycle.None? && s.triage.None? && s.readers == {}
    && forall t :: t in s.pc ==> s.pc[t].Idle?
  }

  ghost predicate StepsTo(s: State, s': State) { exists t :: Step(s, s', t) }

  ghost predicate IsRun(run: seq<State>) {
    && run != [] && Init(run[0])
    && forall k :: 0 <= k < |run| - 1 ==> StepsTo(run[k], run[k + 1])
  }

  lemma InitInv(s: State)
    requires Init(s)
    ensures Inv(s)
  {
  }

  /** Any number of threads, any interleaving: the invariant holds in every state of every run. */
  lemma {:induction false} RunInv(run: seq<State>, k: nat)
    requires IsRun(run) && k < |run|
    ensures Inv(run[k])
  {
    if k == 0 {
      InitInv(run[0]);
    } else {
      RunInv(run, k - 1);
      assert StepsTo(run[k - 1], run[k - 1 + 1]);
      var t :| Step(run[k - 1], run[k], t);
      InvKept(run[k - 1], run[k], t);
    }
  }

  /** Some run leads from the one state to the other. */
  ghost predicate Reaches(start: State, s: State) {
    exists run :: IsRun(run) && run[0] == start && run[|run| - 1] == s
  }

  lemma ReachesStart(start: State)
    requires Init(start)
    ensures Reaches(start, start)
  {
    assert IsRun([start]);
  }

  lemma ReachesNext(start: State, s: State, s': State, t: Tid)
    requires Reaches(start, s) && Step(s, s', t)
    ensures Reaches(start, s')
  {
    var run :| IsRun(run) && run[0] == start && run[|run| - 1] == s;
    assert StepsTo(s, s');
    RunGrows(run, s');
  }

  lemma RunGrows(run: seq<State>, next: State)
    requires IsRun(run) && StepsTo(run[|run| - 1], next)
    ensures IsRun(run + [next]) && (run + [next])[0] == run[0] && (run + [next])[|run|] == next
  {
    var longer := run + [next];
    forall k | 0 <= k < |longer| - 1 ensures StepsTo(longer[k], longer[k + 1]) {
      if k < |run| - 1 { assert StepsTo(run[k], run[k + 1]); }
    }
  }

  lemma ReachedInv(start: State, s: State)
    requires Reaches(start, s)
    ensures Inv(s)
  {
    var run :| IsRun(run) && run[0] == start && run[|run| - 1] == s;
    RunInv(run, |run| - 1);
  }

  /** What every thread may assume in every state of every run. */
  lemma RunContext(run: seq<State>, k: nat, t: Tid)
    requires IsRun(run) && k < |run| && t in run[k].pc
    ensures Context(run[k], t) && PcHolds(run[k], run[k].pc[t])
  {
    RunInv(run, k);
  }
}
