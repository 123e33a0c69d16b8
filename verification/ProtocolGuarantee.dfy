/** Every step of every operation stays within the guarantee. */
module ProtocolGuarantee {
  import opened Wrappers
  import opened Policy
  import opened Domain
  import opened Reconciliation
  import opened Store
  import opened Protocol
  import opened ProtocolInvariant

  /** What a step needs of the locks: its own thread's share. */
  ghost predicate Local(s: State, t: Tid) {
    && t in s.pc && KeyedById(s.st)
    && (s.pc[t].HoldsLifecycle() ==> s.lifecycle == Some(t))
    && (s.pc[t].HoldsTriage() ==> s.triage == Some(t))
    && (s.pc[t].HoldsReader() ==> t in s.readers)
  }

  /** Only the thread's own place and its own locks changed. */
  predicate OnlyLocks(s: State, s': State, t: Tid) {
    t in s.pc && t in s'.pc && s'.st == s.st && s'.pc == s.pc[t := s'.pc[t]]
  }

  lemma LocksOnly(s: State, s': State, t: Tid)
    requires OnlyLocks(s, s', t) && LocksGuarded(s, s', t)
    ensures Guarantee(s, s', t)
  {
  }

  lemma SameLocks(s: State, s': State, t: Tid)
    requires t in s.pc && t in s'.pc && s' == Save(s, s'.st, t, s'.pc[t])
    ensures LocksGuarded(s, s', t)
  {
  }

  lemma GotoGuaranteed(s: State, s': State, t: Tid, p: Pc)
    requires t in s.pc && s' == Goto(s, t, p)
    ensures Guarantee(s, s', t)
  {
    SameLocks(s, s', t);
    LocksOnly(s, s', t);
  }

  lemma PutJobGuaranteed(s: State, s': State, t: Tid, was: Job, op: JobOp, p: Pc)
    requires t in s.pc && s.st.HoldsJob(was) && op.Run(was).Ok?
    requires s' == Save(s, s.st.PutJob(op.Run(was).value), t, p)
    ensures Guarantee(s, s', t)
  {
    JobRewriteEvolves(was, op);
    SameLocks(s, s', t);
  }

  lemma PutActionGuaranteed(s: State, s': State, t: Tid, was: ActionRun, op: ActionOp, now: nat, p: Pc)
    requires t in s.pc && s.st.Holds(was) && op.Run(was, now).Ok?
    requires op.OpStart? ==> s.mode.AllowsActions() && s.st.LiveIssue(was.issueId)
    requires s' == Save(s, s.st.PutAction(op.Run(was, now).value), t, p)
    ensures Guarantee(s, s', t)
  {
    RewriteAdvances(was, op, now);
    ActionStored(s, s', t, was, op.Run(was, now).value, p);
  }

  lemma ActionStored(s: State, s': State, t: Tid, was: ActionRun, next: ActionRun, p: Pc)
    requires t in s.pc && s.st.Holds(was) && ActionEvolves(was, next) && next.id == was.id
    requires was.startedAt.None? && next.startedAt.Some? ==> StartAllowed(s, was)
    requires s' == Save(s, s.st.PutAction(next), t, p)
    ensures Guarantee(s, s', t)
  {
    SameLocks(s, s', t);
  }

  lemma PutIssueGuaranteed(s: State, s': State, t: Tid, was: Issue, next: Issue, p: Pc)
    requires t in s.pc && s.st.HoldsIssue(was) && IssueEvolves(was, next)
    requires next.status.IsTerminal() && !was.status.IsTerminal() ==> s.lifecycle == Some(t)
    requires s' == Save(s, s.st.PutIssue(next), t, p)
    ensures Guarantee(s, s', t)
  {
    SameLocks(s, s', t);
  }

  lemma NewIssueGuaranteed(s: State, s': State, t: Tid, i: Issue, p: Pc)
    requires t in s.pc && i.id !in s.st.issues
    requires i.archived || (i.status.Open? && s.triage == Some(t))
    requires s' == Save(s, s.st.PutIssue(i), t, p)
    ensures Guarantee(s, s', t)
  {
    SameLocks(s, s', t);
  }

  /** Who may add a record to an Issue. */
  ghost predicate MayAddTo(s: State, t: Tid, i: Id) {
    i in s.st.issues && (s.st.issues[i].archived || (s.lifecycle == Some(t) && s.st.LiveIssue(i)))
  }

  lemma NewJobGuaranteed(s: State, s': State, t: Tid, j: Job, p: Pc)
    requires t in s.pc && j.id !in s.st.jobs && MayAddTo(s, t, j.issueId)
    requires s' == Save(s, s.st.PutJob(j), t, p)
    ensures Guarantee(s, s', t)
  {
    SameLocks(s, s', t);
  }

  lemma NewActionGuaranteed(s: State, s': State, t: Tid, a: ActionRun, p: Pc)
    requires t in s.pc && a.id !in s.st.actions && MayAddTo(s, t, a.issueId)
    requires !s.st.issues[a.issueId].archived ==> a.startedAt.None?
    requires s' == Save(s, s.st.PutAction(a), t, p)
    ensures Guarantee(s, s', t)
  {
    SameLocks(s, s', t);
  }

  lemma LogGuaranteed(s: State, s': State, t: Tid, p: Pc)
    requires t in s.pc && LogGuarded(s, s')
    requires s' == Save(s, s.st.(events := s'.st.events, snapshots := s'.st.snapshots), t, p)
    ensures Guarantee(s, s', t)
  {
    SameLocks(s, s', t);
  }

  // ---------------------------------------------------------------- the operations

  lemma LocksMoveOnly(s: State, s': State, t: Tid)
    requires Local(s, t) && OnlyLocks(s, s', t) && s'.mode == s.mode
    requires s'.lifecycle == s.lifecycle || (s.lifecycle.None? && s'.lifecycle == Some(t))
             || (s.pc[t].HoldsLifecycle() && s'.lifecycle.None?)
    requires s'.triage == s.triage || (s.triage.None? && s'.triage == Some(t)) || (s.pc[t].HoldsTriage() && s'.triage.None?)
    requires s'.readers == s.readers || s'.readers == s.readers + {t} || s'.readers == s.readers - {t}
    ensures Guarantee(s, s', t)
  {
    assert LocksGuarded(s, s', t);
    LocksOnly(s, s', t);
  }

  lemma LockingGuaranteed(s: State, s': State, t: Tid)
    requires Local(s, t) && t in s'.pc && StepLocking(s, s', t)
    ensures Guarantee(s, s', t)
  {
    LocksMoveOnly(s, s', t);
  }

  lemma LockedGuaranteed(s: State, s': State, t: Tid, task: Task)
    requires Local(s, t) && t in s'.pc && s.pc[t] == Locked(task) && StepLocked(s, s', t, task)
    ensures Guarantee(s, s', t)
  {
    LocksMoveOnly(s, s', t);
  }

  lemma DispatchGuaranteed(s: State, s': State, t: Tid, d: DispatchPc)
    requires Local(s, t) && t in s'.pc && s.pc[t] == Dispatching(d) && StepDispatch(s, s', t, d)
    requires DispatchHolds(s.st, d)
    ensures Guarantee(s, s', t)
  {
    var p := s'.pc[t];
    if s' == Goto(s, t, p) {
      GotoGuaranteed(s, s', t, p);
    } else {
      match d
      case CreateRead(issue, base, brief) => NewJobGuaranteed(s, s', t, p.d.job, p);
      case CreateInserted(issue, job) => PutIssueGuaranteed(s, s', t, issue, issue.(status := Investigating), p);
      case SupersedeLive(previous, base, brief) => PutJobGuaranteed(s, s', t, previous, JobSupersede, p);
      case SupersedeMarked(previous, base, brief) => NewJobGuaranteed(s, s', t, p.d.job, p);
      case _ =>
    }
  }

  lemma JobGuaranteed(s: State, s': State, t: Tid, j: JobPc)
    requires Local(s, t) && t in s'.pc && s.pc[t] == OnJob(j) && StepJob(s, s', t, j)
    requires JobPcHolds(s.st, j)
    ensures Guarantee(s, s', t)
  {
    var p := s'.pc[t];
    if s' == Goto(s, t, p) {
      GotoGuaranteed(s, s', t, p);
    } else {
      PutJobGuaranteed(s, s', t, j.job, if j.JobWrite? then j.op else JobCancel, p);
    }
  }

  lemma ActionGuaranteed(s: State, s': State, t: Tid, a: ActionPc)
    requires Local(s, t) && t in s'.pc && s.pc[t] == OnAction(a) && StepAction(s, s', t, a)
    requires ActionPcHolds(s.st, a)
    ensures Guarantee(s, s', t)
  {
    var p := s'.pc[t];
    if s' == Goto(s, t, p) {
      GotoGuaranteed(s, s', t, p);
    } else {
      match a
      case AdmitLive(job, _, _, _) => NewActionGuaranteed(s, s', t, p.a.action, p);
      case ActionWrite(action, op, now) => PutActionGuaranteed(s, s', t, action, op, now, p);
      case _ => LocksMoveOnly(s, s', t);
    }
  }

  lemma ExecuteGuaranteed(s: State, s': State, t: Tid, x: ExecutePc)
    requires Local(s, t) && t in s'.pc && s.pc[t] == Executing(x) && StepExecute(s, s', t, x)
    requires ExecuteHolds(s, x)
    ensures Guarantee(s, s', t)
  {
    var p := s'.pc[t];
    if x.ExecuteLive? && s' != Goto(s, t, p) {
      PutActionGuaranteed(s, s', t, x.action, OpStart, x.now, p);
    } else {
      LocksMoveOnly(s, s', t);
    }
  }

  lemma ReconcileGuaranteed(s: State, s': State, t: Tid, r: ReconcilePc)
    requires Local(s, t) && t in s'.pc && s.pc[t] == Reconciling(r) && StepReconcile(s, s', t, r)
    requires ReconcileHolds(s.st, r)
    ensures Guarantee(s, s', t)
  {
    var p := s'.pc[t];
    if s' == Goto(s, t, p) {
      GotoGuaranteed(s, s', t, p);
    } else {
      match r
      case ReconcileActions(issue, jobs, actions, lists) =>
        PutIssueGuaranteed(s, s', t, issue, issue.(status := DeriveIssueStatus(jobs, actions, lists).value), p);
      case CloseRead(issue, closure) => PutIssueGuaranteed(s, s', t, issue, issue.(status := closure), p);
      case _ =>
    }
  }

  lemma ClearGuaranteed(s: State, s': State, t: Tid, c: ClearPc)
    requires Local(s, t) && t in s'.pc && s.pc[t] == Clearing(c) && StepClear(s, s', t, c)
    ensures Guarantee(s, s', t)
  {
    var p := s'.pc[t];
    if s' == Goto(s, t, p) {
      GotoGuaranteed(s, s', t, p);
    } else if c.CancelJob? {
      PutJobGuaranteed(s, s', t, c.job, JobCancel, p);
    } else {
      PutActionGuaranteed(s, s', t, c.action, OpCancel, c.now, p);
    }
  }

  lemma IntakeGuaranteed(s: State, s': State, t: Tid, i: IntakePc)
    requires Local(s, t) && t in s'.pc && s.pc[t] == Intaking(i) && StepIntake(s, s', t, i)
    requires IntakeHolds(s.st, i)
    ensures Guarantee(s, s', t)
  {
    var p := s'.pc[t];
    if s' == Goto(s, t, p) {
      GotoGuaranteed(s, s', t, p);
    } else {
      match i
      case TriageAccept(c, _) => NewIssueGuaranteed(s, s', t, p.i.made.value, p);
      case TriageMergeRead(c, issue) => PutIssueGuaranteed(s, s', t, issue, p.i.made.value, p);
      case ReportChecked(_, _) => LogGuaranteed(s, s', t, p);
      case ReportAppended(_, _, _) => NewIssueGuaranteed(s, s', t, p.i.made.value, p);
      case _ =>
    }
  }

  lemma OtherGuaranteed(s: State, s': State, t: Tid, o: OtherPc)
    requires Local(s, t) && t in s'.pc && s.pc[t] == Other(o) && StepOther(s, s', t, o)
    requires OtherHolds(o)
    ensures Guarantee(s, s', t)
  {
    if s' == Goto(s, t, Idle) {
      GotoGuaranteed(s, s', t, Idle);
    } else {
      match o
      case PutMode(m) => assert LocksGuarded(s, s', t); LocksOnly(s, s', t);
      case ImportIssue(issue) => NewIssueGuaranteed(s, s', t, issue.(archived := true), Idle);
      case ImportJob(job) => NewJobGuaranteed(s, s', t, job, Idle);
      case ImportAction(action) => NewActionGuaranteed(s, s', t, action, Idle);
      case IntakeWrite(was, next) => PutIssueGuaranteed(s, s', t, was, next, Idle);
      case _ => LogGuaranteed(s, s', t, Idle);
    }
  }
}
