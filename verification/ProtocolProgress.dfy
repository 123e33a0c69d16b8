/** No interleaving wedges the controller: whoever holds a lock can go on, so somebody always can. */
module ProtocolProgress {
  import opened Wrappers
  import opened Policy
  import opened Domain
  import opened Reconciliation
  import opened Store
  import opened Protocol
  import opened ProtocolInvariant
  import opened ProtocolProof
  import opened Recovery

  ghost predicate CanStep(s: State, t: Tid) { exists s' :: Step(s, s', t) }

  lemma {:induction false} FreshId(ids: set<Id>) returns (next: Id)
    ensures forall id :: id in ids ==> id < next
  {
    next := 0;
    if ids != {} {
      var some :| some in ids;
      var above := FreshId(ids - {some});
      next := if above <= some then some + 1 else above;
      forall id | id in ids ensures id < next { assert id == some || id in ids - {some}; }
    }
  }

  lemma LockedCanStep(s: State, t: Tid, task: Task)
    requires t in s.pc && s.pc[t] == Locked(task)
    ensures CanStep(s, t)
  {
    match task
    case Create(_, _, _) =>
      var s' := Goto(s, t, if s.mode.ModeRunning? then Dispatching(DispatchAllowed(task)) else Unlocking);
      assert Step(s, s', t);
    case Supersede(_, _, _) =>
      var s' := Goto(s, t, if s.mode.ModeRunning? then Dispatching(DispatchAllowed(task)) else Unlocking);
      assert Step(s, s', t);
    case Admit(job, intent, before, key) =>
      var s' := Goto(s, t, if s.st.LiveIssue(job.issueId) then OnAction(AdmitLive(job, intent, before, key)) else Unlocking);
      assert Step(s, s', t);
    case Execute(id) =>
      var s' := if s.mode.AllowsActions() then Goto(s, t, Executing(ExecuteMode(id))).(readers := s.readers + {t})
                else Goto(s, t, Unlocking);
      assert Step(s, s', t);
    case Reconcile(i) =>
      var s' := Goto(s, t, if i !in s.st.issues || s.st.issues[i].archived then Unlocking
                           else if s.st.issues[i].status.IsTerminal() then Clearing(CancelList(i))
                           else Reconciling(ReconcileRead(s.st.issues[i])));
      assert Step(s, s', t);
    case Close(i, closure) =>
      var s' := Goto(s, t, if i in s.st.issues then Reconciling(CloseRead(s.st.issues[i], closure)) else Unlocking);
      assert Step(s, s', t);
  }

  lemma DispatchCanStep(s: State, t: Tid, d: DispatchPc)
    requires t in s.pc && s.pc[t] == Dispatching(d) && DispatchHolds(s.st, d)
    ensures CanStep(s, t)
  {
    var id := FreshId(s.st.jobs.Keys);
    var s': State;
    match d {
      case DispatchAllowed(task) =>
        s' := Goto(s, t, if task.Create? then
                           if s.st.LiveIssue(task.issueId) then Dispatching(DispatchLive(task.issueId, task.base, task.brief)) else Unlocking
                         else if task.Supersede? && task.previous in s.st.jobs && task.base in s.st.snapshots
                         then Dispatching(SupersedeRead(s.st.jobs[task.previous], task.base, task.brief)) else Unlocking);
        assert StepDispatch(s, s', t, d);
      case DispatchLive(i, base, brief) =>
        s' := Goto(s, t, if i in s.st.issues then Dispatching(CreateRead(s.st.issues[i], base, brief)) else Unlocking);
      case CreateRead(issue, base, brief) =>
        var job := NewJob(id, issue.id, base, brief, None, 0).(status := JRunning);
        s' := if base !in s.st.snapshots then Goto(s, t, Unlocking)
              else Save(s, s.st.PutJob(job), t, Dispatching(CreateInserted(issue, job)));
        assert IsNewJob(s.st, job, issue.id, base, brief, None);
      case CreateInserted(issue, job) =>
        s' := if issue.status.CanBecome(Investigating) && s.st.HoldsIssue(issue)
              then Save(s, s.st.PutIssue(issue.(status := Investigating)), t, Unlocking)
              else Goto(s, t, Unlocking);
      case SupersedeRead(previous, base, brief) =>
        s' := Goto(s, t, if s.st.LiveIssue(previous.issueId)
                         then Dispatching(SupersedeLive(previous, base, brief)) else Unlocking);
      case SupersedeLive(previous, base, brief) =>
        s' := if JobSupersede.Run(previous).Err? || !s.st.HoldsJob(previous) then Goto(s, t, Unlocking)
              else Save(s, s.st.PutJob(JobSupersede.Run(previous).value), t, Dispatching(SupersedeMarked(previous, base, brief)));
      case SupersedeMarked(previous, base, brief) =>
        var job := NewJob(id, previous.issueId, base, brief, Some(previous.id), 0).(status := JRunning);
        s' := Save(s, s.st.PutJob(job), t, Dispatching(SupersedeInserted(job)));
        assert IsNewJob(s.st, job, previous.issueId, base, brief, Some(previous.id));
      case SupersedeInserted(_) => s' := Goto(s, t, Unlocking);
    }
    assert StepDispatch(s, s', t, d);
    assert Step(s, s', t);
  }

  lemma JobCanStep(s: State, t: Tid, j: JobPc)
    requires t in s.pc && s.pc[t] == OnJob(j) && JobPcHolds(s.st, j) && KeyedById(s.st)
    ensures CanStep(s, t)
  {
    var s': State;
    match j {
      case CallbackRead(job, result) =>
        s' := Goto(s, t, if job.issueId !in s.st.issues then Idle
                         else if s.st.issues[job.issueId].status.IsTerminal() then OnJob(CancelOneJob(job))
                         else OnJob(CallbackLive(job, result)));
      case CallbackLive(job, result) =>
        var lists := ClassificationLists([], [], [], []);
        s' := if !result.outcome.Solved? then Goto(s, t, OnJob(JobWrite(job, JobComplete(result))))
              else if job.issueId !in s.st.issues || job.baseSnapshot !in s.st.snapshots then Goto(s, t, Idle)
              else Goto(s, t, OnJob(CallbackIssue(job, result, s.st.issues[job.issueId], lists)));
      case CallbackIssue(job, result, issue, lists) =>
        var actions := ActionList(ActionsIn(s.st.actions, job.issueId));
        s' := Goto(s, t, OnJob(JobWrite(job, JobComplete(
                   if SolvedIsSupported(issue, s.st.snapshots[job.baseSnapshot], actions, lists) then result
                   else result.(outcome := DiagnosisOnly)))));
        assert ReadsActions(s.st, job.issueId, actions);
      case JobWrite(job, op) =>
        s' := if op.Run(job).Err? || !s.st.HoldsJob(job) then Goto(s, t, Idle)
              else Save(s, s.st.PutJob(op.Run(job).value), t, WaitLifecycle(Reconcile(job.issueId)));
      case CancelOneJob(job) =>
        s' := if job.status.IsTerminal() then Goto(s, t, Idle)
              else if !s.st.HoldsJob(job) then
                Goto(s, t, if job.id in s.st.jobs then OnJob(CancelOneJob(s.st.jobs[job.id])) else Idle)
              else if JobCancel.Run(job).Err? then Goto(s, t, Idle)
              else Save(s, s.st.PutJob(JobCancel.Run(job).value), t, Idle);
    }
    assert StepJob(s, s', t, j);
    assert Step(s, s', t);
  }

  lemma ActionCanStep(s: State, t: Tid, a: ActionPc)
    requires t in s.pc && s.pc[t] == OnAction(a) && ActionPcHolds(s.st, a)
    ensures CanStep(s, t)
  {
    var id := FreshId(s.st.actions.Keys);
    var s': State;
    match a {
      case AdmitAllowed(_, _, _) => s' := Goto(s, t, Idle);
      case AdmitLive(job, intent, before, key) =>
        var action := FromProposal(id, job.issueId, job.id, intent, before, key, 0);
        s' := Save(s, s.st.PutAction(action), t, OnAction(AdmitInserted(action, job)));
      case AdmitInserted(action, job) => s' := Goto(s, t, OnAction(Admitted(action, job))).(lifecycle := None);
      case Admitted(action, job) =>
        s' := Goto(s, t, OnAction(if ClaimBlocked(s.st, action) then ActionWrite(action, OpDeny(ByPolicy("duplicate")), 0)
                                  else Claimed(action, job)));
      case Claimed(action, job) =>
        var policy := AuthorityPolicy(ClassificationLists([], [], [], []), map[]);
        var d := Decide(policy, action.intent, job.brief.scope, s.st.snapshots[action.beforeSnapshot].mode, false);
        var op := if d.approval.Rejected? then OpDeny(ByPolicy("out of scope")) else OpApply(d.approval);
        s' := Goto(s, t, OnAction(ActionWrite(action, op, 0)));
        assert DecidedAs(d, op);
      case ApproveRead(action, approver) =>
        s' := Goto(s, t, if s.st.LiveIssue(action.issueId) then OnAction(ActionWrite(action, OpApprove(approver), 0)) else Idle);
      case ActionWrite(action, op, now) =>
        s' := if op.Run(action, now).Err? || !s.st.Holds(action) then Goto(s, t, Idle)
              else Save(s, s.st.PutAction(op.Run(action, now).value), t, WaitLifecycle(Reconcile(action.issueId)));
    }
    assert StepAction(s, s', t, a);
    assert Step(s, s', t);
  }

  lemma ExecuteCanStep(s: State, t: Tid, x: ExecutePc)
    requires t in s.pc && s.pc[t] == Executing(x)
    ensures CanStep(s, t)
  {
    var s': State;
    match x {
      case ExecuteMode(id) =>
        s' := Goto(s, t, Executing(if id in s.st.actions then ExecuteRead(s.st.actions[id]) else ExecuteAborting));
      case ExecuteRead(action) => s' := Goto(s, t, Executing(ExecuteAborting));
      case ExecuteLive(action, now) =>
        s' := if OpStart.Run(action, now).Err? || !s.st.Holds(action) then Goto(s, t, Executing(ExecuteAborting))
              else Save(s, s.st.PutAction(OpStart.Run(action, now).value), t, Executing(ExecuteStarted(OpStart.Run(action, now).value)));
      case ExecuteStarted(action) => s' := Goto(s, t, Executing(ExecuteReleasing(action))).(readers := s.readers - {t});
      case ExecuteReleasing(action) => s' := Goto(s, t, Executing(AtPlatform(action))).(lifecycle := None);
      case ExecuteMissing(action, reason) =>
        s' := Goto(s, t, Executing(ExecuteMissingReleasing(action, reason))).(readers := s.readers - {t});
      case ExecuteMissingReleasing(action, reason) =>
        s' := Goto(s, t, OnAction(ActionWrite(action, OpWait(reason), 0))).(lifecycle := None);
      case ExecuteAborting => s' := Goto(s, t, Unlocking).(readers := s.readers - {t});
      case AtPlatform(action) =>
        s' := Goto(s, t, OnAction(ActionWrite(action, OpResult(PlatformResult(false, false, false, false, None, "")), 0)));
    }
    assert StepExecute(s, s', t, x);
    assert Step(s, s', t);
  }

  lemma ReconcileCanStep(s: State, t: Tid, r: ReconcilePc)
    requires t in s.pc && s.pc[t] == Reconciling(r) && KeyedById(s.st)
    ensures CanStep(s, t)
  {
    var s': State;
    match r {
      case ReconcileRead(issue) =>
        s' := Goto(s, t, Reconciling(ReconcileJobs(issue, JobList(JobsIn(s.st.jobs, issue.id)))));
      case ReconcileJobs(issue, jobs) =>
        var lists := ClassificationLists([], [], [], []);
        s' := Goto(s, t, Reconciling(ReconcileActions(issue, jobs, ActionList(ActionsIn(s.st.actions, issue.id)), lists)));
      case ReconcileActions(issue, jobs, actions, lists) =>
        var derived := DeriveIssueStatus(jobs, actions, lists);
        s' := if derived.None? || derived.value == issue.status || !issue.status.CanBecome(derived.value)
                 || !s.st.HoldsIssue(issue)
              then Goto(s, t, Unlocking)
              else Save(s, s.st.PutIssue(issue.(status := derived.value)), t,
                        if derived.value.IsTerminal() then Clearing(CancelList(issue.id)) else Unlocking);
      case CloseRead(issue, closure) =>
        s' := if issue.archived then Goto(s, t, Unlocking)
              else if issue.status == closure then Goto(s, t, Clearing(CancelList(issue.id)))
              else if !issue.status.CanBecome(closure) || !s.st.HoldsIssue(issue) then Goto(s, t, Unlocking)
              else Save(s, s.st.PutIssue(issue.(status := closure)), t, Clearing(CancelList(issue.id)));
    }
    assert StepReconcile(s, s', t, r);
    assert Step(s, s', t);
  }

  lemma ClearCanStep(s: State, t: Tid, c: ClearPc)
    requires t in s.pc && s.pc[t] == Clearing(c) && KeyedById(s.st) && ClearHolds(s.st, c)
    ensures CanStep(s, t)
  {
    var s': State;
    match c {
      case CancelList(i) => s' := Goto(s, t, Clearing(CancelJobs(i, JobsIn(s.st.jobs, i).Keys)));
      case CancelJobs(i, pending) =>
        if pending == {} { s' := Goto(s, t, Clearing(CancelActionList(i))); }
        else { var id :| id in pending; s' := Goto(s, t, Clearing(CancelJob(i, pending, s.st.jobs[id]))); }
      case CancelJob(i, pending, job) =>
        s' := if job.status.IsTerminal() then Goto(s, t, Clearing(CancelJobs(i, pending - {job.id})))
              else if JobCancel.Run(job).Err? || !s.st.HoldsJob(job) then Goto(s, t, Clearing(CancelJobs(i, pending)))
              else Save(s, s.st.PutJob(JobCancel.Run(job).value), t, Clearing(CancelJobs(i, pending - {job.id})));
      case CancelActionList(i) => s' := Goto(s, t, Clearing(CancelActions(i, ActionsIn(s.st.actions, i).Keys)));
      case CancelActions(i, pending) =>
        if pending == {} { s' := Goto(s, t, Unlocking); }
        else { var id :| id in pending; s' := Goto(s, t, Clearing(CancelAction(i, pending, s.st.actions[id], 0))); }
      case CancelAction(i, pending, action, now) =>
        s' := if !Cancellable(action) then Goto(s, t, Clearing(CancelActions(i, pending - {action.id})))
              else if OpCancel.Run(action, now).Err? || !s.st.Holds(action) then Goto(s, t, Clearing(CancelActions(i, pending)))
              else Save(s, s.st.PutAction(OpCancel.Run(action, now).value), t, Clearing(CancelActions(i, pending - {action.id})));
    }
    assert StepClear(s, s', t, c);
    assert Step(s, s', t);
  }

  lemma IntakeCanStep(s: State, t: Tid, i: IntakePc)
    requires t in s.pc && s.pc[t] == Intaking(i) && !i.TriageDone?
    ensures CanStep(s, t)
  {
    var id := FreshId(s.st.issues.Keys);
    var s': State;
    match i {
      case TriageHeld(c) => s' := Goto(s, t, Intaking(TriageDone(None)));
      case TriageArchived(c, archivedIds) =>
        s' := Goto(s, t, Intaking(TriageOpen(c, map k | k in s.st.issues && !s.st.issues[k].status.IsTerminal()
                                                        && k !in archivedIds :: s.st.issues[k])));
      case TriageOpen(c, open) =>
        if k :| k in open && open[k].dedupKey == Some(c.dedupKey) { s' := Goto(s, t, Intaking(TriageMerge(c, k))); }
        else { s' := Goto(s, t, Intaking(TriageDone(None))); }
      case TriageAccept(c, priority) =>
        var issue := FromCandidate(id, c, 0).(priority := priority.ModelSafe());
        s' := Save(s, s.st.PutIssue(issue), t, Intaking(TriageDone(Some(issue))));
      case TriageMerge(c, k) =>
        s' := Goto(s, t, Intaking(if s.st.LiveIssue(k) then TriageMergeRead(c, s.st.issues[k]) else TriageDone(None)));
      case TriageMergeRead(c, issue) =>
        var next := issue.(evidence := issue.evidence + c.evidence,
                           priority := MaxPriority(issue.priority, c.proposedPriority.ModelSafe()));
        s' := if !s.st.HoldsIssue(issue) then Goto(s, t, Intaking(TriageDone(None)))
              else Save(s, s.st.PutIssue(next), t, Intaking(TriageDone(Some(next))));
      case ReportHeld(r, snapshot) =>
        s' := Goto(s, t, Intaking(if IssueReported(r.reportId) in s.st.events then TriageDone(None)
                                  else ReportChecked(r, snapshot)));
      case ReportChecked(r, snapshot) =>
        s' := Save(s, s.st.(events := s.st.events + [IssueReported(r.reportId)]), t,
                   Intaking(ReportAppended(r, snapshot, |s.st.events|)));
      case ReportAppended(r, snapshot, eventIndex) =>
        var issue := FromHumanReport(id, r, snapshot, eventIndex);
        s' := Save(s, s.st.PutIssue(issue), t, Intaking(TriageDone(Some(issue))));
    }
    assert StepIntake(s, s', t, i);
    assert Step(s, s', t);
  }

  lemma OtherCanStep(s: State, t: Tid, o: OtherPc)
    requires t in s.pc && s.pc[t] == Other(o) && (o.PutMode? ==> s.readers == {})
    ensures CanStep(s, t)
  {
    var s': State;
    match o {
      case PutMode(m) => s' := Goto(s, t, Idle).(mode := m);
      case PutSnapshot(id, content) =>
        s' := if id in s.st.snapshots then Goto(s, t, Idle)
              else Save(s, s.st.(snapshots := s.st.snapshots[id := content]), t, Idle);
      case ImportIssue(issue) =>
        s' := if issue.id in s.st.issues then Goto(s, t, Idle) else Save(s, s.st.PutIssue(issue.(archived := true)), t, Idle);
      case ImportJob(job) =>
        s' := if job.id in s.st.jobs || !IsArchive(s.st, job.issueId) then Goto(s, t, Idle) else Save(s, s.st.PutJob(job), t, Idle);
      case ImportAction(action) =>
        s' := if action.id in s.st.actions || !IsArchive(s.st, action.issueId) then Goto(s, t, Idle)
              else Save(s, s.st.PutAction(action), t, Idle);
      case PutEvent(e) => s' := Save(s, s.st.(events := s.st.events + [e]), t, Idle);
      case IntakeWrite(was, next) => s' := if s.st.HoldsIssue(was) then Save(s, s.st.PutIssue(next), t, Idle) else Goto(s, t, Idle);
    }
    assert StepOther(s, s', t, o);
    assert Step(s, s', t);
  }

  lemma LockingCanStep(s: State, t: Tid)
    requires t in s.pc
    requires s.pc[t].Unlocking? || (s.pc[t].Intaking? && s.pc[t].i.TriageDone?)
             || (s.pc[t].WaitLifecycle? && s.lifecycle.None?) || (s.pc[t].WaitTriage? && s.triage.None?)
    ensures CanStep(s, t)
  {
    var s': State;
    match s.pc[t] {
      case Unlocking => s' := Goto(s, t, Idle).(lifecycle := None);
      case WaitLifecycle(task) => s' := Goto(s, t, Locked(task)).(lifecycle := Some(t));
      case WaitTriage(work) => s' := Goto(s, t, Intaking(work)).(triage := Some(t));
      case _ => s' := Goto(s, t, Idle).(triage := None);
    }
    assert StepLocking(s, s', t);
    assert Step(s, s', t);
  }

  /** A thread that waits for a lock. */
  predicate Waits(s: State, t: Tid)
    requires t in s.pc
  {
    || (s.pc[t].WaitLifecycle? && s.lifecycle.Some?) || (s.pc[t].WaitTriage? && s.triage.Some?)
    || (s.pc[t].Other? && s.pc[t].o.PutMode? && s.readers != {})
  }

  /** Whoever is at work and does not wait for a lock can take its next step. */
  lemma WorkingCanStep(s: State, t: Tid)
    requires KeyedById(s.st) && t in s.pc && PcHolds(s, s.pc[t]) && !s.pc[t].Idle? && !Waits(s, t)
    ensures CanStep(s, t)
  {
    match s.pc[t]
    case Locked(task) => LockedCanStep(s, t, task);
    case Dispatching(d) => DispatchCanStep(s, t, d);
    case OnJob(j) => JobCanStep(s, t, j);
    case OnAction(a) => ActionCanStep(s, t, a);
    case Executing(x) => ExecuteCanStep(s, t, x);
    case Reconciling(r) => ReconcileCanStep(s, t, r);
    case Clearing(c) => ClearCanStep(s, t, c);
    case Intaking(i) => if i.TriageDone? { LockingCanStep(s, t); } else { IntakeCanStep(s, t, i); }
    case Other(o) => OtherCanStep(s, t, o);
    case _ => LockingCanStep(s, t);
  }

  /** Lock holders are at work, and none of them waits for another lock. */
  lemma HolderWorks(s: State, t: Tid)
    requires Locks(s) && t in s.pc && Waits(s, t)
    ensures exists u :: u in s.pc && !s.pc[u].Idle? && !Waits(s, u)
  {
    if s.pc[t].WaitLifecycle? {
      assert s.pc[s.lifecycle.value].HoldsLifecycle();
    } else if s.pc[t].WaitTriage? {
      assert s.pc[s.triage.value].HoldsTriage();
    } else {
      var u :| u in s.readers;
      assert u in s.pc && s.pc[u].HoldsReader();
    }
  }

  /** In every reachable state in which an operation is under way, some operation can go on. */
  lemma SomebodyCanStep(run: seq<State>, k: nat, t: Tid)
    requires IsRun(run) && k < |run| && t in run[k].pc && !run[k].pc[t].Idle?
    ensures exists u :: CanStep(run[k], u)
  {
    RunInv(run, k);
    var s := run[k];
    if Waits(s, t) {
      HolderWorks(s, t);
      var u :| u in s.pc && !s.pc[u].Idle? && !Waits(s, u);
      WorkingCanStep(s, u);
    } else {
      WorkingCanStep(s, t);
    }
  }
}
