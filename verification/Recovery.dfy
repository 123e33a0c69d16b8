/** What recovery does to a store, one write at a time, and why each write is safe in every state a
    crash can leave (src/scheduler.rs:202-304, 1936-1987, 2124-2342). */
module Recovery {
  import opened Wrappers
  import opened Policy
  import opened Domain
  import opened Matching
  import opened Reconciliation
  import opened Store
  import opened Protocol
  import opened ProtocolInvariant
  import opened ProtocolGuarantee
  import opened ProtocolStore

  // ---------------------------------------------------------------- single writes

  /** The store with one thread beside it, which owns the lifecycle lock. */
  function Solo(st: StoreState): State { State(st, ModeRecovering, Some(0), None, {}, map[0 := Idle]) }

  function SoloSave(st: StoreState, st': StoreState): State { Save(Solo(st), st', 0, Idle) }

  lemma JobWritten(st: StoreState, job: Job, op: JobOp)
    requires StoreInvariant(st) && st.HoldsJob(job) && op.Run(job).Ok?
    requires op.JobComplete? ==> !op.result.outcome.Solved?
    ensures StoreInvariant(st.PutJob(op.Run(job).value))
  {
    var s, s' := Solo(st), SoloSave(st, st.PutJob(op.Run(job).value));
    PutJobGuaranteed(s, s', 0, job, op, Idle);
    RewrittenJobFine(s, s', 0, job, op);
    IntakeKept(s, s', 0);
  }

  lemma ActionWritten(st: StoreState, a: ActionRun, op: ActionOp, now: nat)
    requires StoreInvariant(st) && st.Holds(a) && op.Run(a, now).Ok?
    requires !op.OpStart? && !op.OpApply? && VerdictKnown(st, a, op)
    ensures StoreInvariant(st.PutAction(op.Run(a, now).value))
  {
    var s, s' := Solo(st), SoloSave(st, st.PutAction(op.Run(a, now).value));
    PutActionGuaranteed(s, s', 0, a, op, now, Idle);
    RewrittenActionFine(s, s', 0, a, op, now);
    IntakeKept(s, s', 0);
  }

  lemma IssueWritten(st: StoreState, issue: Issue, status: IssueStatus)
    requires StoreInvariant(st) && st.HoldsIssue(issue) && issue.status.CanBecome(status)
    ensures StoreInvariant(st.PutIssue(issue.(status := status)))
  {
    var s, s' := Solo(st), SoloSave(st, st.PutIssue(issue.(status := status)));
    PutIssueGuaranteed(s, s', 0, issue, issue.(status := status), Idle);
    OthersFine(s, s', 0);
    IntakeKept(s, s', 0);
  }

  lemma LogWritten(st: StoreState, e: Event)
    requires StoreInvariant(st)
    ensures StoreInvariant(st.(events := st.events + [e]))
  {
    var s, s' := Solo(st), SoloSave(st, st.(events := st.events + [e]));
    LogGuaranteed(s, s', 0, Idle);
    OthersFine(s, s', 0);
    IntakeKept(s, s', 0);
  }

  lemma SnapshotWritten(st: StoreState, id: Id, content: Snapshot)
    requires StoreInvariant(st) && id !in st.snapshots
    ensures StoreInvariant(st.(snapshots := st.snapshots[id := content]))
  {
    var s, s' := Solo(st), SoloSave(st, st.(snapshots := st.snapshots[id := content]));
    LogGuaranteed(s, s', 0, Idle);
    OthersFine(s, s', 0);
    IntakeKept(s, s', 0);
  }

  // ---------------------------------------------------------------- cancelling an Issue's work

  function StopJob(j: Job): Job { if j.status.IsTerminal() then j else j.(status := JCancelled) }

  function StopAction(a: ActionRun, now: nat): ActionRun {
    if Cancellable(a) then a.CancelUnstarted(now).value else a
  }

  /** The store after the work of those Issues was cancelled. */
  function WorkCancelled(st: StoreState, issueIds: set<Id>, now: nat): StoreState {
    st.(jobs := map id | id in st.jobs :: if st.jobs[id].issueId in issueIds then StopJob(st.jobs[id]) else st.jobs[id],
        actions := map id | id in st.actions :: if st.actions[id].issueId in issueIds then StopAction(st.actions[id], now) else st.actions[id])
  }

  /** Part of the way: only those Jobs of the Issue were reached. */
  function JobsStopped(st: StoreState, i: Id, reached: set<Id>): StoreState {
    st.(jobs := map id | id in st.jobs ::
                  if st.jobs[id].issueId == i && id in reached then StopJob(st.jobs[id]) else st.jobs[id])
  }

  function ActionsStopped(st: StoreState, i: Id, reached: set<Id>, now: nat): StoreState {
    st.(actions := map id | id in st.actions ::
                     if st.actions[id].issueId == i && id in reached then StopAction(st.actions[id], now) else st.actions[id])
  }

  lemma StopOneMoreJob(st: StoreState, i: Id, reached: set<Id>, id: Id)
    requires KeyedById(st) && id in st.jobs
    ensures var was := JobsStopped(st, i, reached);
            id in was.jobs
            && JobsStopped(st, i, reached + {id}) == if st.jobs[id].issueId == i then was.PutJob(StopJob(was.jobs[id])) else was
  {
    var was := JobsStopped(st, i, reached);
    assert JobsStopped(st, i, reached + {id}).jobs
        == if st.jobs[id].issueId == i then was.jobs[id := StopJob(was.jobs[id])] else was.jobs;
  }

  lemma StopOneMoreAction(st: StoreState, i: Id, reached: set<Id>, id: Id, now: nat)
    requires KeyedById(st) && id in st.actions
    ensures var was := ActionsStopped(st, i, reached, now);
            id in was.actions
            && ActionsStopped(st, i, reached + {id}, now)
               == if st.actions[id].issueId == i then was.PutAction(StopAction(was.actions[id], now)) else was
  {
    var was := ActionsStopped(st, i, reached, now);
    assert ActionsStopped(st, i, reached + {id}, now).actions
        == if st.actions[id].issueId == i then was.actions[id := StopAction(was.actions[id], now)] else was.actions;
  }

  /** How far the loop over the listed Jobs has come. */
  ghost predicate JobsReached(was: StoreState, st: StoreState, i: Id, xs: seq<Job>, k: nat, reached: set<Id>)
    requires k <= |xs|
  {
    && KeyedById(was) && st == JobsStopped(was, i, reached)
    && (forall m :: 0 <= m < |xs| ==> was.HoldsJob(xs[m]))
    && (forall m :: 0 <= m < k ==> xs[m].id in reached)
  }

  lemma JobsListed(was: StoreState, i: Id, xs: seq<Job>)
    requires KeyedById(was) && ListsJobs(xs, was.jobs)
    ensures JobsReached(was, was, i, xs, 0, {})
  {
    forall m | 0 <= m < |xs| ensures was.HoldsJob(xs[m]) { assert xs[m] in xs; }
    assert JobsStopped(was, i, {}).jobs == was.jobs;
  }

  lemma AllJobsReached(was: StoreState, st: StoreState, i: Id, xs: seq<Job>, reached: set<Id>)
    requires ListsJobs(xs, was.jobs) && JobsReached(was, st, i, xs, |xs|, reached)
    ensures st == was.(jobs := WorkCancelled(was, {i}, 0).jobs)
  {
    forall id | id in was.jobs ensures id in reached { assert was.jobs[id] in xs; }
  }

  /** How far the loop over the listed Actions has come. */
  ghost predicate ActionsReached(was: StoreState, st: StoreState, i: Id, xs: seq<ActionRun>, k: nat, reached: set<Id>, now: nat)
    requires k <= |xs|
  {
    && KeyedById(was) && st == ActionsStopped(was, i, reached, now)
    && (forall m :: 0 <= m < |xs| ==> was.Holds(xs[m]))
    && (forall m :: 0 <= m < k ==> xs[m].id in reached)
  }

  lemma ActionsListed(was: StoreState, i: Id, xs: seq<ActionRun>, now: nat)
    requires KeyedById(was) && ListsActions(xs, was.actions)
    ensures ActionsReached(was, was, i, xs, 0, {}, now)
  {
    forall m | 0 <= m < |xs| ensures was.Holds(xs[m]) { assert xs[m] in xs; }
    assert ActionsStopped(was, i, {}, now).actions == was.actions;
  }

  lemma AllActionsReached(was: StoreState, st: StoreState, i: Id, xs: seq<ActionRun>, reached: set<Id>, now: nat)
    requires ListsActions(xs, was.actions) && ActionsReached(was, st, i, xs, |xs|, reached, now)
    ensures st == was.(actions := WorkCancelled(was, {i}, now).actions)
  {
    forall id | id in was.actions ensures id in reached { assert was.actions[id] in xs; }
  }

  /** Nothing is left to cancel on the Issue. */
  ghost predicate Cleared(st: StoreState, i: Id) {
    && (forall id :: id in st.jobs && st.jobs[id].issueId == i ==> st.jobs[id].status.IsTerminal())
    && (forall id :: id in st.actions && st.actions[id].issueId == i ==> !Cancellable(st.actions[id]))
  }

  ghost predicate AllCleared(st: StoreState) {
    forall i :: Closed(st, i) ==> Cleared(st, i)
  }

  lemma ClearedIsFixed(st: StoreState, issueIds: set<Id>, now: nat)
    requires forall i :: i in issueIds ==> Cleared(st, i)
    ensures WorkCancelled(st, issueIds, now) == st
  {
    assert WorkCancelled(st, issueIds, now).jobs == st.jobs;
    assert WorkCancelled(st, issueIds, now).actions == st.actions;
  }

  lemma CancelledIsCleared(st: StoreState, issueIds: set<Id>, now: nat, i: Id)
    requires i in issueIds || Cleared(st, i)
    ensures Cleared(WorkCancelled(st, issueIds, now), i)
  {
  }

  // ---------------------------------------------------------------- listings and the derived status

  ghost function SomeOrder(keys: set<Id>): (ids: seq<Id>)
    ensures Orders(ids, keys)
  {
    if keys == {} then []
    else
      var id :| id in keys;
      OrdersGrow(SomeOrder(keys - {id}), keys - {id}, id);
      assert keys == (keys - {id}) + {id};
      SomeOrder(keys - {id}) + [id]
  }

  ghost function JobList(jobs: map<Id, Job>): (xs: seq<Job>)
    requires forall id :: id in jobs ==> jobs[id].id == id
    ensures ListsJobs(xs, jobs)
  {
    JobsInOrder(jobs, SomeOrder(jobs.Keys));
    InOrder(jobs, SomeOrder(jobs.Keys))
  }

  ghost function ActionList(actions: map<Id, ActionRun>): (xs: seq<ActionRun>)
    requires forall id :: id in actions ==> actions[id].id == id
    ensures ListsActions(xs, actions)
  {
    ActionsInOrder(actions, SomeOrder(actions.Keys));
    InOrder(actions, SomeOrder(actions.Keys))
  }

  ghost function Derived(st: StoreState, i: Id, lists: ClassificationLists): Option<IssueStatus>
    requires KeyedById(st)
  {
    DeriveIssueStatus(JobList(JobsIn(st.jobs, i)), ActionList(ActionsIn(st.actions, i)), lists)
  }

  lemma {:induction false} SameBag(xs: seq<ActionRun>, ys: seq<ActionRun>)
    requires forall x :: x in xs <==> x in ys
    requires forall i, k :: 0 <= i < k < |xs| ==> xs[i].id != xs[k].id
    requires forall i, k :: 0 <= i < k < |ys| ==> ys[i].id != ys[k].id
    ensures multiset(xs) == multiset(ys)
  {
    forall x ensures multiset(xs)[x] == multiset(ys)[x] {
      Once(xs, x);
      Once(ys, x);
    }
  }

  lemma {:induction false} Once(xs: seq<ActionRun>, x: ActionRun)
    requires forall i, k :: 0 <= i < k < |xs| ==> xs[i].id != xs[k].id
    ensures multiset(xs)[x] == if x in xs then 1 else 0
  {
    if xs != [] {
      Once(xs[1..], x);
      assert xs == [xs[0]] + xs[1..];
      if xs[0] == x { assert x !in xs[1..]; }
    }
  }

  /** The order in which a store lists records cannot change the derived status. */
  lemma DeriveIgnoresOrder(jobs: map<Id, Job>, actions: map<Id, ActionRun>, js: seq<Job>, ks: seq<Job>,
                           xs: seq<ActionRun>, ys: seq<ActionRun>, lists: ClassificationLists)
    requires ListsJobs(js, jobs) && ListsJobs(ks, jobs) && ListsActions(xs, actions) && ListsActions(ys, actions)
    ensures DeriveIssueStatus(js, xs, lists) == DeriveIssueStatus(ks, ys, lists)
  {
    SameBag(xs, ys);
    SameJobs(jobs, js, ks);
    if js != [] { SameLatest(jobs, js, ks); }
    SameMissing(js, ks, xs, ys);
    SameMembers(js, ks, xs, ys, lists);
  }

  lemma SameJobs(jobs: map<Id, Job>, js: seq<Job>, ks: seq<Job>)
    requires ListsJobs(js, jobs) && ListsJobs(ks, jobs)
    ensures forall j :: j in js <==> j in ks
    ensures js == [] <==> ks == []
  {
    forall j | j in js ensures j in ks { assert jobs[j.id] in ks; }
    forall j | j in ks ensures j in js { assert jobs[j.id] in js; }
    if js != [] { assert js[0] in js; }
    if ks != [] { assert ks[0] in ks; }
  }

  lemma SameMissing(js: seq<Job>, ks: seq<Job>, xs: seq<ActionRun>, ys: seq<ActionRun>)
    requires (forall j :: j in js <==> j in ks) && multiset(xs) == multiset(ys)
    ensures ProposalMissing(js, xs) <==> ProposalMissing(ks, ys)
  {
    forall j ensures Materialized(j, xs) <==> Materialized(j, ys) { MaterializedIgnoresOrder(j, xs, ys); }
  }

  lemma SameMembers(js: seq<Job>, ks: seq<Job>, xs: seq<ActionRun>, ys: seq<ActionRun>, lists: ClassificationLists)
    requires (forall j :: j in js <==> j in ks) && multiset(xs) == multiset(ys)
    ensures JobRuns(js) <==> JobRuns(ks)
    ensures ActionPending(xs) <==> ActionPending(ys)
    ensures ActionVerifies(xs) <==> ActionVerifies(ys)
    ensures HumanAwaited(js, xs) <==> HumanAwaited(ks, ys)
    ensures forall id :: RemediatedBy(xs, id, lists) <==> RemediatedBy(ys, id, lists)
    ensures xs == [] <==> ys == []
  {
    assert |xs| == |multiset(xs)| && |ys| == |multiset(ys)|;
    assert forall x :: x in xs <==> x in multiset(xs);
    assert forall x :: x in ys <==> x in multiset(ys);
  }

  lemma SameLatest(jobs: map<Id, Job>, js: seq<Job>, ks: seq<Job>)
    requires ListsJobs(js, jobs) && ListsJobs(ks, jobs) && js != [] && ks != []
    ensures LatestJob(js) == LatestJob(ks)
  {
    var a, b := LatestJob(js), LatestJob(ks);
    assert jobs[a.id] == a && jobs[b.id] == b;
    assert a in ks && b in js;
    assert Later(a, b) && Later(b, a);
  }

  // ---------------------------------------------------------------- reconciling

  ghost predicate Unmoved(st: StoreState, i: Id, lists: ClassificationLists)
    requires KeyedById(st) && i in st.issues
  {
    var d := Derived(st, i, lists);
    d.None? || d.value == st.issues[i].status || !st.issues[i].status.CanBecome(d.value)
  }

  /** What `reconcile_issue` leaves in the store. */
  ghost function Reconciled(st: StoreState, i: Id, lists: ClassificationLists, now: nat): StoreState
    requires KeyedById(st) && i in st.issues
  {
    if st.issues[i].archived then st
    else if st.issues[i].status.IsTerminal() then WorkCancelled(st, {i}, now)
    else if Unmoved(st, i, lists) then st
    else
      var moved := st.PutIssue(st.issues[i].(status := Derived(st, i, lists).value));
      if moved.issues[i].status.IsTerminal() then WorkCancelled(moved, {i}, now) else moved
  }

  /** A live Issue has nothing left for reconciliation to change. */
  ghost predicate Steady(st: StoreState, i: Id, lists: ClassificationLists)
    requires KeyedById(st)
  {
    st.LiveIssue(i) ==> Unmoved(st, i, lists)
  }

  /** Two stores with the same records derive the same statuses. */
  lemma DerivedFromRecords(a: StoreState, b: StoreState, i: Id, lists: ClassificationLists)
    requires KeyedById(a) && KeyedById(b) && a.jobs == b.jobs && a.actions == b.actions
    ensures Derived(a, i, lists) == Derived(b, i, lists)
  {
  }

  lemma ReadingsConsistent(st: StoreState, i: Id)
    requires KeyedById(st) && RecordsFine(st) && st.Ours(i)
    ensures forall a :: a in ActionList(ActionsIn(st.actions, i)) ==> ActionConsistent(a) && a.issueId == i && st.Holds(a)
    ensures forall j :: j in JobList(JobsIn(st.jobs, i)) ==> j.issueId == i && st.HoldsJob(j)
  {
    forall a | a in ActionList(ActionsIn(st.actions, i)) ensures ActionConsistent(a) && a.issueId == i && st.Holds(a) {
      assert a.id in ActionsIn(st.actions, i);
      assert ActionFine(st, st.actions[a.id]);
    }
    forall j | j in JobList(JobsIn(st.jobs, i)) ensures j.issueId == i && st.HoldsJob(j) {
      assert j.id in JobsIn(st.jobs, i);
    }
  }

  /** Only a settled Issue is resolved, so resolving it finds nothing to cancel. */
  lemma ResolvedIsCleared(st: StoreState, i: Id, lists: ClassificationLists)
    requires KeyedById(st) && RecordsFine(st) && st.Ours(i) && Derived(st, i, lists) == Some(Resolved)
    ensures Cleared(st, i)
    ensures forall id :: id in st.actions && st.actions[id].issueId == i ==> st.actions[id].status.IsTerminal()
  {
    var jobs, actions := JobList(JobsIn(st.jobs, i)), ActionList(ActionsIn(st.actions, i));
    assert forall a :: a in actions ==> ActionConsistent(a) by { ReadingsConsistent(st, i); }
    assert Settled(jobs, actions) by { ResolvedReading(jobs, actions, lists); }
    SettledReading(st, i);
  }

  lemma ResolvedReading(jobs: seq<Job>, actions: seq<ActionRun>, lists: ClassificationLists)
    requires DeriveIssueStatus(jobs, actions, lists) == Some(Resolved)
    requires forall a :: a in actions ==> ActionConsistent(a)
    ensures Settled(jobs, actions)
  {
    ResolvedIffSettledWithGround(jobs, actions, lists);
  }

  lemma SettledReading(st: StoreState, i: Id)
    requires KeyedById(st) && Settled(JobList(JobsIn(st.jobs, i)), ActionList(ActionsIn(st.actions, i)))
    ensures Cleared(st, i)
    ensures forall id :: id in st.actions && st.actions[id].issueId == i ==> st.actions[id].status.IsTerminal()
  {
    forall id | id in st.actions && st.actions[id].issueId == i ensures st.actions[id].status.IsTerminal() {
      assert id in ActionsIn(st.actions, i);
      assert st.actions[id] in ActionList(ActionsIn(st.actions, i));
    }
    forall id | id in st.jobs && st.jobs[id].issueId == i ensures st.jobs[id].status.IsTerminal() {
      assert id in JobsIn(st.jobs, i);
      assert st.jobs[id] in JobList(JobsIn(st.jobs, i));
    }
  }

  /** Only `Resolved` closes an Issue automatically. */
  lemma OnlyResolvedCloses(st: StoreState, i: Id, lists: ClassificationLists)
    requires KeyedById(st) && Derived(st, i, lists).Some? && Derived(st, i, lists).value.IsTerminal()
    ensures Derived(st, i, lists) == Some(Resolved)
  {
    OnlyResolvedIsTerminal(JobList(JobsIn(st.jobs, i)), ActionList(ActionsIn(st.actions, i)), lists);
  }

  lemma ReconcileTouchesOnlyTheStatus(st: StoreState, i: Id, lists: ClassificationLists, now: nat)
    requires StoreInvariant(st) && AllCleared(st) && i in st.issues
    ensures var st' := Reconciled(st, i, lists, now);
            && st' == st.(issues := st'.issues) && st'.issues.Keys == st.issues.Keys
            && (forall k :: k in st.issues && k != i ==> st'.issues[k] == st.issues[k])
            && (st'.issues[i] == st.issues[i]
                || (&& st.LiveIssue(i) && st.issues[i].status.CanBecome(st'.issues[i].status)
                    && Derived(st, i, lists) == Some(st'.issues[i].status)
                    && st'.issues[i] == st.issues[i].(status := st'.issues[i].status)))
  {
    if st.LiveIssue(i) && !Unmoved(st, i, lists) {
      var moved := st.PutIssue(st.issues[i].(status := Derived(st, i, lists).value));
      if moved.issues[i].status.IsTerminal() {
        OnlyResolvedCloses(st, i, lists);
        ResolvedIsCleared(st, i, lists);
        assert Cleared(moved, i);
        ClearedIsFixed(moved, {i}, now);
      }
    } else if Closed(st, i) {
      ClearedIsFixed(st, {i}, now);
    }
  }

  /** An Issue that reconciliation closes has nothing left to cancel. */
  lemma ReconcileClosesCleared(st: StoreState, i: Id, lists: ClassificationLists, now: nat)
    requires StoreInvariant(st) && AllCleared(st) && i in st.issues
    ensures var st' := Reconciled(st, i, lists, now);
            i in st'.issues && (st'.issues[i] != st.issues[i] && st'.issues[i].status.IsTerminal() ==>
              && Cleared(st, i)
              && forall id :: id in st.actions && st.actions[id].issueId == i ==> st.actions[id].status.IsTerminal())
  {
    var st' := Reconciled(st, i, lists, now);
    ReconcileTouchesOnlyTheStatus(st, i, lists, now);
    if st'.issues[i] != st.issues[i] && st'.issues[i].status.IsTerminal() {
      OnlyResolvedCloses(st, i, lists);
      ResolvedIsCleared(st, i, lists);
    }
  }

  lemma ReconcileKeeps(st: StoreState, i: Id, lists: ClassificationLists, now: nat)
    requires StoreInvariant(st) && AllCleared(st) && i in st.issues
    ensures StoreInvariant(Reconciled(st, i, lists, now)) && AllCleared(Reconciled(st, i, lists, now))
  {
    ReconcileTouchesOnlyTheStatus(st, i, lists, now);
    ReconcileClosesCleared(st, i, lists, now);
    StatusKeeps(st, Reconciled(st, i, lists, now), i);
  }

  lemma StatusKeeps(st: StoreState, st': StoreState, i: Id)
    requires StoreInvariant(st) && AllCleared(st) && i in st.issues && st' == st.(issues := st'.issues)
    requires st'.issues.Keys == st.issues.Keys && forall k :: k in st.issues && k != i ==> st'.issues[k] == st.issues[k]
    requires st'.issues[i] == st.issues[i]
             || (st.issues[i].status.CanBecome(st'.issues[i].status) && st'.issues[i] == st.issues[i].(status := st'.issues[i].status))
    requires st'.issues[i] != st.issues[i] && st'.issues[i].status.IsTerminal() ==> Cleared(st, i)
    ensures StoreInvariant(st') && AllCleared(st')
  {
    if st'.issues[i] == st.issues[i] {
      assert st'.issues == st.issues;
      assert st' == st;
    } else {
      assert st' == st.PutIssue(st.issues[i].(status := st'.issues[i].status));
      IssueWritten(st, st.issues[i], st'.issues[i].status);
      ClearedCarries(st, st', i);
    }
  }

  lemma ClearedCarries(st: StoreState, st': StoreState, i: Id)
    requires AllCleared(st) && st' == st.(issues := st'.issues)
    requires forall k :: k != i && Closed(st', k) ==> Closed(st, k)
    requires Closed(st', i) ==> Cleared(st, i)
    ensures AllCleared(st')
  {
    forall k | Closed(st', k) ensures Cleared(st', k) { assert Cleared(st, k); }
  }

  /** Reconciling is done after one turn, and turning to another Issue does not undo it. */
  lemma ReconcileSteadies(st: StoreState, i: Id, lists: ClassificationLists, now: nat)
    requires StoreInvariant(st) && AllCleared(st) && i in st.issues && KeyedById(Reconciled(st, i, lists, now))
    ensures Steady(Reconciled(st, i, lists, now), i, lists)
    ensures forall k :: Steady(st, k, lists) ==> Steady(Reconciled(st, i, lists, now), k, lists)
    ensures Steady(st, i, lists) ==> Reconciled(st, i, lists, now) == st
  {
    ReconcileTouchesOnlyTheStatus(st, i, lists, now);
    ReconcileFixed(st, i, lists, now);
    SteadyAfter(st, Reconciled(st, i, lists, now), i, lists);
  }

  lemma ReconcileFixed(st: StoreState, i: Id, lists: ClassificationLists, now: nat)
    requires KeyedById(st) && AllCleared(st) && i in st.issues
    ensures Steady(st, i, lists) ==> Reconciled(st, i, lists, now) == st
    ensures st.LiveIssue(i) && !Unmoved(st, i, lists) ==>
              i in Reconciled(st, i, lists, now).issues
              && Derived(st, i, lists) == Some(Reconciled(st, i, lists, now).issues[i].status)
  {
    if Closed(st, i) { ClearedIsFixed(st, {i}, now); }
  }

  lemma SteadyAfter(st: StoreState, st': StoreState, i: Id, lists: ClassificationLists)
    requires KeyedById(st) && KeyedById(st') && i in st.issues && st' == st.(issues := st'.issues)
    requires st'.issues.Keys == st.issues.Keys && forall k :: k in st.issues && k != i ==> st'.issues[k] == st.issues[k]
    requires st'.issues[i] == st.issues[i].(status := st'.issues[i].status)
    requires st.LiveIssue(i) && !Unmoved(st, i, lists) ==> Derived(st, i, lists) == Some(st'.issues[i].status)
    requires Steady(st, i, lists) ==> st' == st
    ensures Steady(st', i, lists)
    ensures forall k :: Steady(st, k, lists) ==> Steady(st', k, lists)
  {
    forall k ensures Derived(st', k, lists) == Derived(st, k, lists) { DerivedFromRecords(st, st', k, lists); }
  }

  // ---------------------------------------------------------------- what recovery may change

  predicate Queued(a: ActionRun) { a.status.Ready? || a.status.WaitingForApproval? }

  predicate InterruptedJob(j: Job) { j.status.JQueued? || j.status.JRunning? }

  predicate InterruptedAction(a: ActionRun) { a.status.Proposed? || a.status.Running? || a.status.Verifying? }

  /** No record appears or disappears, archives and closed Issues stay as they are, and the durable
      queue of a live Issue keeps its approvals. */
  ghost predicate Progress(a: StoreState, b: StoreState) {
    && a.issues.Keys == b.issues.Keys && a.jobs.Keys == b.jobs.Keys && a.actions.Keys == b.actions.Keys
    && (forall i :: i in a.issues ==> IssueProgress(a.issues[i], b.issues[i]))
    && (forall j :: j in a.jobs ==> SameJob(a.jobs[j], b.jobs[j]) && (!a.Ours(a.jobs[j].issueId) ==> b.jobs[j] == a.jobs[j]))
    && (forall x :: x in a.actions ==> ActionProgress(a, b, a.actions[x], b.actions[x]))
    && (forall k :: k in a.snapshots ==> k in b.snapshots && b.snapshots[k] == a.snapshots[k])
  }

  predicate IssueProgress(was: Issue, next: Issue) {
    && next == was.(status := next.status) && (!was.IsLive() ==> next == was)
  }

  predicate ActionProgress(a: StoreState, b: StoreState, was: ActionRun, next: ActionRun) {
    && SameAction(was, next)
    && (!a.Ours(was.issueId) ==> next == was)
    && (a.LiveIssue(was.issueId) && Queued(was) ==> next == was && b.LiveIssue(was.issueId))
  }

  lemma ProgressTransitive(a: StoreState, b: StoreState, c: StoreState)
    requires Progress(a, b) && Progress(b, c)
    ensures Progress(a, c)
  {
    forall x | x in a.actions ensures ActionProgress(a, c, a.actions[x], c.actions[x]) {
      assert ActionProgress(a, b, a.actions[x], b.actions[x]) && ActionProgress(b, c, b.actions[x], c.actions[x]);
    }
    forall i | i in a.issues ensures IssueProgress(a.issues[i], c.issues[i]) {
      assert IssueProgress(a.issues[i], b.issues[i]) && IssueProgress(b.issues[i], c.issues[i]);
    }
    forall j | j in a.jobs ensures SameJob(a.jobs[j], c.jobs[j]) && (!a.Ours(a.jobs[j].issueId) ==> c.jobs[j] == a.jobs[j]) {
      assert SameJob(a.jobs[j], b.jobs[j]) && SameJob(b.jobs[j], c.jobs[j]);
    }
  }

  lemma JobProgress(st: StoreState, job: Job, op: JobOp)
    requires KeyedById(st) && st.HoldsJob(job) && op.Run(job).Ok? && st.Ours(job.issueId)
    ensures Progress(st, st.PutJob(op.Run(job).value))
  {
    JobRewriteEvolves(job, op);
  }

  lemma ActionRewriteProgress(st: StoreState, a: ActionRun, op: ActionOp, now: nat)
    requires KeyedById(st) && st.Holds(a) && op.Run(a, now).Ok? && st.Ours(a.issueId) && !Queued(a)
    ensures Progress(st, st.PutAction(op.Run(a, now).value))
  {
    RewriteEvolves(a, op, now);
  }

  lemma CancelProgress(st: StoreState, i: Id, now: nat)
    requires KeyedById(st) && Closed(st, i)
    ensures Progress(st, WorkCancelled(st, {i}, now))
  {
  }

  lemma ReconcileProgress(st: StoreState, i: Id, lists: ClassificationLists, now: nat)
    requires StoreInvariant(st) && AllCleared(st) && i in st.issues
    ensures Progress(st, Reconciled(st, i, lists, now))
  {
    var st' := Reconciled(st, i, lists, now);
    ReconcileTouchesOnlyTheStatus(st, i, lists, now);
    ReconcileClosesCleared(st, i, lists, now);
    StatusProgress(st, st', i);
  }

  lemma StatusProgress(st: StoreState, st': StoreState, i: Id)
    requires KeyedById(st) && i in st.issues && st' == st.(issues := st'.issues) && st'.issues.Keys == st.issues.Keys
    requires forall k :: k in st.issues && k != i ==> st'.issues[k] == st.issues[k]
    requires IssueProgress(st.issues[i], st'.issues[i])
    requires st'.issues[i] != st.issues[i] && st'.issues[i].status.IsTerminal() ==>
               forall id :: id in st.actions && st.actions[id].issueId == i ==> st.actions[id].status.IsTerminal()
    ensures Progress(st, st')
  {
  }

  // ---------------------------------------------------------------- cancelling keeps the store sound

  lemma CancelKeeps(st: StoreState, i: Id, now: nat)
    requires StoreInvariant(st) && Closed(st, i)
    ensures StoreInvariant(WorkCancelled(st, {i}, now))
  {
    var st' := WorkCancelled(st, {i}, now);
    assert KeyedById(st');
    CancelIntake(st, st');
    CancelRecords(st, st', i, now);
  }

  lemma CancelIntake(st: StoreState, st': StoreState)
    requires Intake(st) && st'.issues == st.issues && st'.events == st.events
    ensures Intake(st')
  {
    forall i, key | LiveWithKey(st', i, key) ensures LiveWithKey(st, i, key) {}
    forall i, r | OpenedBy(st', i, r) ensures OpenedBy(st, i, r) {}
  }

  lemma CancelRecords(st: StoreState, st': StoreState, i: Id, now: nat)
    requires KeyedById(st) && RecordsFine(st) && st' == WorkCancelled(st, {i}, now)
    ensures RecordsFine(st')
  {
    forall id | id in st'.jobs && st'.Ours(st'.jobs[id].issueId) ensures JobFine(st', st'.jobs[id]) {
      assert JobFine(st, st.jobs[id]);
      StoppedJobFine(st, st', i, now, st.jobs[id]);
    }
    forall id | id in st'.actions && st'.Ours(st'.actions[id].issueId) ensures ActionFine(st', st'.actions[id]) {
      assert ActionFine(st, st.actions[id]);
      StoppedActionFine(st, st', i, now, st.actions[id]);
    }
  }

  lemma StoppedJobFine(st: StoreState, st': StoreState, i: Id, now: nat, j: Job)
    requires st' == WorkCancelled(st, {i}, now) && JobFine(st, j)
    ensures JobFine(st', j) && JobFine(st', StopJob(j))
  {
    if ClaimsSolved(j) {
      var id :| id in st.actions && EvidenceFor(st, j, st.actions[id]);
      assert st'.actions[id] == st.actions[id];
      assert EvidenceFor(st', j, st'.actions[id]);
    }
    forall k | 0 <= k < |j.brief.feedback| ensures OriginKnown(st', j.brief.feedback[k].origin) {
      assert OriginKnown(st, j.brief.feedback[k].origin);
    }
  }

  lemma StoppedActionFine(st: StoreState, st': StoreState, i: Id, now: nat, a: ActionRun)
    requires st' == WorkCancelled(st, {i}, now) && ActionFine(st, a)
    ensures ActionFine(st', a) && ActionFine(st', StopAction(a, now))
  {
    if Cancellable(a) { RewriteEvolves(a, OpCancel, now); }
  }
}
