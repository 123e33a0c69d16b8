/** Follow-ups after approvals: several approvals of one pass race, and yield one follow-up, when the pass
    has settled (src/runner.rs:1451-1499). The loop of `Passes` may dispatch follow-ups of its own. */
module FollowUp {
  import opened Wrappers
  import opened Policy
  import opened Domain
  import opened Matching
  import opened Store

  type Tid = nat

  /** `follow_up_after_approval` between its store operations; `Held` and later hold `follow_up_lock`. */
  datatype Pc =
    | Idle
    | Waiting(pass: Id)
    | Held(pass: Id)
    | PassRead(job: Job)
    | PassSettled(job: Job)
    | NoneYet(job: Job)
    | Leaving
  {
    predicate HoldsLock() { !Idle? && !Waiting? }
  }

  /** `made` holds the ActionRuns the proposals of a pass have become; `approved` are the Jobs that the
      approval path dispatched. */
  datatype State = State(
    jobs: map<Id, Job>, actions: map<Id, ActionRun>, made: map<Id, set<Id>>, approved: set<Id>, lock: Option<Tid>, pc: map<Tid, Pc>)

  function ActionsOf(actions: map<Id, ActionRun>, pass: Id): map<Id, ActionRun> {
    map id | id in actions && actions[id].jobId == pass :: actions[id]
  }

  function Goto(s: State, t: Tid, p: Pc): State { s.(pc := s.pc[t := p]) }

  predicate Requested(j: Job) { j.result.Some? && j.result.value.followUpRequested }

  predicate HasFollowUp(jobs: map<Id, Job>, pass: Id) { exists id :: id in jobs && jobs[id].brief.continues == Some(pass) }

  /** The checks on the actions of the pass, as they were listed. */
  predicate Ripe(job: Job, siblings: seq<ActionRun>) {
    && Materialized(job, siblings)
    && (forall a :: a in siblings ==> a.status.IsTerminal())
    && (exists a :: a in siblings && a.WasExecuted())
  }

  // ---------------------------------------------------------------- steps

  /** The follow-up is stored; the lock is still held. */
  predicate DispatchStep(s: State, s': State, t: Tid, next: Job) {
    && t in s.pc && s.pc[t].NoneYet? && next.id !in s.jobs && next.brief.continues == Some(s.pc[t].job.id)
    && s' == Goto(s, t, Leaving).(jobs := s.jobs[next.id := next], made := s.made[next.id := {}],
                                  approved := s.approved + {next.id})
  }

  ghost predicate Dispatches(s: State, s': State) { exists t, next :: DispatchStep(s, s', t, next) }

  /** Everything before the dispatch only reads. */
  ghost predicate ReadStep(s: State, s': State, t: Tid) {
    && t in s.pc && t in s'.pc
    && match s.pc[t]
       case Idle =>
         // An approved action of that pass exists.
         && s'.pc[t].Waiting?
         && (exists id :: id in s.actions && s.actions[id].jobId == s'.pc[t].pass)
         && s' == Goto(s, t, s'.pc[t])
       case Waiting(pass) => s.lock.None? && s' == Goto(s, t, Held(pass)).(lock := Some(t))
       case Held(pass) =>
         // The Issue may be closed, the pass may not have asked, its budget may be spent.
         || s' == Goto(s, t, Leaving)
         || (pass in s.jobs && Requested(s.jobs[pass]) && s.jobs[pass].brief.followUpBudget > 0
             && s' == Goto(s, t, PassRead(s.jobs[pass])))
       case PassRead(job) =>
         exists siblings: seq<ActionRun> :: ListsActions(siblings, ActionsOf(s.actions, job.id)) &&
           s' == Goto(s, t, if Ripe(job, siblings) then PassSettled(job) else Leaving)
       case PassSettled(job) => s' == Goto(s, t, if HasFollowUp(s.jobs, job.id) then Leaving else NoneYet(job))
       case NoneYet(job) => s' == Goto(s, t, Leaving)
       case Leaving => s' == Goto(s, t, Idle).(lock := None)
  }

  /** The driver of a pass turns its proposals into actions, one after the other, once it is completed. */
  predicate CreateStep(s: State, s': State, a: ActionRun) {
    && Completed(s.jobs, a.jobId) && a.jobId in s.made
    && var made := s.made[a.jobId];
       var proposals := s.jobs[a.jobId].result.value.proposals;
       && |made| < |proposals| && a.intent == proposals[|made|]
       && a.id !in s.actions && a.id !in made && a.status.Proposed?
       && s' == s.(actions := s.actions[a.id := a], made := s.made[a.jobId := made + {a.id}])
  }

  predicate ActionMoves(s: State, s': State, id: Id, b: ActionRun) {
    id in s.actions && ActionEvolves(s.actions[id], b) && s' == s.(actions := s.actions[id := b])
  }

  predicate JobMoves(s: State, s': State, id: Id, b: Job) {
    id in s.jobs && JobEvolves(s.jobs[id], b) && s' == s.(jobs := s.jobs[id := b])
  }

  /** Any other dispatch, the pass loop's own follow-ups included. */
  predicate JobAppears(s: State, s': State, next: Job) {
    next.id !in s.jobs && s' == s.(jobs := s.jobs[next.id := next], made := s.made[next.id := {}])
  }

  ghost predicate Elsewhere(s: State, s': State) {
    || (exists a :: CreateStep(s, s', a))
    || (exists id, b :: ActionMoves(s, s', id, b))
    || (exists id, b :: JobMoves(s, s', id, b))
    || (exists next :: JobAppears(s, s', next))
  }

  ghost predicate Step(s: State, s': State) {
    (exists t :: ReadStep(s, s', t)) || Dispatches(s, s') || Elsewhere(s, s')
  }

  // ---------------------------------------------------------------- invariant

  predicate Completed(jobs: map<Id, Job>, pass: Id) {
    pass in jobs && jobs[pass].status.JCompleted? && jobs[pass].result.Some?
  }

  /** Every proposal has become an action, every action is finished, and one of them ran. */
  ghost predicate Settled(s: State, pass: Id) {
    && Completed(s.jobs, pass) && pass in s.made && |s.made[pass]| == |s.jobs[pass].result.value.proposals|
    && (forall id :: id in s.actions && s.actions[id].jobId == pass ==> s.actions[id].status.IsTerminal())
    && (exists id :: id in s.actions && s.actions[id].jobId == pass && s.actions[id].WasExecuted())
  }

  /** Actions belong to completed passes, no more of them than there are proposals. */
  ghost predicate Counted(s: State) {
    && s.made.Keys == s.jobs.Keys
    && (forall id :: id in s.actions ==> s.actions[id].jobId in s.made && id in s.made[s.actions[id].jobId])
    && (forall j :: j in s.made && s.made[j] != {} ==>
          Completed(s.jobs, j) && |s.made[j]| <= |s.jobs[j].result.value.proposals|)
  }

  ghost predicate Keyed(s: State) {
    (forall id :: id in s.actions ==> s.actions[id].id == id) && (forall id :: id in s.jobs ==> s.jobs[id].id == id)
  }

  predicate Locked(s: State) {
    && (forall t :: t in s.pc ==> (s.pc[t].HoldsLock() <==> s.lock == Some(t)))
    && (s.lock.Some? ==> s.lock.value in s.pc)
  }

  predicate NoneApproved(s: State, pass: Id) {
    forall id :: id in s.approved ==> id in s.jobs && s.jobs[id].brief.continues != Some(pass)
  }

  ghost predicate PcHolds(s: State, p: Pc) {
    match p
    case Waiting(pass) => Completed(s.jobs, pass)
    case Held(pass) => Completed(s.jobs, pass)
    case PassRead(job) => Completed(s.jobs, job.id) && s.jobs[job.id].result == job.result
    case PassSettled(job) => Settled(s, job.id)
    case NoneYet(job) => Settled(s, job.id) && NoneApproved(s, job.id)
    case _ => true
  }

  ghost predicate OneEach(s: State) {
    && (forall id :: id in s.approved ==> id in s.jobs)
    && forall a, b :: a in s.approved && b in s.approved && s.jobs[a].brief.continues == s.jobs[b].brief.continues ==> a == b
  }

  ghost predicate Records(s: State) { Keyed(s) && Counted(s) }

  ghost predicate Inv(s: State) {
    Records(s) && Locked(s) && OneEach(s) && forall t :: t in s.pc ==> PcHolds(s, s.pc[t])
  }

  // ---------------------------------------------------------------- records under everybody's steps

  /** What any step keeps of the records. */
  ghost predicate Kept(s: State, s': State) {
    && (forall j :: Completed(s.jobs, j) ==> Completed(s'.jobs, j) && s'.jobs[j].result == s.jobs[j].result)
    && (forall j :: j in s.jobs ==> j in s'.jobs && s'.jobs[j].brief == s.jobs[j].brief)
    && (forall id :: id in s.actions ==> id in s'.actions && ActionEvolves(s.actions[id], s'.actions[id]))
    && (forall j :: j in s.made ==> j in s'.made && s.made[j] <= s'.made[j])
    && (forall id :: id in s'.actions && id !in s.actions ==>
          var j := s'.actions[id].jobId; j in s.made && j in s'.made && id in s'.made[j] && id !in s.made[j])
  }

  lemma SameRecords(s: State, s': State)
    requires Records(s) && s'.jobs == s.jobs && s'.actions == s.actions && s'.made == s.made
    ensures Kept(s, s') && Records(s')
  {
  }

  lemma CreateKeeps(s: State, s': State, a: ActionRun)
    requires Records(s) && CreateStep(s, s', a)
    ensures Kept(s, s') && Records(s')
  {
    CreateKept(s, s', a);
    CreateCounted(s, s', a);
    assert Keyed(s');
  }

  lemma CreateKept(s: State, s': State, a: ActionRun)
    requires Records(s) && CreateStep(s, s', a)
    ensures Kept(s, s')
  {
  }

  lemma CreateCounted(s: State, s': State, a: ActionRun)
    requires Counted(s) && CreateStep(s, s', a)
    ensures Counted(s')
  {
    assert |s'.made[a.jobId]| == |s.made[a.jobId]| + 1;
  }

  lemma ActionKeeps(s: State, s': State, id: Id, b: ActionRun)
    requires Records(s) && ActionMoves(s, s', id, b)
    ensures Kept(s, s') && Records(s')
  {
  }

  lemma JobKeeps(s: State, s': State, id: Id, b: Job)
    requires Records(s) && JobMoves(s, s', id, b)
    ensures Kept(s, s') && Records(s')
  {
  }

  lemma AppearKeeps(s: State, s': State, next: Job)
    requires Records(s) && next.id !in s.jobs
    requires s'.jobs == s.jobs[next.id := next] && s'.made == s.made[next.id := {}] && s'.actions == s.actions
    ensures Kept(s, s') && Records(s')
  {
  }

  lemma ElsewhereKeeps(s: State, s': State)
    requires Records(s) && Elsewhere(s, s')
    ensures Kept(s, s') && Records(s') && s'.approved == s.approved && s'.pc == s.pc && s'.lock == s.lock
  {
    if a :| CreateStep(s, s', a) { CreateKeeps(s, s', a); }
    else if id, b :| ActionMoves(s, s', id, b) { ActionKeeps(s, s', id, b); }
    else if id, b :| JobMoves(s, s', id, b) { JobKeeps(s, s', id, b); }
    else { var next :| JobAppears(s, s', next); AppearKeeps(s, s', next); }
  }

  lemma FinishedStays(a: ActionRun, b: ActionRun)
    requires ActionEvolves(a, b) && a.status.IsTerminal()
    ensures b.status == a.status && b.jobId == a.jobId
  {
  }

  /** A settled pass stays settled: nobody has a proposal left to turn into an action. */
  lemma SettledStays(s: State, s': State, pass: Id)
    requires Kept(s, s') && Counted(s') && Settled(s, pass)
    ensures Settled(s', pass)
  {
    NoNewAction(s, s', pass);
    forall id | id in s'.actions && s'.actions[id].jobId == pass ensures s'.actions[id].status.IsTerminal() {
      assert SameAction(s.actions[id], s'.actions[id]);
      FinishedStays(s.actions[id], s'.actions[id]);
    }
    var id :| id in s.actions && s.actions[id].jobId == pass && s.actions[id].WasExecuted();
    FinishedStays(s.actions[id], s'.actions[id]);
    assert s'.actions[id].WasExecuted();
  }

  lemma NoNewAction(s: State, s': State, pass: Id)
    requires Kept(s, s') && Counted(s') && Settled(s, pass)
    ensures Completed(s'.jobs, pass) && pass in s'.made && s'.made[pass] == s.made[pass]
    ensures s'.jobs[pass].result == s.jobs[pass].result
    ensures forall id :: id in s'.actions && s'.actions[id].jobId == pass ==> id in s.actions
  {
    Smaller(s.made[pass], s'.made[pass]);
  }

  lemma Smaller(a: set<Id>, b: set<Id>)
    requires a <= b
    ensures |a| <= |b| && (|a| == |b| ==> a == b)
  {
    var rest := b - a;
    assert b == a + rest && |b| == |a| + |rest|;
  }

  /** The listing shows every proposal materialized, so the driver has created all of them. */
  lemma RipeIsSettled(s: State, job: Job, siblings: seq<ActionRun>)
    requires Records(s) && Completed(s.jobs, job.id) && s.jobs[job.id].result == job.result
    requires ListsActions(siblings, ActionsOf(s.actions, job.id)) && Ripe(job, siblings)
    ensures Settled(s, job.id)
  {
    AllCreated(s, job, siblings);
    forall id | id in s.actions && s.actions[id].jobId == job.id ensures s.actions[id].status.IsTerminal() {
      assert ActionsOf(s.actions, job.id)[id] in siblings;
    }
    var a :| a in siblings && a.WasExecuted();
    assert a.id in ActionsOf(s.actions, job.id);
  }

  lemma AllCreated(s: State, job: Job, siblings: seq<ActionRun>)
    requires Records(s) && Completed(s.jobs, job.id) && s.jobs[job.id].result == job.result
    requires ListsActions(siblings, ActionsOf(s.actions, job.id)) && Materialized(job, siblings) && siblings != []
    ensures |s.made[job.id]| == |job.result.value.proposals|
  {
    forall x | x in siblings ensures x.jobId == job.id && x.id in s.made[job.id] {
      assert x.id in ActionsOf(s.actions, job.id);
    }
    AllOwned(siblings, job.id);
    BagSize(job.result.value.proposals, Intents(siblings));
    ListedCount(siblings, s.made[job.id]);
    assert siblings[0] in siblings;
  }

  lemma BagSize<T>(xs: seq<T>, ys: seq<T>)
    requires multiset(xs) <= multiset(ys)
    ensures |xs| <= |ys|
  {
    assert |multiset(xs)| == |xs| && |multiset(ys)| == |ys|;
    assert multiset(ys) == multiset(xs) + (multiset(ys) - multiset(xs));
  }

  lemma {:induction false} AllOwned(xs: seq<ActionRun>, pass: Id)
    requires forall x :: x in xs ==> x.jobId == pass
    ensures OwnedBy(xs, pass) == xs
  {
    if xs != [] { AllOwned(xs[1..], pass); }
  }

  lemma {:induction false} ListedCount(xs: seq<ActionRun>, ids: set<Id>)
    requires forall i, k :: 0 <= i < k < |xs| ==> xs[i].id != xs[k].id
    requires forall x :: x in xs ==> x.id in ids
    ensures |xs| <= |ids|
  {
    if xs != [] {
      var rest := xs[1..];
      assert xs[0] in xs;
      forall x | x in rest ensures x.id in ids - {xs[0].id} {
        var k :| 0 <= k < |rest| && rest[k] == x;
        assert xs[k + 1] == x && xs[0].id != xs[k + 1].id;
      }
      ListedCount(rest, ids - {xs[0].id});
    }
  }

  // ---------------------------------------------------------------- the threads

  lemma ReadsOnly(s: State, s': State, t: Tid)
    requires ReadStep(s, s', t)
    ensures s'.jobs == s.jobs && s'.actions == s.actions && s'.made == s.made && s'.approved == s.approved
    ensures s'.pc == s.pc[t := s'.pc[t]]
  {
  }

  lemma DispatchKeeps(s: State, s': State, t: Tid, next: Job)
    requires Records(s) && DispatchStep(s, s', t, next)
    ensures Kept(s, s') && Records(s')
  {
    AppearKeeps(s, s', next);
  }

  lemma PcStable(s: State, s': State, p: Pc)
    requires Kept(s, s') && Counted(s') && PcHolds(s, p)
    requires p.NoneYet? ==> s'.approved == s.approved
    ensures PcHolds(s', p)
  {
    if p.PassSettled? || p.NoneYet? { SettledStays(s, s', p.job.id); }
  }

  lemma SettledSame(s: State, s': State, pass: Id)
    requires Settled(s, pass) && s'.jobs == s.jobs && s'.actions == s.actions && s'.made == s.made
    ensures Settled(s', pass)
  {
    var id :| id in s.actions && s.actions[id].jobId == pass && s.actions[id].WasExecuted();
    assert s'.actions[id].WasExecuted();
  }

  lemma ReadMoved(s: State, s': State, t: Tid)
    requires Records(s) && OneEach(s) && ReadStep(s, s', t) && PcHolds(s, s.pc[t])
    ensures PcHolds(s', s'.pc[t])
  {
    ReadsOnly(s, s', t);
    match s.pc[t]
    case PassRead(job) =>
      if s'.pc[t].PassSettled? {
        var siblings: seq<ActionRun> :| ListsActions(siblings, ActionsOf(s.actions, job.id)) && Ripe(job, siblings);
        RipeIsSettled(s, job, siblings);
        SettledSame(s, s', job.id);
      }
    case PassSettled(job) => if s'.pc[t].NoneYet? { SettledSame(s, s', job.id); }
    case _ =>
  }

  /** The thread's own share of the lock, before and after its step. */
  predicate LockMoves(s: State, s': State, t: Tid) {
    && t in s.pc && t in s'.pc && s'.pc == s.pc[t := s'.pc[t]]
    && (s'.pc[t].HoldsLock() <==> s'.lock == Some(t))
    && (s'.lock == s.lock || (s.lock.None? && s'.lock == Some(t)) || (s.lock == Some(t) && s'.lock.None?))
  }

  lemma ReadMovesLock(s: State, s': State, t: Tid)
    requires ReadStep(s, s', t) && (s.pc[t].HoldsLock() <==> s.lock == Some(t))
    ensures LockMoves(s, s', t)
  {
  }

  lemma LocksKept(s: State, s': State, t: Tid)
    requires Locked(s) && LockMoves(s, s', t)
    ensures Locked(s')
  {
  }

  lemma OneEachAdded(s: State, s': State, t: Tid, next: Job)
    requires OneEach(s) && DispatchStep(s, s', t, next) && NoneApproved(s, s.pc[t].job.id)
    ensures OneEach(s')
  {
  }

  lemma OneEachStays(s: State, s': State)
    requires OneEach(s) && Kept(s, s') && s'.approved == s.approved
    ensures OneEach(s')
  {
  }

  lemma ReadInv(s: State, s': State, t: Tid)
    requires Inv(s) && ReadStep(s, s', t)
    ensures Inv(s')
  {
    ReadsOnly(s, s', t);
    SameRecords(s, s');
    ReadMovesLock(s, s', t);
    LocksKept(s, s', t);
    OneEachStays(s, s');
    ReadMoved(s, s', t);
    forall u | u in s'.pc ensures PcHolds(s', s'.pc[u]) {
      if u != t { PcStable(s, s', s.pc[u]); }
    }
  }

  lemma DispatchInv(s: State, s': State, t: Tid, next: Job)
    requires Inv(s) && DispatchStep(s, s', t, next)
    ensures Inv(s')
  {
    DispatchKeeps(s, s', t, next);
    LocksKept(s, s', t);
    OneEachAdded(s, s', t, next);
    forall u | u in s'.pc ensures PcHolds(s', s'.pc[u]) {
      if u != t { PcStable(s, s', s.pc[u]); }
    }
  }

  lemma ElsewhereInv(s: State, s': State)
    requires Inv(s) && Elsewhere(s, s')
    ensures Inv(s')
  {
    ElsewhereKeeps(s, s');
    OneEachStays(s, s');
    forall u | u in s'.pc ensures PcHolds(s', s'.pc[u]) { PcStable(s, s', s.pc[u]); }
  }

  lemma InvKept(s: State, s': State)
    requires Inv(s) && Step(s, s')
    ensures Inv(s')
  {
    if t :| ReadStep(s, s', t) { ReadInv(s, s', t); }
    else if t, next :| DispatchStep(s, s', t, next) { DispatchInv(s, s', t, next); }
    else { ElsewhereInv(s, s'); }
  }

  // ---------------------------------------------------------------- whole runs

  ghost predicate Init(s: State) {
    Records(s) && s.lock.None? && s.approved == {} && forall t :: t in s.pc ==> s.pc[t].Idle?
  }

  ghost predicate IsRun(run: seq<State>) {
    && run != [] && Init(run[0])
    && forall k :: 0 <= k < |run| - 1 ==> Step(run[k], run[k + 1])
  }

  lemma {:induction false} RunInv(run: seq<State>, k: nat)
    requires IsRun(run) && k < |run|
    ensures Inv(run[k])
  {
    if k > 0 {
      RunInv(run, k - 1);
      assert Step(run[k - 1], run[k - 1 + 1]);
      InvKept(run[k - 1], run[k]);
    }
  }

  /** However approvals of one pass interleave, they dispatch at most one follow-up for it. */
  lemma OneFollowUpPerPass(run: seq<State>, k: nat, a: Id, b: Id)
    requires IsRun(run) && k < |run| && a in run[k].approved && b in run[k].approved
    ensures a in run[k].jobs && b in run[k].jobs
    ensures run[k].jobs[a].brief.continues == run[k].jobs[b].brief.continues ==> a == b
  {
    RunInv(run, k);
  }

  /** And when it is dispatched the pass has settled: every proposal has its own action, every action is
      finished, and at least one was carried out. */
  lemma FollowUpOfSettledPass(run: seq<State>, k: nat, t: Tid, next: Job)
    requires IsRun(run) && k + 1 < |run| && DispatchStep(run[k], run[k + 1], t, next)
    ensures next.brief.continues.Some? && Settled(run[k + 1], next.brief.continues.value)
  {
    RunInv(run, k);
    DispatchSettled(run[k], run[k + 1], t, next);
  }

  lemma DispatchSettled(s: State, s': State, t: Tid, next: Job)
    requires Inv(s) && DispatchStep(s, s', t, next)
    ensures Settled(s', s.pc[t].job.id)
  {
    DispatchKeeps(s, s', t, next);
    assert PcHolds(s, s.pc[t]);
    SettledStays(s, s', s.pc[t].job.id);
  }
}
