/** What the interleaved protocol guarantees: resolution, closure, freezing, approval, intake. */
module ProtocolTheorems {
  import opened Wrappers
  import opened Policy
  import opened Domain
  import opened Matching
  import opened Reconciliation
  import opened Store
  import opened Protocol
  import opened ProtocolInvariant
  import opened ProtocolStability
  import opened ProtocolProof

  // ---------------------------------------------------------------- closed Issues

  /** Whenever the lifecycle lock is free, no closed Issue of ours owns an unfinished Job or an action
      that is proposed, waiting for approval, or ready. */
  lemma ClosedIssuesAreQuiet(run: seq<State>, k: nat, i: Id)
    requires IsRun(run) && k < |run| && run[k].lifecycle.None?
    requires run[k].st.Ours(i) && run[k].st.issues[i].status.IsTerminal()
    ensures forall j :: j in run[k].st.jobs && run[k].st.jobs[j].issueId == i ==> run[k].st.jobs[j].status.IsTerminal()
    ensures forall a :: a in run[k].st.actions && run[k].st.actions[a].issueId == i ==>
              run[k].st.actions[a].status !in {Proposed, WaitingForApproval, Ready}
  {
    RunInv(run, k);
    assert Closed(run[k].st, i);
  }

  // ---------------------------------------------------------------- what Resolved means

  /** `reconcile_issue` is about to be the one that closes the Issue. */
  ghost predicate Resolves(s: State, s': State, t: Tid, i: Id) {
    && t in s.pc && s.pc[t].Reconciling? && s.pc[t].r.ReconcileActions? && s.pc[t].r.issue.id == i
    && i in s.st.issues && !s.st.issues[i].status.Resolved?
    && i in s'.st.issues && s'.st.issues[i].status.Resolved?
  }

  /** Nothing on the Issue is unfinished or unreviewed in the store itself. */
  ghost predicate AllSettled(st: StoreState, i: Id) {
    && (forall j :: j in st.jobs && st.jobs[j].issueId == i ==> st.jobs[j].status.IsTerminal() && !st.jobs[j].NeedsReview())
    && (forall a :: a in st.actions && st.actions[a].issueId == i ==> st.actions[a].status.IsTerminal() && !st.actions[a].NeedsReview())
  }

  /** `f` gives each proposal of the pass a stored ActionRun of its own. */
  ghost predicate OwnActions(st: StoreState, job: Job, f: seq<Id>)
    requires job.result.Some?
  {
    && |f| == |job.result.value.proposals|
    && (forall k :: 0 <= k < |f| ==> f[k] in st.actions && st.actions[f[k]].jobId == job.id
                                     && st.actions[f[k]].intent == job.result.value.proposals[k])
    && (forall k, l :: 0 <= k < l < |f| ==> f[k] != f[l])
  }

  ghost predicate NoPartialBatch(st: StoreState, i: Id) {
    forall j :: j in st.jobs && st.jobs[j].issueId == i && st.jobs[j].status.JCompleted? ==>
      st.jobs[j].result.Some? && exists f :: OwnActions(st, st.jobs[j], f)
  }

  ghost predicate HasRemediation(st: StoreState, i: Id) {
    exists a :: a in st.actions && st.actions[a].issueId == i && Remediates(st.actions[a])
  }

  /** The remediation, and the stored Snapshot in which each of its targets was Healthy after it started. */
  ghost predicate HasHealed(st: StoreState, i: Id) {
    exists a :: a in st.actions && st.actions[a].issueId == i && Remediates(st.actions[a]) && SeenHealed(st, st.actions[a])
  }

  lemma RemediationHealed(st: StoreState, i: Id)
    requires RecordsFine(st) && st.Ours(i) && HasRemediation(st, i)
    ensures HasHealed(st, i)
  {
    var a :| a in st.actions && st.actions[a].issueId == i && Remediates(st.actions[a]);
    assert ActionFine(st, st.actions[a]);
  }

  lemma EvolvedSettled(x: ActionRun, y: ActionRun)
    requires ActionEvolves(x, y) && x.status.IsTerminal() && !x.NeedsReview()
    ensures y.status == x.status && y.intent == x.intent && y.jobId == x.jobId && !y.NeedsReview()
    ensures Remediates(x) ==> Remediates(y)
  {
  }

  lemma ReadingsStillHold(st: StoreState, i: Id, jobs: seq<Job>, actions: seq<ActionRun>)
    requires JobsCovered(st, i, jobs) && ActionsCovered(st, i, actions) && Settled(jobs, actions)
    ensures AllSettled(st, i)
  {
    forall a | a in st.actions && st.actions[a].issueId == i
      ensures st.actions[a].status.IsTerminal() && !st.actions[a].NeedsReview()
    {
      var x :| x in actions && x.id == a;
      EvolvedSettled(x, st.actions[a]);
    }
    forall j | j in st.jobs && st.jobs[j].issueId == i
      ensures st.jobs[j].status.IsTerminal() && !st.jobs[j].NeedsReview()
    {
      var x :| x in jobs && x.id == j;
      assert JobEvolves(x, st.jobs[j]);
    }
  }

  function IdsOf(m: seq<ActionRun>): (f: seq<Id>)
    ensures |f| == |m| && forall k :: 0 <= k < |m| ==> f[k] == m[k].id
  {
    seq(|m|, k requires 0 <= k < |m| => m[k].id)
  }

  /** A matching over the reading is a matching over the store. */
  lemma MatchingIds(st: StoreState, i: Id, job: Job, actions: seq<ActionRun>, m: seq<ActionRun>)
    requires ActionsCovered(st, i, actions) && Settled([], actions)
    requires job.result.Some? && IsMatching(job, actions, job.result.value.proposals, m)
    ensures OwnActions(st, job, IdsOf(m))
  {
    forall k | 0 <= k < |m| ensures MatchedBy(st, job, job.result.value.proposals[k], m[k].id) {
      assert m[k] in multiset(m);
      MatchedStored(st, i, job, actions, m[k]);
    }
    forall k, l | 0 <= k < l < |m| ensures m[k].id != m[l].id { DistinctMatching(actions, m, k, l); }
  }

  lemma MatchingStored(st: StoreState, i: Id, job: Job, actions: seq<ActionRun>)
    requires ActionsCovered(st, i, actions) && Settled([], actions)
    requires job.result.Some? && Materialized(job, actions)
    ensures exists f :: OwnActions(st, job, f)
  {
    MaterializedIffMatching(job, actions);
    var m: seq<ActionRun> :| IsMatching(job, actions, job.result.value.proposals, m);
    MatchingIds(st, i, job, actions, m);
  }

  predicate MatchedBy(st: StoreState, job: Job, p: Proposal, id: Id) {
    id in st.actions && st.actions[id].jobId == job.id && st.actions[id].intent == p
  }

  lemma MatchedStored(st: StoreState, i: Id, job: Job, actions: seq<ActionRun>, x: ActionRun)
    requires ActionsCovered(st, i, actions) && Settled([], actions) && x in multiset(actions) && x.jobId == job.id
    ensures MatchedBy(st, job, x.intent, x.id)
  {
    assert x in actions;
    EvolvedSettled(x, st.actions[x.id]);
  }

  lemma DistinctMatching(actions: seq<ActionRun>, m: seq<ActionRun>, k: nat, l: nat)
    requires k < l < |m| && multiset(m) <= multiset(actions)
    requires forall i, j :: 0 <= i < j < |actions| ==> actions[i].id != actions[j].id
    ensures m[k].id != m[l].id
  {
    if m[k].id == m[l].id {
      assert m[k] in multiset(m) && m[l] in multiset(m);
      assert m[k] in actions && m[l] in actions;
      assert m[k] == m[l];
      assert m == m[..k] + [m[k]] + m[k + 1..l] + [m[l]] + m[l + 1..];
      assert multiset(m)[m[k]] >= 2;
      OnceInDistinct(actions, m[k]);
    }
  }

  lemma {:induction false} OnceInDistinct(xs: seq<ActionRun>, a: ActionRun)
    requires forall i, j :: 0 <= i < j < |xs| ==> xs[i].id != xs[j].id
    ensures multiset(xs)[a] <= 1
  {
    if xs != [] {
      OnceInDistinct(xs[1..], a);
      assert xs == [xs[0]] + xs[1..];
      if xs[0] == a { assert a !in xs[1..]; }
    }
  }

  lemma BatchesStored(st: StoreState, i: Id, jobs: seq<Job>, actions: seq<ActionRun>)
    requires JobsCovered(st, i, jobs) && ActionsCovered(st, i, actions) && Settled(jobs, actions)
    requires st.Ours(i) && RecordsFine(st)
    ensures NoPartialBatch(st, i)
  {
    forall j | j in st.jobs && st.jobs[j].issueId == i && st.jobs[j].status.JCompleted?
      ensures st.jobs[j].result.Some? && exists f :: OwnActions(st, st.jobs[j], f)
    {
      var x :| x in jobs && x.id == j;
      assert JobEvolves(x, st.jobs[j]) && x.status.IsTerminal();
      assert JobFine(st, st.jobs[j]);
      MatchingStored(st, i, x, actions);
      var f :| OwnActions(st, x, f);
      assert OwnActions(st, st.jobs[j], f);
    }
  }

  /** Although Jobs and then ActionRuns are read at different moments while others keep writing, at
      the moment the Issue becomes Resolved everything on it is finished and reviewed, and every
      proposal of every completed pass has its own ActionRun. */
  lemma ResolvedIsSettled(run: seq<State>, k: nat, t: Tid, i: Id)
    requires IsRun(run) && k + 1 < |run| && Step(run[k], run[k + 1], t) && Resolves(run[k], run[k + 1], t, i)
    ensures AllSettled(run[k + 1].st, i)
    ensures NoPartialBatch(run[k + 1].st, i)
  {
    RunContext(run, k, t);
    SettledAtCommit(run[k], run[k + 1], t, i);
  }

  lemma SettledAtCommit(s: State, s': State, t: Tid, i: Id)
    requires Context(s, t) && PcHolds(s, s.pc[t]) && Step(s, s', t) && Resolves(s, s', t, i)
    ensures AllSettled(s'.st, i) && NoPartialBatch(s'.st, i)
  {
    ResolvingReading(s, s', t, i);
    ReadingsStillHold(s.st, i, s.pc[t].r.jobs, s.pc[t].r.actions);
    BatchesStored(s.st, i, s.pc[t].r.jobs, s.pc[t].r.actions);
    SameBatches(s.st, s'.st, i);
  }

  lemma SameBatches(st: StoreState, st': StoreState, i: Id)
    requires st'.jobs == st.jobs && st'.actions == st.actions
    requires AllSettled(st, i) && NoPartialBatch(st, i)
    ensures AllSettled(st', i) && NoPartialBatch(st', i)
  {
    forall j | j in st'.jobs && st'.jobs[j].issueId == i && st'.jobs[j].status.JCompleted?
      ensures exists f :: OwnActions(st', st'.jobs[j], f)
    {
      var f :| OwnActions(st, st.jobs[j], f);
      assert OwnActions(st', st'.jobs[j], f);
    }
  }

  lemma ResolvingReading(s: State, s': State, t: Tid, i: Id)
    requires t in s.pc && PcHolds(s, s.pc[t]) && Step(s, s', t) && Resolves(s, s', t, i)
    ensures s.st.LiveIssue(i) && JobsCovered(s.st, i, s.pc[t].r.jobs) && ActionsCovered(s.st, i, s.pc[t].r.actions)
    ensures s.pc[t].r.jobs != [] && Settled(s.pc[t].r.jobs, s.pc[t].r.actions)
    ensures ResolutionGround(LatestJob(s.pc[t].r.jobs), s.pc[t].r.actions)
    ensures s.st.HoldsIssue(s.pc[t].r.issue) && s'.st == s.st.PutIssue(s.pc[t].r.issue.(status := Resolved))
  {
    var r := s.pc[t].r;
    assert AtPc(s, t, Reconciling(r));
    assert ReconcileHolds(s.st, r);
    assert DeriveIssueStatus(r.jobs, r.actions, r.lists) == Some(Resolved);
    ResolvedIffSettledWithGround(r.jobs, r.actions, r.lists);
  }

  /** An Issue is never resolved on a Team's word: a real, mutating action succeeded on it, and a stored
      Snapshot shows every target of it Healthy after it started. */
  lemma ResolvedIsRemediated(run: seq<State>, k: nat, t: Tid, i: Id)
    requires IsRun(run) && k + 1 < |run| && Step(run[k], run[k + 1], t) && Resolves(run[k], run[k + 1], t, i)
    ensures HasHealed(run[k + 1].st, i)
  {
    RunContext(run, k, t);
    RunContext(run, k + 1, t);
    HealedAtCommit(run[k], run[k + 1], t, i);
  }

  lemma HealedAtCommit(s: State, s': State, t: Tid, i: Id)
    requires Context(s, t) && PcHolds(s, s.pc[t]) && Step(s, s', t) && Resolves(s, s', t, i) && Context(s', t)
    ensures HasHealed(s'.st, i)
  {
    RemediatedAtCommit(s, s', t, i);
    ResolvedIsOurs(s, s', t, i);
    RemediationHealed(s'.st, i);
  }

  lemma ResolvedIsOurs(s: State, s': State, t: Tid, i: Id)
    requires t in s.pc && PcHolds(s, s.pc[t]) && Step(s, s', t) && Resolves(s, s', t, i)
    ensures s'.st.Ours(i)
  {
    ResolvingReading(s, s', t, i);
  }

  lemma RemediatedAtCommit(s: State, s': State, t: Tid, i: Id)
    requires Context(s, t) && PcHolds(s, s.pc[t]) && Step(s, s', t) && Resolves(s, s', t, i)
    ensures HasRemediation(s'.st, i)
  {
    ResolvingReading(s, s', t, i);
    GroundStored(s.st, i, s.pc[t].r.jobs, s.pc[t].r.actions);
    var a :| a in s.st.actions && s.st.actions[a].issueId == i && Remediates(s.st.actions[a]);
    assert a in s'.st.actions;
  }

  lemma GroundStored(st: StoreState, i: Id, jobs: seq<Job>, actions: seq<ActionRun>)
    requires RecordsFine(st) && st.Ours(i) && jobs != []
    requires JobsCovered(st, i, jobs) && ActionsCovered(st, i, actions) && Settled(jobs, actions)
    requires ResolutionGround(LatestJob(jobs), actions)
    ensures HasRemediation(st, i)
  {
    var latest := LatestJob(jobs);
    assert JobEvolves(latest, st.jobs[latest.id]);
    if ClaimsSolved(latest) {
      assert JobFine(st, st.jobs[latest.id]);
      var a :| a in st.actions && EvidenceFor(st, st.jobs[latest.id], st.actions[a]);
    } else {
      var x :| x in actions && x.jobId == latest.id && Remediates(x);
      EvolvedSettled(x, st.actions[x.id]);
    }
  }

  /** Once a remediation is stored it stays: later steps cannot take the ground away. */
  lemma RemediationStays(s: State, s': State, t: Tid, i: Id)
    requires Guarantee(s, s', t) && HasRemediation(s.st, i)
    ensures HasRemediation(s'.st, i)
  {
    var a :| a in s.st.actions && s.st.actions[a].issueId == i && Remediates(s.st.actions[a]);
    assert ActionEvolves(s.st.actions[a], s'.st.actions[a]);
  }

  /** A recorded `Solved` is always backed: a remediation on the Issue whose targets, like every
      resource the Issue affects, were Healthy in the Snapshot the Team reasoned over. */
  lemma SolvedIsBacked(run: seq<State>, k: nat, j: Id)
    requires IsRun(run) && k < |run|
    requires j in run[k].st.jobs && run[k].st.Ours(run[k].st.jobs[j].issueId) && ClaimsSolved(run[k].st.jobs[j])
    ensures SolvedEvidence(run[k].st, run[k].st.jobs[j])
  {
    RunInv(run, k);
    assert JobFine(run[k].st, run[k].st.jobs[j]);
  }
}
