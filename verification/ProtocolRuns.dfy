/** What holds along whole runs: freezing, authority to start, no ABA, bounded rewriting, intake. */
module ProtocolRuns {
  import opened Wrappers
  import opened Policy
  import opened Domain
  import opened Store
  import opened Protocol
  import opened ProtocolInvariant
  import opened ProtocolProof
  import opened ProtocolTheorems

  lemma RunStep(run: seq<State>, k: nat) returns (t: Tid)
    requires IsRun(run) && k + 1 < |run|
    ensures Step(run[k], run[k + 1], t) && Guarantee(run[k], run[k + 1], t)
  {
    RunInv(run, k);
    assert StepsTo(run[k], run[k + 1]);
    t :| Step(run[k], run[k + 1], t);
    InvKept(run[k], run[k + 1], t);
  }

  // ---------------------------------------------------------------- freezing

  ghost predicate Started(st: StoreState, id: Id) {
    id in st.actions && st.Ours(st.actions[id].issueId) && st.actions[id].startedAt.Some?
  }

  /** From the moment the mode is frozen until it changes again, nothing starts: every action of ours
      that has started had started before, at the same time. */
  lemma {:induction false} NothingStartsWhileFrozen(run: seq<State>, n: nat, m: nat, id: Id)
    requires IsRun(run) && n <= m < |run|
    requires forall k :: n <= k < m ==> !run[k].mode.AllowsActions()
    requires Started(run[m].st, id)
    ensures Started(run[n].st, id)
    ensures run[n].st.actions[id].startedAt == run[m].st.actions[id].startedAt
    decreases m - n
  {
    if n < m {
      var t := RunStep(run, m - 1);
      RunInv(run, m - 1);
      StartedBefore(run[m - 1], run[m], t, id);
      NothingStartsWhileFrozen(run, n, m - 1, id);
    }
  }

  lemma StartedBefore(s: State, s': State, t: Tid, id: Id)
    requires Guarantee(s, s', t) && Started(s'.st, id) && !s.mode.AllowsActions()
    requires id in s.st.actions ==> s.st.actions[id].issueId in s.st.issues
    ensures Started(s.st, id) && s.st.actions[id].startedAt == s'.st.actions[id].startedAt
  {
  }

  /** A Running action has started, so a freeze also bounds what can be running. */
  lemma RunningWasStarted(run: seq<State>, k: nat, id: Id)
    requires IsRun(run) && k < |run| && id in run[k].st.actions
    requires run[k].st.Ours(run[k].st.actions[id].issueId) && run[k].st.actions[id].status.Running?
    ensures Started(run[k].st, id)
  {
    RunInv(run, k);
    assert ActionFine(run[k].st, run[k].st.actions[id]);
  }

  /** Nothing becomes Running during a freeze either: whoever runs at its end ran before it, or was
      already started when it began. */
  lemma NothingRunsAnewWhileFrozen(run: seq<State>, n: nat, m: nat, id: Id)
    requires IsRun(run) && n <= m < |run| && id in run[m].st.actions
    requires forall k :: n <= k < m ==> !run[k].mode.AllowsActions()
    requires run[m].st.Ours(run[m].st.actions[id].issueId) && run[m].st.actions[id].status.Running?
    ensures Started(run[n].st, id) && !run[n].st.actions[id].status.IsUnstarted()
  {
    RunningWasStarted(run, m, id);
    NothingStartsWhileFrozen(run, n, m, id);
    RunInv(run, n);
    assert ActionFine(run[n].st, run[n].st.actions[id]);
  }

  // ---------------------------------------------------------------- authority to start

  /** The matrix asked nobody, inside the Job's own grant; or a named person approved. */
  ghost predicate Authorized(st: StoreState, a: ActionRun) {
    || (a.approval.NotRequired? && Automatic(st, a))
    || (a.approval.Approved? && a.approvedBy.Some?)
  }

  /** Whatever starts was Ready, authorised, on a live Issue, under a mode that allows actions. */
  lemma StartsAreAuthorized(run: seq<State>, k: nat, id: Id)
    requires IsRun(run) && k + 1 < |run|
    requires Started(run[k + 1].st, id) && !Started(run[k].st, id)
    ensures id in run[k].st.actions
    ensures StartAllowed(run[k], run[k].st.actions[id]) && Authorized(run[k].st, run[k].st.actions[id])
  {
    RunInv(run, k);
    var t := RunStep(run, k);
    StartedByGuarantee(run[k], run[k + 1], t, id);
    assert ActionFine(run[k].st, run[k].st.actions[id]);
  }

  lemma StartedByGuarantee(s: State, s': State, t: Tid, id: Id)
    requires Guarantee(s, s', t) && Started(s'.st, id) && !Started(s.st, id)
    requires id in s.st.actions ==> s.st.actions[id].issueId in s.st.issues
    ensures id in s.st.actions && StartAllowed(s, s.st.actions[id])
  {
    if id in s.st.actions {
      assert SameAction(s.st.actions[id], s'.st.actions[id]);
    }
  }

  // ---------------------------------------------------------------- a resolution lasts

  ghost predicate ResolvedForGood(st: StoreState, i: Id) {
    && st.Ours(i) && st.issues[i].status.Resolved? && AllSettled(st, i) && HasRemediation(st, i)
  }

  lemma SettledStays(s: State, s': State, t: Tid, i: Id)
    requires Guarantee(s, s', t) && Closed(s.st, i) && AllSettled(s.st, i)
    ensures AllSettled(s'.st, i)
  {
    forall a | a in s'.st.actions && s'.st.actions[a].issueId == i
      ensures s'.st.actions[a].status.IsTerminal() && !s'.st.actions[a].NeedsReview()
    {
      assert a in s.st.actions && s.st.actions[a].issueId == i;
      EvolvedSettled(s.st.actions[a], s'.st.actions[a]);
    }
    forall j | j in s'.st.jobs && s'.st.jobs[j].issueId == i
      ensures s'.st.jobs[j].status.IsTerminal() && !s'.st.jobs[j].NeedsReview()
    {
      assert j in s.st.jobs && s.st.jobs[j].issueId == i;
      assert JobEvolves(s.st.jobs[j], s'.st.jobs[j]);
    }
  }

  lemma ResolvedStays(s: State, s': State, t: Tid, i: Id)
    requires Guarantee(s, s', t) && ResolvedForGood(s.st, i)
    ensures ResolvedForGood(s'.st, i)
  {
    SettledStays(s, s', t, i);
    RemediationStays(s, s', t, i);
    assert IssueEvolves(s.st.issues[i], s'.st.issues[i]);
  }

  lemma ResolvedAtCommit(run: seq<State>, k: nat, t: Tid, i: Id)
    requires IsRun(run) && k + 1 < |run| && Step(run[k], run[k + 1], t) && Resolves(run[k], run[k + 1], t, i)
    ensures ResolvedForGood(run[k + 1].st, i)
  {
    RunContext(run, k, t);
    ForGoodAtCommit(run[k], run[k + 1], t, i);
  }

  lemma ForGoodAtCommit(s: State, s': State, t: Tid, i: Id)
    requires Context(s, t) && PcHolds(s, s.pc[t]) && Step(s, s', t) && Resolves(s, s', t, i)
    ensures ResolvedForGood(s'.st, i)
  {
    SettledAtCommit(s, s', t, i);
    RemediatedAtCommit(s, s', t, i);
    ResolvedIsOurs(s, s', t, i);
  }

  lemma ResolvedOneStep(run: seq<State>, k: nat, i: Id)
    requires IsRun(run) && k + 1 < |run| && ResolvedForGood(run[k].st, i)
    ensures ResolvedForGood(run[k + 1].st, i)
  {
    var t := RunStep(run, k);
    ResolvedStays(run[k], run[k + 1], t, i);
  }

  ghost function ResolvedIn(run: seq<State>, i: Id): (holds: seq<bool>)
    ensures |holds| == |run|
  {
    seq(|run|, k requires 0 <= k < |run| => ResolvedForGood(run[k].st, i))
  }

  lemma ResolvedNext(run: seq<State>, k: nat, i: Id)
    requires IsRun(run) && k + 1 < |run| && ResolvedIn(run, i)[k]
    ensures ResolvedIn(run, i)[k + 1]
  {
    ResolvedOneStep(run, k, i);
  }

  lemma ResolvedAlong(run: seq<State>, n: nat, m: nat, i: Id)
    requires IsRun(run) && n <= m < |run| && ResolvedForGood(run[n].st, i)
    ensures ResolvedForGood(run[m].st, i)
  {
    forall k | n <= k < m && ResolvedIn(run, i)[k] ensures ResolvedIn(run, i)[k + 1] { ResolvedNext(run, k, i); }
    StaysTrue(ResolvedIn(run, i), n, m);
  }

  /** Whatever anybody does afterwards, an Issue that reconciliation resolved stays Resolved, settled
      and backed by a remediation whose targets a stored Snapshot shows Healthy after it started. */
  lemma ResolutionLasts(run: seq<State>, k: nat, t: Tid, i: Id, m: nat)
    requires IsRun(run) && k < m < |run| && Step(run[k], run[k + 1], t) && Resolves(run[k], run[k + 1], t, i)
    ensures ResolvedForGood(run[m].st, i) && HasHealed(run[m].st, i)
  {
    ResolvedAtCommit(run, k, t, i);
    ResolvedAlong(run, k + 1, m, i);
    RunInv(run, m);
    RemediationHealed(run[m].st, i);
  }

  // ---------------------------------------------------------------- compare-and-set has no ABA

  lemma ActionEvolvesOnce(run: seq<State>, k: nat, id: Id)
    requires IsRun(run) && k + 1 < |run| && id in run[k].st.actions
    ensures id in run[k + 1].st.actions && ActionEvolves(run[k].st.actions[id], run[k + 1].st.actions[id])
  {
    var t := RunStep(run, k);
  }

  lemma JobEvolvesOnce(run: seq<State>, k: nat, id: Id)
    requires IsRun(run) && k + 1 < |run| && id in run[k].st.jobs
    ensures id in run[k + 1].st.jobs && JobEvolves(run[k].st.jobs[id], run[k + 1].st.jobs[id])
  {
    var t := RunStep(run, k);
  }

  lemma {:induction false} ActionEvolvesAlong(run: seq<State>, n: nat, m: nat, id: Id)
    requires IsRun(run) && n <= m < |run| && id in run[n].st.actions
    ensures id in run[m].st.actions && ActionEvolves(run[n].st.actions[id], run[m].st.actions[id])
    decreases m - n
  {
    if n < m {
      ActionEvolvesAlong(run, n, m - 1, id);
      ActionEvolvesOnce(run, m - 1, id);
      ActionEvolvesTransitive(run[n].st.actions[id], run[m - 1].st.actions[id], run[m].st.actions[id]);
    }
  }

  /** A compare-and-set that succeeds proves nobody wrote the record since it was read. */
  lemma NoAba(run: seq<State>, n: nat, k: nat, m: nat, id: Id)
    requires IsRun(run) && n <= k <= m < |run| && id in run[n].st.actions
    requires id in run[m].st.actions && run[m].st.actions[id] == run[n].st.actions[id]
    ensures id in run[k].st.actions && run[k].st.actions[id] == run[n].st.actions[id]
  {
    ActionEvolvesAlong(run, n, k, id);
    ActionEvolvesAlong(run, k, m, id);
  }

  lemma {:induction false} JobEvolvesAlong(run: seq<State>, n: nat, m: nat, id: Id)
    requires IsRun(run) && n <= m < |run| && id in run[n].st.jobs
    ensures id in run[m].st.jobs && JobEvolves(run[n].st.jobs[id], run[m].st.jobs[id])
    decreases m - n
  {
    if n < m {
      JobEvolvesAlong(run, n, m - 1, id);
      JobEvolvesOnce(run, m - 1, id);
      JobEvolvesTransitive(run[n].st.jobs[id], run[m - 1].st.jobs[id], run[m].st.jobs[id]);
    }
  }

  lemma NoJobAba(run: seq<State>, n: nat, k: nat, m: nat, id: Id)
    requires IsRun(run) && n <= k <= m < |run| && id in run[n].st.jobs
    requires id in run[m].st.jobs && run[m].st.jobs[id] == run[n].st.jobs[id]
    ensures id in run[k].st.jobs && run[k].st.jobs[id] == run[n].st.jobs[id]
  {
    JobEvolvesAlong(run, n, k, id);
    JobEvolvesAlong(run, k, m, id);
  }

  // ---------------------------------------------------------------- one start

  /** A thread wins the compare-and-set to Running and goes on to the Platform with the command. */
  predicate StartStep(s: State, s': State, t: Tid, id: Id) {
    && t in s.pc && s.pc[t].Executing? && s.pc[t].x.ExecuteLive? && s.pc[t].x.action.id == id
    && t in s'.pc && s'.pc[t].Executing? && s'.pc[t].x.ExecuteStarted?
  }

  lemma StartUsesUp(s: State, s': State, t: Tid, id: Id)
    requires Step(s, s', t) && StartStep(s, s', t, id)
    ensures id in s.st.actions && s.st.actions[id].status.Ready?
    ensures id in s'.st.actions && !s'.st.actions[id].status.IsUnstarted()
  {
    assert AtPc(s, t, Executing(s.pc[t].x));
    RewriteAdvances(s.pc[t].x.action, OpStart, s.pc[t].x.now);
  }

  /** An action's command is handed to the Platform at most once, by whichever of the competing callers
      came first, in any run of any length. */
  lemma StartsOnce(run: seq<State>, k: nat, m: nat, t: Tid, u: Tid, id: Id)
    requires IsRun(run) && k <= m && m + 1 < |run|
    requires Step(run[k], run[k + 1], t) && StartStep(run[k], run[k + 1], t, id)
    requires Step(run[m], run[m + 1], u) && StartStep(run[m], run[m + 1], u, id)
    ensures k == m
  {
    StartUsesUp(run[k], run[k + 1], t, id);
    StartUsesUp(run[m], run[m + 1], u, id);
    if k < m { NotReadyAgain(run, k + 1, m, id); }
  }

  lemma NotReadyAgain(run: seq<State>, n: nat, m: nat, id: Id)
    requires IsRun(run) && n <= m < |run| && id in run[n].st.actions && !run[n].st.actions[id].status.IsUnstarted()
    ensures id in run[m].st.actions && !run[m].st.actions[id].status.IsUnstarted()
  {
    ActionEvolvesAlong(run, n, m, id);
  }

  /** What the record looked like at each moment. */
  ghost function History(run: seq<State>, n: nat, m: nat, id: Id): seq<ActionRun>
    requires n <= m < |run| && forall k :: n <= k <= m ==> id in run[k].st.actions
  {
    seq(m - n + 1, k requires 0 <= k < m - n + 1 => run[n + k].st.actions[id])
  }

  function Rewrites(history: seq<ActionRun>): nat {
    if |history| < 2 then 0
    else Rewrites(history[1..]) + if history[1] == history[0] then 0 else 1
  }

  lemma {:induction false} VersionsGrow(history: seq<ActionRun>)
    requires history != [] && forall k :: 0 < k < |history| ==> ActionEvolves(history[k - 1], history[k])
    ensures Rewrites(history) <= 6 - ActionVersion(history[0])
  {
    if |history| > 1 {
      assert ActionEvolves(history[1 - 1], history[1]);
      var rest := history[1..];
      forall k | 0 < k < |rest| ensures ActionEvolves(rest[k - 1], rest[k]) {
        assert ActionEvolves(history[k + 1 - 1], history[k + 1]);
      }
      VersionsGrow(rest);
    }
  }

  /** However long the run and however many writers, an ActionRun is rewritten at most six times, five
      changes of status and one review, so every read-modify-compare-and-set loop on it meets at most six conflicts. */
  lemma RewritesBounded(run: seq<State>, n: nat, m: nat, id: Id)
    requires IsRun(run) && n <= m < |run| && forall k :: n <= k <= m ==> id in run[k].st.actions
    ensures Rewrites(History(run, n, m, id)) <= 6 - ActionVersion(run[n].st.actions[id])
  {
    var history := History(run, n, m, id);
    forall k | 0 < k < |history| ensures ActionEvolves(history[k - 1], history[k]) {
      ActionEvolvesOnce(run, n + k - 1, id);
    }
    VersionsGrow(history);
  }

  // ---------------------------------------------------------------- intake

  /** Two live Issues of ours never share a deduplication key. */
  lemma OneLiveIssuePerKey(run: seq<State>, n: nat, i: Id, k: Id, key: string)
    requires IsRun(run) && n < |run| && run[n].st.LiveIssue(i) && run[n].st.LiveIssue(k)
    requires run[n].st.issues[i].dedupKey == Some(key) && run[n].st.issues[k].dedupKey == Some(key)
    ensures i == k
  {
    RunInv(run, n);
    assert LiveWithKey(run[n].st, i, key) && LiveWithKey(run[n].st, k, key);
  }

  /** No sequence of proposals and merges lifts a Judge's finding to the place kept for people. */
  lemma JudgeNeverReachesTop(run: seq<State>, n: nat, i: Id)
    requires IsRun(run) && n < |run| && run[n].st.Ours(i) && run[n].st.issues[i].source.FromJudge?
    ensures run[n].st.issues[i].priority != HumanTop
  {
    RunInv(run, n);
  }

  /** Every human Issue goes back to the one report event it was opened for, and no report opens two. */
  lemma OneIssuePerReport(run: seq<State>, n: nat, i: Id, k: Id)
    requires IsRun(run) && n < |run| && run[n].st.Ours(i) && run[n].st.Ours(k)
    requires run[n].st.issues[i].source.FromHuman? && run[n].st.issues[k].source.FromHuman?
    ensures run[n].st.issues[i].sourceEvent < |run[n].st.events| && run[n].st.issues[k].sourceEvent < |run[n].st.events|
    ensures run[n].st.events[run[n].st.issues[i].sourceEvent].IssueReported?
    ensures run[n].st.events[run[n].st.issues[i].sourceEvent] == run[n].st.events[run[n].st.issues[k].sourceEvent] ==> i == k
  {
    RunInv(run, n);
    var st := run[n].st;
    assert OpenedBy(st, i, st.events[st.issues[i].sourceEvent].reportId);
    if st.events[st.issues[i].sourceEvent] == st.events[st.issues[k].sourceEvent] {
      assert OpenedBy(st, k, st.events[st.issues[i].sourceEvent].reportId);
    }
  }
}
