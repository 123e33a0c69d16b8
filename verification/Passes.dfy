/** The loop that drives an investigation from pass to pass (src/runner.rs:1246-1442, 1624-1661). The
    Team, the Platform, the Collector and everybody else who uses the store may do anything. */
module Passes {
  import opened Wrappers
  import opened Policy
  import opened Domain

  datatype PassStop =
    | Superseded | Continued | Done | BudgetExhausted | WaitingForApproval | NothingRan | Frozen | StopFailed | WaitingForHuman
  {
    predicate GoesOn() { this.Superseded? || this.Continued? }
  }

  datatype PassOutcome = PassOutcome(job: Job, actions: seq<ActionRun>, stop: PassStop)

  function Budget(job: Job): nat { job.brief.followUpBudget }

  predicate Requested(job: Job) { job.result.Some? && job.result.value.followUpRequested }

  predicate HasStatus(actions: seq<ActionRun>, status: ActionStatus) { exists a :: a in actions && a.status == status }

  predicate AnyExecuted(actions: seq<ActionRun>) { exists a :: a in actions && a.WasExecuted() }

  /** Nothing of the pass waits for a person or for the queue. */
  predicate NothingWaits(actions: seq<ActionRun>) {
    !HasStatus(actions, ActionStatus.WaitingForHuman) && !HasStatus(actions, Ready)
    && !HasStatus(actions, ActionStatus.WaitingForApproval)
  }

  /** One action for each proposal of the pass, in their order. */
  predicate FromProposals(job: Job, actions: seq<ActionRun>) {
    var proposals := if job.result.None? then [] else job.result.value.proposals;
    |actions| == |proposals|
    && forall k :: 0 <= k < |actions| ==> actions[k].jobId == job.id && actions[k].intent == proposals[k]
  }

  predicate Concluded(job: Job) { job.result.Some? && (job.result.value.outcome.Solved? || job.result.value.outcome.DiagnosisOnly?) }

  predicate WantsData(job: Job) { job.result.Some? && job.result.value.outcome.NeedsMoreData? }

  /** What each reason to stop or to go on says about the pass. */
  predicate Fits(p: PassOutcome) {
    match p.stop
    case Superseded => Budget(p.job) > 0 && p.actions == []
    case Continued =>
      && Budget(p.job) > 0 && Concluded(p.job) && FromProposals(p.job, p.actions)
      && NothingWaits(p.actions) && Requested(p.job) && AnyExecuted(p.actions)
    case Done => p.actions == [] || (Concluded(p.job) && FromProposals(p.job, p.actions) && NothingWaits(p.actions) && !Requested(p.job))
    case BudgetExhausted =>
      && Budget(p.job) == 0
      && (WantsData(p.job) || (Concluded(p.job) && NothingWaits(p.actions) && Requested(p.job) && AnyExecuted(p.actions)))
    case WaitingForApproval =>
      && HasStatus(p.actions, ActionStatus.WaitingForApproval)
      && !HasStatus(p.actions, Ready) && !HasStatus(p.actions, ActionStatus.WaitingForHuman)
    case NothingRan => NothingWaits(p.actions) && p.actions != [] && Requested(p.job) && !AnyExecuted(p.actions)
    case Frozen =>
      || (HasStatus(p.actions, Ready) && !HasStatus(p.actions, ActionStatus.WaitingForHuman))
      || (Budget(p.job) > 0 && (WantsData(p.job) || (NothingWaits(p.actions) && Requested(p.job) && AnyExecuted(p.actions))))
    case StopFailed => p.job.result.Some? && p.job.result.value.outcome.OutcomeFailed?
    case WaitingForHuman =>
      p.job.result.None? || HasStatus(p.actions, ActionStatus.WaitingForHuman)
      || p.job.result.value.outcome in {NeedsHuman, OptionsReady, Blocked}
  }

  /** The next pass is the one that was dispatched for this one, with one unit less to spend. */
  predicate Follows(p: PassOutcome, q: PassOutcome) {
    && Budget(q.job) == Budget(p.job) - 1
    && (p.stop.Superseded? ==> q.job.supersedes == Some(p.job.id))
    && (p.stop.Continued? ==> q.job.brief.continues == Some(p.job.id) && q.job.supersedes.None?)
    && q.job.issueId == p.job.issueId
  }

  /** A chain in the making: everything so far goes on. */
  predicate Chained(first: Job, passes: seq<PassOutcome>) {
    && (forall k :: 0 <= k < |passes| ==> Fits(passes[k]))
    && (forall k :: 0 <= k < |passes| - 1 ==> passes[k].stop.GoesOn() && Follows(passes[k], passes[k + 1]))
    && (passes != [] ==> SameJob(first, passes[0].job))
  }

  /** A finished chain: it stops where nothing goes on any more, within the budget it started with. */
  predicate IsChain(first: Job, passes: seq<PassOutcome>) {
    && passes != [] && |passes| <= Budget(first) + 1
    && Chained(first, passes)
    && !passes[|passes| - 1].stop.GoesOn()
  }

  /** Budgets fall by exactly one from pass to pass, so the length is the budget spent. */
  lemma {:induction false} ChainBudget(first: Job, passes: seq<PassOutcome>, k: nat)
    requires Chained(first, passes) && k < |passes|
    ensures k <= Budget(first) && Budget(passes[k].job) == Budget(first) - k
  {
    if k > 0 {
      ChainBudget(first, passes, k - 1);
      assert Follows(passes[k - 1], passes[k - 1 + 1]);
    }
  }

  /** The loop goes on with that Job. */
  predicate Going(first: Job, passes: seq<PassOutcome>, job: Job) {
    && Chained(first, passes)
    && Budget(job) + |passes| == Budget(first)
    && (passes == [] ==> SameJob(first, job))
    && (passes != [] ==> passes[|passes| - 1].stop.GoesOn() && Follows(passes[|passes| - 1], PassOutcome(job, [], Done)))
  }

  lemma PassAdded(first: Job, passes: seq<PassOutcome>, job: Job, p: PassOutcome)
    requires Going(first, passes, job) && SameJob(job, p.job) && Fits(p)
    ensures Chained(first, passes + [p])
    ensures !p.stop.GoesOn() ==> IsChain(first, passes + [p])
  {
    var longer := passes + [p];
    forall k | 0 <= k < |longer| - 1 ensures longer[k].stop.GoesOn() && Follows(longer[k], longer[k + 1]) {}
  }

  lemma PassContinued(first: Job, passes: seq<PassOutcome>, job: Job, p: PassOutcome, next: Job)
    requires Going(first, passes, job) && SameJob(job, p.job) && Fits(p) && p.stop.GoesOn()
    requires Follows(p, PassOutcome(next, [], Done))
    ensures Going(first, passes + [p], next)
  {
    PassAdded(first, passes, job, p);
  }

  /** The Jobs dispatched since: each one has one unit less than the one before. */
  predicate Spending(first: Job, before: seq<Job>, now: seq<Job>) {
    && before <= now
    && forall k :: |before| <= k < |now| ==> Budget(now[k]) == Budget(first) - 1 - (k - |before|)
  }

  /** One turn of the loop. */
  datatype Turn = Turn(passes: seq<PassOutcome>, job: Job, going: bool)

  class Runner {
    /** The Jobs of the store, and the scheduler's mode. */
    var jobs: map<Id, Job>
    var mode: SchedulerModeView
    ghost var dispatched: seq<Job>

    /** What anybody else may have done to the Jobs since. */
    predicate Evolved(was: map<Id, Job>, next: map<Id, Job>) {
      forall id :: id in was ==> id in next && JobEvolves(was[id], next[id])
    }

    /** Time passes. */
    method Elsewhere()
      modifies this`jobs, this`mode
      ensures Evolved(old(jobs), jobs)
    {
      var next: map<Id, Job>, switched: SchedulerModeView := *, *;
      mode := switched;
      if Evolved(jobs, next) { jobs := next; }
    }

    /** The Team runs the Job, well, badly or not at all; the Job keeps its brief. */
    method RunTeam(job: Job) returns (r: Result<Job>)
      requires job.id in jobs && SameJob(job, jobs[job.id])
      modifies this`jobs, this`mode
      ensures r.Ok? ==> r.value.id in jobs && jobs[r.value.id] == r.value && SameJob(job, r.value)
    {
      Elsewhere();
      var answered: bool := *;
      if !answered { return Err(External); }
      return Ok(jobs[job.id]);
    }

    /** Each proposal becomes one ActionRun; what happens to it is up to policy and Platform. */
    method RunProposals(job: Job) returns (r: Result<seq<ActionRun>>)
      modifies this`jobs, this`mode
      ensures r.Ok? ==> FromProposals(job, r.value)
      ensures Evolved(old(jobs), jobs)
    {
      var proposals := if job.result.None? then [] else job.result.value.proposals;
      var actions: seq<ActionRun> := [];
      for k := 0 to |proposals|
        invariant |actions| == k
        invariant forall n :: 0 <= n < k ==> actions[n].jobId == job.id && actions[n].intent == proposals[n]
        invariant Evolved(old(jobs), jobs)
      {
        ghost var was := jobs;
        Elsewhere();
        EvolvedTransitive(old(jobs), was, jobs);
        var action: ActionRun, admitted: bool := *, *;
        if !admitted { return Err(External); }
        actions := actions + [action.(jobId := job.id, issueId := job.issueId, intent := proposals[k])];
      }
      return Ok(actions);
    }

    lemma EvolvedTransitive(a: map<Id, Job>, b: map<Id, Job>, c: map<Id, Job>)
      requires Evolved(a, b) && Evolved(b, c)
      ensures Evolved(a, c)
    {
      forall id | id in a ensures id in c && JobEvolves(a[id], c[id]) { JobEvolvesTransitive(a[id], b[id], c[id]); }
    }

    /** A dispatch may be refused; a Job that is dispatched is new and running. */
    method Insert(next: Job) returns (r: Result<Job>)
      modifies this`jobs, this`dispatched
      ensures r.Ok? ==> r.value == next && jobs == old(jobs)[next.id := next] && next.id !in old(jobs)
      ensures dispatched == if r.Ok? then old(dispatched) + [next] else old(dispatched)
      ensures r.Err? ==> jobs == old(jobs)
    {
      var refused: bool := *;
      if refused || next.id in jobs { return Err(External); }
      jobs := jobs[next.id := next];
      dispatched := dispatched + [next];
      return Ok(next);
    }

    method FollowUpStop(job: Job, actions: seq<ActionRun>) returns (stop: Option<PassStop>)
      requires Concluded(job) && FromProposals(job, actions)
      ensures stop.Some? ==> !stop.value.GoesOn() && Fits(PassOutcome(job, actions, stop.value))
      ensures stop.None? ==> Fits(PassOutcome(job, actions, Continued))
    {
      if HasStatus(actions, ActionStatus.WaitingForHuman) { return Some(PassStop.WaitingForHuman); }
      if HasStatus(actions, Ready) { return Some(Frozen); }
      if HasStatus(actions, ActionStatus.WaitingForApproval) { return Some(PassStop.WaitingForApproval); }
      if actions == [] || !Requested(job) { return Some(Done); }
      if !AnyExecuted(actions) { return Some(NothingRan); }
      if Budget(job) == 0 { return Some(BudgetExhausted); }
      if !mode.Dispatching? { return Some(Frozen); }
      return None;
    }

    /** The brief of the next automatic pass. */
    function NextBrief(job: Job, scope: Scope, continues: Option<Id>): JobBrief {
      JobBrief(scope, [], None, continues, if Budget(job) == 0 then 0 else Budget(job) - 1)
    }

    method DispatchFollowUp(job: Job) returns (r: Result<Job>)
      requires Budget(job) > 0
      modifies this`jobs, this`mode, this`dispatched
      ensures r.Ok? ==> Budget(r.value) == Budget(job) - 1 && r.value.brief.continues == Some(job.id)
                        && r.value.supersedes.None? && r.value.issueId == job.issueId
                        && r.value.id in jobs && jobs[r.value.id] == r.value
      ensures dispatched == if r.Ok? then old(dispatched) + [r.value] else old(dispatched)
    {
      var scope: Scope, id: Id, base: Id, now: nat := *, *, *, *;
      Elsewhere();
      r := Insert(NewJob(id, job.issueId, base, NextBrief(job, scope, Some(job.id)), None, now).(status := JRunning));
    }

    /** The old Job is marked, then the new one is inserted. */
    method ResnapshotAndSupersede(job: Job) returns (r: Result<Job>)
      requires Budget(job) > 0 && job.id in jobs && SameJob(job, jobs[job.id])
      modifies this`jobs, this`mode, this`dispatched
      ensures r.Ok? ==> Budget(r.value) == Budget(job) - 1 && r.value.supersedes == Some(job.id)
                        && r.value.issueId == job.issueId && r.value.id in jobs && jobs[r.value.id] == r.value
                        && job.id in jobs && SameJob(job, jobs[job.id])
      ensures dispatched == if r.Ok? then old(dispatched) + [r.value] else old(dispatched)
    {
      var scope: Scope, id: Id, base: Id, now: nat := *, *, *, *;
      Elsewhere();
      var marked := JobSupersede.Run(jobs[job.id]);
      if marked.Err? { return Err(InvalidTransition); }
      jobs := jobs[job.id := marked.value];
      r := Insert(NewJob(id, job.issueId, base, NextBrief(job, scope, None), Some(job.id), now).(status := JRunning));
    }

    method AskForData(first: Job, passes: seq<PassOutcome>, job: Job) returns (r: Result<Turn>)
      requires Going(first, passes, job) && job.id in jobs && SameJob(job, jobs[job.id]) && WantsData(job)
      modifies this`jobs, this`mode, this`dispatched
      ensures TurnDone(first, passes, job, old(dispatched), r)
    {
      if Budget(job) == 0 {
        var p := PassOutcome(job, [], BudgetExhausted);
        PassAdded(first, passes, job, p);
        return Ok(Turn(passes + [p], job, false));
      }
      if !mode.Dispatching? {
        var p := PassOutcome(job, [], Frozen);
        PassAdded(first, passes, job, p);
        return Ok(Turn(passes + [p], job, false));
      }
      var next := ResnapshotAndSupersede(job);
      if next.Err? { return Err(next.error); }
      var p := PassOutcome(jobs[job.id], [], Superseded);
      var ran := RunTeam(next.value);
      if ran.Err? { return Err(ran.error); }
      PassContinued(first, passes, job, p, ran.value);
      return Ok(Turn(passes + [p], ran.value, true));
    }

    method CarryOut(first: Job, passes: seq<PassOutcome>, job: Job) returns (r: Result<Turn>)
      requires Going(first, passes, job) && job.id in jobs && SameJob(job, jobs[job.id]) && Concluded(job)
      modifies this`jobs, this`mode, this`dispatched
      ensures TurnDone(first, passes, job, old(dispatched), r)
    {
      var decided := RunProposals(job);
      if decided.Err? { return Err(decided.error); }
      var stop := FollowUpStop(job, decided.value);
      if stop.Some? {
        var p := PassOutcome(job, decided.value, stop.value);
        PassAdded(first, passes, job, p);
        return Ok(Turn(passes + [p], job, false));
      }
      var next := DispatchFollowUp(job);
      if next.Err? { return Err(next.error); }
      var p := PassOutcome(job, decided.value, Continued);
      var ran := RunTeam(next.value);
      if ran.Err? { return Err(ran.error); }
      PassContinued(first, passes, job, p, ran.value);
      return Ok(Turn(passes + [p], ran.value, true));
    }

    /** A turn that goes on has dispatched the one Job it goes on with; one that does not has dispatched none. */
    ghost predicate TurnDone(first: Job, passes: seq<PassOutcome>, job: Job, before: seq<Job>, r: Result<Turn>)
      reads this
    {
      && (r.Ok? ==> |r.value.passes| == |passes| + 1)
      && (r.Ok? && r.value.going ==>
            && Going(first, r.value.passes, r.value.job) && Budget(r.value.job) == Budget(job) - 1
            && r.value.job.id in jobs && SameJob(r.value.job, jobs[r.value.job.id])
            && |dispatched| == |before| + 1)
      && (r.Ok? && !r.value.going ==> IsChain(first, r.value.passes) && |dispatched| == |before|)
      && |before| <= |dispatched| <= |before| + 1 && before <= dispatched
      && (|dispatched| == |before| + 1 ==> Budget(job) > 0 && Budget(dispatched[|before|]) == Budget(job) - 1)
    }

    method OnePass(first: Job, passes: seq<PassOutcome>, job: Job) returns (r: Result<Turn>)
      requires Going(first, passes, job) && job.id in jobs && SameJob(job, jobs[job.id])
      modifies this`jobs, this`mode, this`dispatched
      ensures TurnDone(first, passes, job, old(dispatched), r)
    {
      var interrupted: bool, closed: bool := *, *;
      if interrupted { return Err(Interrupted); }
      var p: PassOutcome;
      if closed {
        p := PassOutcome(jobs[job.id], [], Done);
      } else if job.result.None? {
        p := PassOutcome(job, [], PassStop.WaitingForHuman);
      } else {
        match job.result.value.outcome {
          case NeedsMoreData =>
            r := AskForData(first, passes, job);
            return;
          case Solved | DiagnosisOnly =>
            r := CarryOut(first, passes, job);
            return;
          case OutcomeFailed =>
            p := PassOutcome(job, [], StopFailed);
          case NeedsHuman | OptionsReady | Blocked =>
            p := PassOutcome(job, [], PassStop.WaitingForHuman);
        }
      }
      PassAdded(first, passes, job, p);
      return Ok(Turn(passes + [p], job, false));
    }

    /** Whatever the Team answers, the loop ends, with at most one pass more than the budget the first one
        was given; even a run that fails on the way has dispatched no more Jobs than that. */
    method DrivePasses(first: Job) returns (r: Result<seq<PassOutcome>>)
      requires first.id in jobs && SameJob(first, jobs[first.id])
      modifies this
      ensures r.Ok? ==> IsChain(first, r.value)
      ensures Spending(first, old(dispatched), dispatched) && |dispatched| <= |old(dispatched)| + Budget(first)
      ensures r.Ok? ==> |dispatched| == |old(dispatched)| + |r.value| - 1
    {
      var passes: seq<PassOutcome> := [];
      var job := first;
      var going := true;
      while going
        invariant going ==> Going(first, passes, job) && job.id in jobs && SameJob(job, jobs[job.id])
        invariant !going ==> IsChain(first, passes)
        invariant Spending(first, old(dispatched), dispatched)
        invariant |dispatched| == |old(dispatched)| + |passes| - (if going then 0 else 1)
        decreases if going then Budget(job) + 1 else 0
      {
        var turn := OnePass(first, passes, job);
        if turn.Err? { return Err(turn.error); }
        passes, job, going := turn.value.passes, turn.value.job, turn.value.going;
      }
      return Ok(passes);
    }
  }

  /** All the loop asks of the mode is whether new Jobs may be dispatched. */
  datatype SchedulerModeView = Dispatching | NotDispatching
}
