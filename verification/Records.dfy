/** The records as the source changes them, field by field. A rewrite either does the whole of what its
    function in `Domain` says or leaves the record as it was, although some of them write fields before
    the transition is checked (src/domain/action.rs:272-453, src/domain/job.rs:610-705). */
module Records {
  import opened Wrappers
  import opened Policy
  import opened Domain

  /** The record now is what the function gives, or what it was when the function refuses. */
  predicate AllOrNothing<T(==)>(was: T, outcome: Result<T>, now: T, error: Option<AgentError>) {
    if outcome.Ok? then error.None? && now == outcome.value else error == Some(outcome.error) && now == was
  }

  class ActionRecord {
    const made: ActionRun
    var status: ActionStatus
    var approval: ApprovalState
    var approvedBy: Option<string>
    var denial: Option<Denial>
    var intervention: Option<string>
    var review: Option<HumanReview>
    var executionArtifact: Option<Id>
    var executionSummary: Option<string>
    var dryRun: bool
    var afterSnapshot: Option<Id>
    var evidence: Option<VerificationEvidence>
    var startedAt: Option<nat>
    var completedAt: Option<nat>

    /** The record as a value, the way the store compares it. */
    function Value(): ActionRun reads this {
      made.(status := status, approval := approval, approvedBy := approvedBy, denial := denial, intervention := intervention,
            review := review, executionArtifact := executionArtifact, executionSummary := executionSummary, dryRun := dryRun,
            afterSnapshot := afterSnapshot, evidence := evidence, startedAt := startedAt, completedAt := completedAt)
    }

    constructor (a: ActionRun)
      ensures Value() == a
    {
      made := a;
      status, approval, approvedBy, denial := a.status, a.approval, a.approvedBy, a.denial;
      intervention, review := a.intervention, a.review;
      executionArtifact, executionSummary, dryRun := a.executionArtifact, a.executionSummary, a.dryRun;
      afterSnapshot, evidence, startedAt, completedAt := a.afterSnapshot, a.evidence, a.startedAt, a.completedAt;
    }

    method TransitionTo(next: ActionStatus, now: nat) returns (error: Option<AgentError>)
      modifies this
      ensures AllOrNothing(old(Value()), old(Value()).TransitionTo(next, now), Value(), error)
    {
      if !status.CanBecome(next) { return Some(InvalidTransition); }
      if next.Running? && startedAt.None? { startedAt := Some(now); }
      if next.IsTerminal() { completedAt := Some(now); }
      status := next;
      return None;
    }

    method ApplyApproval(decided: ApprovalState, now: nat) returns (error: Option<AgentError>)
      modifies this
      ensures AllOrNothing(old(Value()), old(Value()).ApplyApproval(decided, now), Value(), error)
      ensures error == Some(InvalidInput) <==> decided.Unevaluated?
      ensures error.None? ==>
                approval == decided && Value() == old(Value()).(status := status, approval := decided, completedAt := completedAt)
    {
      var next;
      match decided {
        case NotRequired => next := Ready;
        case Approved => next := Ready;
        case Pending => next := WaitingForApproval;
        case Rejected => next := Cancelled;
        case Unevaluated => return Some(InvalidInput);
      }
      error := TransitionTo(next, now);
      if error.Some? { return; }
      approval := decided;
    }

    method Approve(approver: string, now: nat) returns (error: Option<AgentError>)
      modifies this
      ensures AllOrNothing(old(Value()), old(Value()).ApproveBy(approver, now), Value(), error)
      ensures error.None? <==> old(status) in {Proposed, WaitingForApproval}
      ensures Value() == if error.None? then old(Value()).(status := Ready, approval := Approved, approvedBy := Some(approver))
                         else old(Value())
    {
      error := ApplyApproval(Approved, now);
      if error.Some? { return; }
      approvedBy := Some(approver);
    }

    method Deny(why: Denial, now: nat) returns (error: Option<AgentError>)
      modifies this
      ensures AllOrNothing(old(Value()), old(Value()).Deny(why, now), Value(), error)
      ensures error.None? <==> !old(status).IsTerminal() && !old(status).Verifying?
      ensures Value() == if error.None?
                         then old(Value()).(status := Cancelled, approval := Rejected, denial := Some(why), completedAt := Some(now))
                         else old(Value())
    {
      error := ApplyApproval(Rejected, now);
      if error.Some? { return; }
      denial := Some(why);
    }

    method WaitForHuman(reason: string, now: nat) returns (error: Option<AgentError>)
      modifies this
      ensures AllOrNothing(old(Value()), old(Value()).WaitForHuman(reason, now), Value(), error)
      ensures error.None? <==> old(status) in {Proposed, WaitingForApproval, Ready, Running}
      ensures Value() == if error.None? then old(Value()).(status := WaitingForHuman, intervention := Some(reason)) else old(Value())
    {
      error := TransitionTo(WaitingForHuman, now);
      if error.Some? { return; }
      intervention := Some(reason);
    }

    method RecordReview(given: HumanReview, now: nat) returns (error: Option<AgentError>)
      modifies this
      ensures AllOrNothing(old(Value()), old(Value()).RecordReview(given, now), Value(), error)
      ensures error.None? <==> old(Value()).NeedsReview()
      ensures error.None? ==> review == Some(given) && !Value().NeedsReview()
    {
      if !Value().NeedsReview() { return Some(InvalidInput); }
      if status.WaitingForHuman? {
        error := TransitionTo(Cancelled, now);
        if error.Some? { return; }
      }
      review := Some(given);
      return None;
    }

    /** The result is noted before the transition; from `Running` every one of these is legal. */
    method RecordExecutionResult(r: PlatformResult, now: nat) returns (error: Option<AgentError>)
      modifies this
      ensures AllOrNothing(old(Value()), old(Value()).RecordExecutionResult(r, now), Value(), error)
      ensures error.None? <==> old(status).Running?
    {
      if !status.Running? { return Some(InvalidTransition); }
      executionArtifact := r.artifact;
      executionSummary := Some(r.summary);
      dryRun := r.dryRun;
      if r.requiresHuman {
        error := WaitForHuman(r.summary, now);
        return;
      }
      error := TransitionTo(if r.cancelled then Cancelled else if r.succeeded then Verifying else Failed, now);
    }

    method RecordVerification(after: Option<Id>, passed: bool, graded: Option<VerificationEvidence>, now: nat)
      returns (error: Option<AgentError>)
      modifies this
      ensures AllOrNothing(old(Value()), old(Value()).RecordVerification(after, passed, graded, now), Value(), error)
      ensures error.None? <==> old(status).Verifying?
    {
      if !status.Verifying? { return Some(InvalidTransition); }
      afterSnapshot := after;
      evidence := graded;
      error := TransitionTo(if passed then Succeeded else VerificationFailed, now);
    }
  }

  class JobRecord {
    const made: Job
    var status: JobStatus
    var review: Option<HumanReview>
    var result: Option<JobResult>

    function Value(): Job reads this { made.(status := status, review := review, result := result) }

    constructor (j: Job)
      ensures Value() == j
    {
      made := j;
      status, review, result := j.status, j.review, j.result;
    }

    method TransitionTo(next: JobStatus) returns (error: Option<AgentError>)
      modifies this
      ensures AllOrNothing(old(Value()), old(Value()).TransitionTo(next), Value(), error)
    {
      if !status.CanBecome(next) { return Some(InvalidTransition); }
      status := next;
      return None;
    }

    method Complete(r: JobResult) returns (error: Option<AgentError>)
      modifies this
      ensures AllOrNothing(old(Value()), old(Value()).Complete(r), Value(), error)
      ensures Value() == if error.None? then old(Value()).(status := StatusFor(r.outcome), result := Some(r)) else old(Value())
    {
      error := TransitionTo(StatusFor(r.outcome));
      if error.Some? { return; }
      result := Some(r);
    }

    method RecordReview(given: HumanReview) returns (error: Option<AgentError>)
      modifies this
      ensures AllOrNothing(old(Value()), old(Value()).RecordReview(given), Value(), error)
      ensures error.None? <==> old(Value()).NeedsReview()
      ensures error.None? ==> Value() == old(Value()).(review := Some(given)) && !Value().NeedsReview()
    {
      if !status.JFailed? && !status.JNeedsResnapshot? { return Some(InvalidInput); }
      if review.Some? { return Some(InvalidInput); }
      review := Some(given);
      return None;
    }

    /** Marks this Job and describes its successor; the successor takes nothing over but the Issue. */
    method SupersedeWith(id: Id, base: Id, brief: JobBrief, now: nat) returns (next: Result<Job>)
      modifies this
      ensures next.Ok? <==> !old(status).IsTerminal()
      ensures next.Ok? ==> Value() == old(Value()).(status := JSuperseded)
                           && next.value == NewJob(id, old(Value()).issueId, base, brief, Some(old(Value()).id), now)
      ensures next.Err? ==> Value() == old(Value())
    {
      var error := TransitionTo(JSuperseded);
      if error.Some? { return Err(error.value); }
      return Ok(NewJob(id, made.issueId, base, brief, Some(made.id), now));
    }
  }
}
