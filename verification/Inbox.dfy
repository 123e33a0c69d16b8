/** What waits for a person, computed from the store; and what importing a session changes about it,
    which is nothing (src/runner.rs:2233-2295, src/session.rs:263-401, src/scheduler.rs:2479-2503). */
module InboxView {
  import opened Wrappers
  import opened Policy
  import opened Domain
  import opened Reconciliation
  import opened Store
  import opened StateStores
  import opened ProtocolInvariant

  datatype WaitingIssue = WaitingIssue(issue: Issue, job: Job)

  datatype Inbox = Inbox(
    queued: seq<ActionRun>, requests: seq<ActionRun>, denied: seq<ActionRun>, failed: seq<ActionRun>, blocked: seq<ActionRun>,
    failedJobs: seq<Job>, waiting: seq<WaitingIssue>)

  // ---------------------------------------------------------------- collecting

  /** The bucket holds exactly the first `k` listed items that belong in it, each once. */
  ghost predicate Collected<T(!new)>(bucket: seq<T>, xs: seq<T>, k: nat, belongs: T -> bool)
    requires k <= |xs|
  {
    && (forall x :: x in bucket <==> x in xs[..k] && belongs(x))
    && (forall i, j :: 0 <= i < j < |bucket| ==> bucket[i] != bucket[j])
  }

  lemma Taken<T(!new)>(bucket: seq<T>, xs: seq<T>, k: nat, belongs: T -> bool)
    requires k < |xs| && Collected(bucket, xs, k, belongs) && belongs(xs[k])
    requires forall i, j :: 0 <= i < j < |xs| ==> xs[i] != xs[j]
    ensures Collected(bucket + [xs[k]], xs, k + 1, belongs)
  {
    assert xs[..k + 1] == xs[..k] + [xs[k]];
    assert xs[k] !in xs[..k];
  }

  lemma PassedOver<T(!new)>(bucket: seq<T>, xs: seq<T>, k: nat, belongs: T -> bool)
    requires k < |xs| && Collected(bucket, xs, k, belongs) && !belongs(xs[k])
    ensures Collected(bucket, xs, k + 1, belongs)
  {
    assert xs[..k + 1] == xs[..k] + [xs[k]];
  }

  // ---------------------------------------------------------------- what belongs where

  /** Decisions about an action of ours. An archive's open items are history. */
  predicate IsQueued(st: StoreState, a: ActionRun) { st.Ours(a.issueId) && a.status.Ready? }

  predicate IsRequest(st: StoreState, a: ActionRun) { st.Ours(a.issueId) && a.status.WaitingForApproval? }

  predicate IsBlocked(st: StoreState, a: ActionRun) { st.Ours(a.issueId) && a.NeedsReview() && a.status.WaitingForHuman? }

  predicate IsDenied(st: StoreState, a: ActionRun) { st.Ours(a.issueId) && a.NeedsReview() && a.denial.Some? }

  predicate IsFailure(st: StoreState, a: ActionRun) { st.Ours(a.issueId) && a.NeedsReview() && a.HasFailed() && a.denial.None? }

  /** On records the controller wrote, the three review buckets split `needs_review` without overlap, and
      leave nothing that needs review out. */
  lemma ReviewSplits(st: StoreState, a: ActionRun)
    requires ActionConsistent(a)
    ensures st.Ours(a.issueId) && a.NeedsReview() <==> IsBlocked(st, a) || IsDenied(st, a) || IsFailure(st, a)
    ensures !(IsBlocked(st, a) && IsDenied(st, a)) && !(IsBlocked(st, a) && IsFailure(st, a)) && !(IsDenied(st, a) && IsFailure(st, a))
    ensures IsQueued(st, a) || IsRequest(st, a) ==> !a.NeedsReview()
  {
  }

  /** Records that point at an Issue point at one that exists. */
  predicate Integrity(st: StoreState) {
    && (forall id :: id in st.actions ==> st.actions[id].issueId in st.issues)
    && (forall id :: id in st.jobs ==> st.jobs[id].issueId in st.issues)
  }

  ghost predicate WellKept(st: StoreState) {
    && KeyedById(st) && Integrity(st)
    && forall id :: id in st.actions && st.Ours(st.actions[id].issueId) ==> ActionConsistent(st.actions[id])
  }

  /** Every store the controller can leave behind qualifies. */
  lemma ReachableIsWellKept(st: StoreState)
    requires StoreInvariant(st)
    ensures WellKept(st)
  {
    forall id | id in st.actions && st.Ours(st.actions[id].issueId) ensures ActionConsistent(st.actions[id]) {
      assert ActionFine(st, st.actions[id]);
    }
  }

  // ---------------------------------------------------------------- the actions

  function ArchivedIds(st: StoreState): set<Id> { set i | i in st.issues && st.issues[i].archived }

  datatype Buckets = Buckets(
    queued: seq<ActionRun>, requests: seq<ActionRun>, denied: seq<ActionRun>, failed: seq<ActionRun>, blocked: seq<ActionRun>)

  ghost predicate Sorted(st: StoreState, b: Buckets, xs: seq<ActionRun>, k: nat)
    requires k <= |xs|
  {
    && Collected(b.queued, xs, k, a => IsQueued(st, a))
    && Collected(b.requests, xs, k, a => IsRequest(st, a))
    && Collected(b.denied, xs, k, a => IsDenied(st, a))
    && Collected(b.failed, xs, k, a => IsFailure(st, a))
    && Collected(b.blocked, xs, k, a => IsBlocked(st, a))
  }

  /** One turn of the loop: the branches in the order the source tries them. */
  method SortAction(st: StoreState, archived: set<Id>, b: Buckets, xs: seq<ActionRun>, k: nat) returns (next: Buckets)
    requires k < |xs| && Sorted(st, b, xs, k)
    requires archived == ArchivedIds(st) && xs[k].issueId in st.issues
    requires st.Ours(xs[k].issueId) ==> ActionConsistent(xs[k])
    requires forall i, j :: 0 <= i < j < |xs| ==> xs[i] != xs[j]
    ensures Sorted(st, next, xs, k + 1)
  {
    var a := xs[k];
    next := b;
    if a.issueId !in archived {
      if a.status.Ready? { next := next.(queued := b.queued + [a]); }
      else if a.status.WaitingForApproval? { next := next.(requests := b.requests + [a]); }
      else if a.status.WaitingForHuman? && a.review.None? { next := next.(blocked := b.blocked + [a]); }
      else if a.review.None? && a.denial.Some? { next := next.(denied := b.denied + [a]); }
      else if a.review.None? && a.HasFailed() { next := next.(failed := b.failed + [a]); }
    }
    PutWhereItBelongs(b.queued, next.queued, xs, k, a => IsQueued(st, a));
    PutWhereItBelongs(b.requests, next.requests, xs, k, a => IsRequest(st, a));
    PutWhereItBelongs(b.denied, next.denied, xs, k, a => IsDenied(st, a));
    PutWhereItBelongs(b.failed, next.failed, xs, k, a => IsFailure(st, a));
    PutWhereItBelongs(b.blocked, next.blocked, xs, k, a => IsBlocked(st, a));
  }

  lemma PutWhereItBelongs(was: seq<ActionRun>, next: seq<ActionRun>, xs: seq<ActionRun>, k: nat, belongs: ActionRun -> bool)
    requires k < |xs| && Collected(was, xs, k, belongs)
    requires forall i, j :: 0 <= i < j < |xs| ==> xs[i] != xs[j]
    requires next == if belongs(xs[k]) then was + [xs[k]] else was
    ensures Collected(next, xs, k + 1, belongs)
  {
    if belongs(xs[k]) { Taken(was, xs, k, belongs); } else { PassedOver(was, xs, k, belongs); }
  }

  /** Holds exactly the stored actions with that property, each once. */
  ghost predicate Exactly(bucket: seq<ActionRun>, st: StoreState, belongs: ActionRun -> bool) {
    && (forall a :: a in bucket <==> st.Holds(a) && belongs(a))
    && (forall i, j :: 0 <= i < j < |bucket| ==> bucket[i] != bucket[j])
  }

  method SortActions(st: StoreState) returns (b: Buckets)
    requires WellKept(st)
    ensures Exactly(b.queued, st, a => IsQueued(st, a))
    ensures Exactly(b.requests, st, a => IsRequest(st, a))
    ensures Exactly(b.denied, st, a => IsDenied(st, a))
    ensures Exactly(b.failed, st, a => IsFailure(st, a))
    ensures Exactly(b.blocked, st, a => IsBlocked(st, a))
  {
    var archived := ArchivedIds(st);
    var xs := ListOfActions(st.actions);
    b := Buckets([], [], [], [], []);
    for k := 0 to |xs|
      invariant Sorted(st, b, xs, k)
    {
      assert xs[k] in xs;
      b := SortAction(st, archived, b, xs, k);
    }
    assert xs[..|xs|] == xs;
    forall a ensures a in xs <==> st.Holds(a) {}
  }

  // ---------------------------------------------------------------- Jobs and waiting Issues

  predicate IsFailedJob(st: StoreState, j: Job) { st.HoldsJob(j) && st.Ours(j.issueId) && j.NeedsReview() }

  method FailedJobs(st: StoreState) returns (jobs: seq<Job>)
    requires KeyedById(st) && Integrity(st)
    ensures forall j :: j in jobs <==> IsFailedJob(st, j)
  {
    var archived := ArchivedIds(st);
    var xs := ListOfJobs(st.jobs);
    jobs := [];
    for k := 0 to |xs|
      invariant Collected(jobs, xs, k, j => IsFailedJob(st, j))
    {
      assert xs[k] in xs;
      if xs[k].issueId !in archived && xs[k].NeedsReview() {
        Taken(jobs, xs, k, j => IsFailedJob(st, j));
        jobs := jobs + [xs[k]];
      } else {
        PassedOver(jobs, xs, k, j => IsFailedJob(st, j));
      }
    }
    assert xs[..|xs|] == xs;
    forall j ensures j in xs <==> st.HoldsJob(j) {}
  }

  /** Something on the Issue already asks for a decision. */
  ghost predicate Asks(st: StoreState, i: Id) {
    || (exists a :: st.Holds(a) && a.issueId == i
          && (IsQueued(st, a) || IsRequest(st, a) || IsDenied(st, a) || IsFailure(st, a) || IsBlocked(st, a)))
    || (exists j :: IsFailedJob(st, j) && j.issueId == i)
  }

  /** A finished diagnosis nobody has decided about: the Issue's latest pass, completed. */
  ghost predicate IsWaiting(st: StoreState, w: WaitingIssue) {
    && st.HoldsIssue(w.issue) && !w.issue.archived && w.issue.status.IWaitingForHuman?
    && !Asks(st, w.issue.id)
    && st.HoldsJob(w.job) && w.job.issueId == w.issue.id && w.job.status.JCompleted?
    && forall id :: id in st.jobs && st.jobs[id].issueId == w.issue.id ==> Later(st.jobs[id], w.job)
  }

  function IssueIds(actions: seq<ActionRun>): set<Id> { set a | a in actions :: a.issueId }

  method LatestOf(st: StoreState, i: Id) returns (latest: Option<Job>)
    requires KeyedById(st)
    ensures latest.None? <==> forall id :: id in st.jobs ==> st.jobs[id].issueId != i
    ensures latest.Some? ==> st.HoldsJob(latest.value) && latest.value.issueId == i
                             && forall id :: id in st.jobs && st.jobs[id].issueId == i ==> Later(st.jobs[id], latest.value)
  {
    var mine := JobsIn(st.jobs, i);
    var xs := ListOfJobs(mine);
    assert forall id :: id in mine ==> mine[id] in xs;
    assert forall id :: id in st.jobs && st.jobs[id].issueId == i ==> id in mine;
    if xs == [] { return None; }
    latest := Some(LatestJob(xs));
    assert latest.value.id in mine;
    forall id | id in st.jobs && st.jobs[id].issueId == i ensures Later(st.jobs[id], latest.value) { assert mine[id] in xs; }
  }

  method WaitingIssues(st: StoreState, asking: set<Id>) returns (waiting: seq<WaitingIssue>)
    requires KeyedById(st) && forall i :: i in asking <==> Asks(st, i)
    ensures forall w :: w in waiting <==> IsWaiting(st, w)
  {
    var xs := ListOfIssues(st.issues);
    waiting := [];
    for k := 0 to |xs|
      invariant forall w :: w in waiting <==> w.issue in xs[..k] && IsWaiting(st, w)
    {
      assert xs[..k + 1] == xs[..k] + [xs[k]];
      assert xs[k] in xs && xs[k] !in xs[..k];
      var issue := xs[k];
      if !issue.archived && issue.status.IWaitingForHuman? && issue.id !in asking {
        var latest := LatestOf(st, issue.id);
        if latest.Some? && latest.value.status.JCompleted? {
          OnlyLatest(st, issue, latest.value);
          waiting := waiting + [WaitingIssue(issue, latest.value)];
        } else if latest.Some? {
          NotCompleted(st, issue, latest.value);
        }
      }
    }
    assert xs[..|xs|] == xs;
    forall w | IsWaiting(st, w) ensures w.issue in xs {}
  }

  lemma OnlyLatest(st: StoreState, issue: Issue, latest: Job)
    requires KeyedById(st) && st.HoldsJob(latest) && latest.issueId == issue.id
    requires forall id :: id in st.jobs && st.jobs[id].issueId == issue.id ==> Later(st.jobs[id], latest)
    ensures forall w :: IsWaiting(st, w) && w.issue == issue ==> w.job == latest
  {
    forall w | IsWaiting(st, w) && w.issue == issue ensures w.job == latest {
      assert Later(st.jobs[w.job.id], latest) && Later(st.jobs[latest.id], w.job);
    }
  }

  lemma NotCompleted(st: StoreState, issue: Issue, latest: Job)
    requires KeyedById(st) && st.HoldsJob(latest) && latest.issueId == issue.id && !latest.status.JCompleted?
    requires forall id :: id in st.jobs && st.jobs[id].issueId == issue.id ==> Later(st.jobs[id], latest)
    ensures forall w :: IsWaiting(st, w) ==> w.issue != issue
  {
    forall w | IsWaiting(st, w) && w.issue == issue ensures false { OnlyLatest(st, issue, latest); }
  }

  /** The whole inbox. */
  ghost predicate Shows(st: StoreState, inbox: Inbox) {
    && Exactly(inbox.queued, st, a => IsQueued(st, a))
    && Exactly(inbox.requests, st, a => IsRequest(st, a))
    && Exactly(inbox.denied, st, a => IsDenied(st, a))
    && Exactly(inbox.failed, st, a => IsFailure(st, a))
    && Exactly(inbox.blocked, st, a => IsBlocked(st, a))
    && (forall j :: j in inbox.failedJobs <==> IsFailedJob(st, j))
    && (forall w :: w in inbox.waiting <==> IsWaiting(st, w))
  }

  method ComputeInbox(st: StoreState) returns (inbox: Inbox)
    requires WellKept(st)
    ensures Shows(st, inbox)
  {
    var b := SortActions(st);
    var failedJobs := FailedJobs(st);
    var asking := IssueIds(b.queued) + IssueIds(b.requests) + IssueIds(b.denied) + IssueIds(b.failed) + IssueIds(b.blocked)
      + set j | j in failedJobs :: j.issueId;
    AskingIsAsks(st, b, failedJobs, asking);
    var waiting := WaitingIssues(st, asking);
    inbox := Inbox(b.queued, b.requests, b.denied, b.failed, b.blocked, failedJobs, waiting);
  }

  lemma AskingIsAsks(st: StoreState, b: Buckets, failedJobs: seq<Job>, asking: set<Id>)
    requires Exactly(b.queued, st, a => IsQueued(st, a)) && Exactly(b.requests, st, a => IsRequest(st, a))
    requires Exactly(b.denied, st, a => IsDenied(st, a)) && Exactly(b.failed, st, a => IsFailure(st, a))
    requires Exactly(b.blocked, st, a => IsBlocked(st, a))
    requires forall j :: j in failedJobs <==> IsFailedJob(st, j)
    requires asking == IssueIds(b.queued) + IssueIds(b.requests) + IssueIds(b.denied) + IssueIds(b.failed) + IssueIds(b.blocked)
                       + set j | j in failedJobs :: j.issueId
    ensures forall i :: i in asking <==> Asks(st, i)
  {
  }

  // ---------------------------------------------------------------- imports

  /** Only archive material was added: nothing of ours changed, and nothing new is ours. */
  ghost predicate ArchiveOnly(a: StoreState, b: StoreState) {
    && (forall i :: i in a.issues ==> i in b.issues && b.issues[i] == a.issues[i])
    && (forall i :: i in b.issues && i !in a.issues ==> b.issues[i].archived)
    && (forall j :: j in a.jobs ==> j in b.jobs && b.jobs[j] == a.jobs[j])
    && (forall j :: j in b.jobs && j !in a.jobs ==> !b.Ours(b.jobs[j].issueId))
    && (forall x :: x in a.actions ==> x in b.actions && b.actions[x] == a.actions[x])
    && (forall x :: x in b.actions && x !in a.actions ==> !b.Ours(b.actions[x].issueId))
  }

  lemma OursUnchanged(a: StoreState, b: StoreState, i: Id)
    requires ArchiveOnly(a, b)
    ensures b.Ours(i) <==> a.Ours(i)
    ensures b.LiveIssue(i) <==> a.LiveIssue(i)
  {
  }

  /** Any test that only holds of our own actions gives the same answer before and after an import. */
  lemma ActionViewUnchanged(a: StoreState, b: StoreState, x: ActionRun)
    requires KeyedById(a) && KeyedById(b) && ArchiveOnly(a, b)
    ensures b.Holds(x) && b.Ours(x.issueId) <==> a.Holds(x) && a.Ours(x.issueId)
  {
    OursUnchanged(a, b, x.issueId);
  }

  lemma JobViewUnchanged(a: StoreState, b: StoreState, j: Job)
    requires KeyedById(a) && KeyedById(b) && ArchiveOnly(a, b)
    ensures b.HoldsJob(j) && b.Ours(j.issueId) <==> a.HoldsJob(j) && a.Ours(j.issueId)
  {
    OursUnchanged(a, b, j.issueId);
  }

  /** What recovery and triage list: unfinished records of ours. */
  predicate UnfinishedIssue(st: StoreState, i: Issue) { st.HoldsIssue(i) && i.IsLive() }

  predicate UnfinishedJob(st: StoreState, j: Job) { st.HoldsJob(j) && st.Ours(j.issueId) && !j.status.IsTerminal() }

  predicate UnfinishedAction(st: StoreState, a: ActionRun) { st.Holds(a) && st.Ours(a.issueId) && !a.status.IsTerminal() }

  /** An import changes neither the inbox, nor what recovery would look at, nor the queue that a resume
      drains. */
  lemma ImportIsInvisible(a: StoreState, b: StoreState, inbox: Inbox)
    requires KeyedById(a) && KeyedById(b) && ArchiveOnly(a, b)
    ensures Shows(b, inbox) <==> Shows(a, inbox)
    ensures forall i :: UnfinishedIssue(b, i) <==> UnfinishedIssue(a, i)
    ensures forall j :: UnfinishedJob(b, j) <==> UnfinishedJob(a, j)
    ensures forall x :: UnfinishedAction(b, x) <==> UnfinishedAction(a, x)
    ensures forall x :: b.Holds(x) && IsQueued(b, x) <==> a.Holds(x) && IsQueued(a, x)
  {
    forall i ensures b.Ours(i) <==> a.Ours(i) { OursUnchanged(a, b, i); }
    forall x ensures b.Holds(x) && b.Ours(x.issueId) <==> a.Holds(x) && a.Ours(x.issueId) { ActionViewUnchanged(a, b, x); }
    forall j ensures b.HoldsJob(j) && b.Ours(j.issueId) <==> a.HoldsJob(j) && a.Ours(j.issueId) { JobViewUnchanged(a, b, j); }
    SameBuckets(a, b, inbox);
    forall w ensures IsWaiting(b, w) <==> IsWaiting(a, w) { WaitingUnchanged(a, b, w); }
  }

  lemma SameBucket(a: StoreState, b: StoreState, bucket: seq<ActionRun>, inA: ActionRun -> bool, inB: ActionRun -> bool)
    requires forall x :: b.Holds(x) && inB(x) <==> a.Holds(x) && inA(x)
    ensures Exactly(bucket, b, inB) <==> Exactly(bucket, a, inA)
  {
  }

  lemma SameBuckets(a: StoreState, b: StoreState, inbox: Inbox)
    requires forall x :: b.Holds(x) && b.Ours(x.issueId) <==> a.Holds(x) && a.Ours(x.issueId)
    ensures Exactly(inbox.queued, b, x => IsQueued(b, x)) <==> Exactly(inbox.queued, a, x => IsQueued(a, x))
    ensures Exactly(inbox.requests, b, x => IsRequest(b, x)) <==> Exactly(inbox.requests, a, x => IsRequest(a, x))
    ensures Exactly(inbox.denied, b, x => IsDenied(b, x)) <==> Exactly(inbox.denied, a, x => IsDenied(a, x))
    ensures Exactly(inbox.failed, b, x => IsFailure(b, x)) <==> Exactly(inbox.failed, a, x => IsFailure(a, x))
    ensures Exactly(inbox.blocked, b, x => IsBlocked(b, x)) <==> Exactly(inbox.blocked, a, x => IsBlocked(a, x))
  {
    SameBucket(a, b, inbox.queued, x => IsQueued(a, x), x => IsQueued(b, x));
    SameBucket(a, b, inbox.requests, x => IsRequest(a, x), x => IsRequest(b, x));
    SameBucket(a, b, inbox.denied, x => IsDenied(a, x), x => IsDenied(b, x));
    SameBucket(a, b, inbox.failed, x => IsFailure(a, x), x => IsFailure(b, x));
    SameBucket(a, b, inbox.blocked, x => IsBlocked(a, x), x => IsBlocked(b, x));
  }

  lemma WaitingUnchanged(a: StoreState, b: StoreState, w: WaitingIssue)
    requires KeyedById(a) && KeyedById(b) && ArchiveOnly(a, b)
    ensures IsWaiting(b, w) <==> IsWaiting(a, w)
  {
    OursUnchanged(a, b, w.issue.id);
    AsksUnchanged(a, b, w.issue.id);
    JobViewUnchanged(a, b, w.job);
    forall id | id in b.jobs && b.jobs[id].issueId == w.issue.id && a.Ours(w.issue.id) ensures id in a.jobs {}
  }

  lemma AsksUnchanged(a: StoreState, b: StoreState, i: Id)
    requires KeyedById(a) && KeyedById(b) && ArchiveOnly(a, b)
    ensures Asks(b, i) <==> Asks(a, i)
  {
    forall x ensures b.Holds(x) && b.Ours(x.issueId) <==> a.Holds(x) && a.Ours(x.issueId) { ActionViewUnchanged(a, b, x); }
    forall j ensures b.HoldsJob(j) && b.Ours(j.issueId) <==> a.HoldsJob(j) && a.Ours(j.issueId) { JobViewUnchanged(a, b, j); }
  }
}
