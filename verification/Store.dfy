/** The shared store: records change only by insert or whole-record compare-and-set, events only
    by append (src/ports.rs:402-499, src/store/memory.rs). */
module Store {
  import opened Wrappers
  import opened Policy
  import opened Domain

  /** Only the events some decision reads back carry content. */
  datatype Event =
    | IssueReported(reportId: Id)
    | Resumed
    | DispatchFroze
    | FullyFroze
    | RecoveryStarted
    | Recovered(touched: bool)
    | Noted

  datatype StoreState = StoreState(
    issues: map<Id, Issue>,
    jobs: map<Id, Job>,
    actions: map<Id, ActionRun>,
    snapshots: map<Id, Snapshot>,
    events: seq<Event>)
  {
    predicate Holds(a: ActionRun) { a.id in actions && actions[a.id] == a }

    predicate HoldsJob(j: Job) { j.id in jobs && jobs[j.id] == j }

    predicate HoldsIssue(i: Issue) { i.id in issues && issues[i.id] == i }

    function PutIssue(i: Issue): StoreState { this.(issues := issues[i.id := i]) }

    function PutJob(j: Job): StoreState { this.(jobs := jobs[j.id := j]) }

    function PutAction(a: ActionRun): StoreState { this.(actions := actions[a.id := a]) }

    /** Present and not an imported archive. */
    predicate Ours(issueId: Id) { issueId in issues && !issues[issueId].archived }

    predicate LiveIssue(issueId: Id) { issueId in issues && issues[issueId].IsLive() }
  }

  /** Another ActionRun with the key that may yet run, is running, or succeeded. */
  predicate BlocksClaim(a: ActionRun, key: string, id: Id) {
    a.id != id && a.key == key && a.HoldsIdempotencyClaim()
  }

  /** What a listing of every record looks like; the order is the store's business. */
  ghost predicate ListsJobs(xs: seq<Job>, jobs: map<Id, Job>) {
    && (forall x :: x in xs ==> x.id in jobs && jobs[x.id] == x)
    && (forall id :: id in jobs ==> jobs[id] in xs)
    && (forall i, k :: 0 <= i < k < |xs| ==> xs[i].id != xs[k].id)
  }

  ghost predicate ListsActions(xs: seq<ActionRun>, actions: map<Id, ActionRun>) {
    && (forall x :: x in xs ==> x.id in actions && actions[x.id] == x)
    && (forall id :: id in actions ==> actions[id] in xs)
    && (forall i, k :: 0 <= i < k < |xs| ==> xs[i].id != xs[k].id)
  }

  ghost predicate ListsIssues(xs: seq<Issue>, issues: map<Id, Issue>) {
    && (forall x :: x in xs ==> x.id in issues && issues[x.id] == x)
    && (forall id :: id in issues ==> issues[id] in xs)
    && (forall i, k :: 0 <= i < k < |xs| ==> xs[i].id != xs[k].id)
  }

  /** The records of one Issue, as a caller that filters a listing gets them. */
  function JobsIn(jobs: map<Id, Job>, issueId: Id): map<Id, Job> {
    map id | id in jobs && jobs[id].issueId == issueId :: jobs[id]
  }

  function ActionsIn(actions: map<Id, ActionRun>, issueId: Id): map<Id, ActionRun> {
    map id | id in actions && actions[id].issueId == issueId :: actions[id]
  }

  ghost predicate KeyedById(st: StoreState) {
    && (forall id :: id in st.issues ==> st.issues[id].id == id)
    && (forall id :: id in st.jobs ==> st.jobs[id].id == id)
    && (forall id :: id in st.actions ==> st.actions[id].id == id)
  }

  // ---------------------------------------------------------------- listings

  /** Each of the keys once, in some order. */
  ghost predicate Orders(ids: seq<Id>, keys: set<Id>) {
    && (forall id :: id in ids <==> id in keys)
    && (forall i, k :: 0 <= i < k < |ids| ==> ids[i] != ids[k])
  }

  lemma OrdersGrow(ids: seq<Id>, keys: set<Id>, id: Id)
    requires Orders(ids, keys) && id !in keys
    ensures Orders(ids + [id], keys + {id})
  {
    forall i, k | 0 <= i < k < |ids + [id]| ensures (ids + [id])[i] != (ids + [id])[k] { assert ids[i] in ids; }
  }

  /** What the store lists when it goes through the keys in that order. */
  function InOrder<T>(records: map<Id, T>, ids: seq<Id>): (xs: seq<T>)
    requires forall id :: id in ids ==> id in records
    ensures |xs| == |ids| && forall k :: 0 <= k < |ids| ==> xs[k] == records[ids[k]]
  {
    seq(|ids|, k requires 0 <= k < |ids| => assert ids[k] in ids; records[ids[k]])
  }

  lemma IssuesInOrder(issues: map<Id, Issue>, ids: seq<Id>)
    requires Orders(ids, issues.Keys) && forall id :: id in issues ==> issues[id].id == id
    ensures ListsIssues(InOrder(issues, ids), issues)
  {
    forall id | id in issues ensures issues[id] in InOrder(issues, ids) {
      var k :| 0 <= k < |ids| && ids[k] == id;
      assert InOrder(issues, ids)[k] == issues[id];
    }
  }

  lemma JobsInOrder(jobs: map<Id, Job>, ids: seq<Id>)
    requires Orders(ids, jobs.Keys) && forall id :: id in jobs ==> jobs[id].id == id
    ensures ListsJobs(InOrder(jobs, ids), jobs)
  {
    forall id | id in jobs ensures jobs[id] in InOrder(jobs, ids) {
      var k :| 0 <= k < |ids| && ids[k] == id;
      assert InOrder(jobs, ids)[k] == jobs[id];
    }
  }

  lemma ActionsInOrder(actions: map<Id, ActionRun>, ids: seq<Id>)
    requires Orders(ids, actions.Keys) && forall id :: id in actions ==> actions[id].id == id
    ensures ListsActions(InOrder(actions, ids), actions)
  {
    forall id | id in actions ensures actions[id] in InOrder(actions, ids) {
      var k :| 0 <= k < |ids| && ids[k] == id;
      assert InOrder(actions, ids)[k] == actions[id];
    }
  }
}
