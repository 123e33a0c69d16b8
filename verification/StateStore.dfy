/** The store as one object: every operation is atomic, and refuses without changing anything
    (src/ports.rs:402-499, src/store/memory.rs). */
module StateStores {
  import opened Wrappers
  import opened Domain
  import opened Store

  // Listings come in some order; nothing that reads one depends on which.

  method OrderOf(keys: set<Id>) returns (ids: seq<Id>)
    ensures Orders(ids, keys)
  {
    ids := [];
    var left := keys;
    while left != {}
      invariant left <= keys && Orders(ids, keys - left)
      decreases left
    {
      var id :| id in left;
      OrdersGrow(ids, keys - left, id);
      assert keys - (left - {id}) == (keys - left) + {id};
      ids, left := ids + [id], left - {id};
    }
  }

  method ListOfIssues(issues: map<Id, Issue>) returns (xs: seq<Issue>)
    requires forall id :: id in issues ==> issues[id].id == id
    ensures ListsIssues(xs, issues)
  {
    var ids := OrderOf(issues.Keys);
    IssuesInOrder(issues, ids);
    xs := InOrder(issues, ids);
  }

  method ListOfJobs(jobs: map<Id, Job>) returns (xs: seq<Job>)
    requires forall id :: id in jobs ==> jobs[id].id == id
    ensures ListsJobs(xs, jobs)
  {
    var ids := OrderOf(jobs.Keys);
    JobsInOrder(jobs, ids);
    xs := InOrder(jobs, ids);
  }

  method ListOfActions(actions: map<Id, ActionRun>) returns (xs: seq<ActionRun>)
    requires forall id :: id in actions ==> actions[id].id == id
    ensures ListsActions(xs, actions)
  {
    var ids := OrderOf(actions.Keys);
    ActionsInOrder(actions, ids);
    xs := InOrder(actions, ids);
  }

  class StateStore {
    var inner: StoreState

    /** Every state the store went through: what a crash at any moment can leave. */
    ghost var past: seq<StoreState>

    constructor ()
      ensures inner == StoreState(map[], map[], map[], map[], []) && past == [inner]
    {
      inner := StoreState(map[], map[], map[], map[], []);
      past := [inner];
    }

    method InsertIssue(issue: Issue) returns (r: Result<()>)
      modifies this
      ensures r == if issue.id in old(inner).issues then Err(Duplicate) else Ok(())
      ensures inner == if r.Ok? then old(inner).PutIssue(issue) else old(inner)
      ensures past == if r.Ok? then old(past) + [inner] else old(past)
    {
      if issue.id in inner.issues { return Err(Duplicate); }
      inner := inner.PutIssue(issue);
      past := past + [inner];
      return Ok(());
    }

    method UpdateIssueIf(expected: Issue, next: Issue) returns (r: Result<()>)
      modifies this
      ensures r == if next.id !in old(inner).issues then Err(NotFound)
                   else if old(inner).issues[next.id] != expected then Err(Conflict) else Ok(())
      ensures inner == if r.Ok? then old(inner).PutIssue(next) else old(inner)
      ensures past == if r.Ok? then old(past) + [inner] else old(past)
    {
      if next.id !in inner.issues { return Err(NotFound); }
      if inner.issues[next.id] != expected { return Err(Conflict); }
      inner := inner.PutIssue(next);
      past := past + [inner];
      return Ok(());
    }

    method GetIssue(id: Id) returns (r: Result<Issue>)
      ensures r == if id in inner.issues then Ok(inner.issues[id]) else Err(NotFound)
    {
      if id !in inner.issues { return Err(NotFound); }
      return Ok(inner.issues[id]);
    }

    method InsertJob(job: Job) returns (r: Result<()>)
      modifies this
      ensures r == if job.id in old(inner).jobs then Err(Duplicate) else Ok(())
      ensures inner == if r.Ok? then old(inner).PutJob(job) else old(inner)
      ensures past == if r.Ok? then old(past) + [inner] else old(past)
    {
      if job.id in inner.jobs { return Err(Duplicate); }
      inner := inner.PutJob(job);
      past := past + [inner];
      return Ok(());
    }

    method UpdateJobIf(expected: Job, next: Job) returns (r: Result<()>)
      modifies this
      ensures r == if next.id !in old(inner).jobs then Err(NotFound)
                   else if old(inner).jobs[next.id] != expected then Err(Conflict) else Ok(())
      ensures inner == if r.Ok? then old(inner).PutJob(next) else old(inner)
      ensures past == if r.Ok? then old(past) + [inner] else old(past)
    {
      if next.id !in inner.jobs { return Err(NotFound); }
      if inner.jobs[next.id] != expected { return Err(Conflict); }
      inner := inner.PutJob(next);
      past := past + [inner];
      return Ok(());
    }

    method GetJob(id: Id) returns (r: Result<Job>)
      ensures r == if id in inner.jobs then Ok(inner.jobs[id]) else Err(NotFound)
    {
      if id !in inner.jobs { return Err(NotFound); }
      return Ok(inner.jobs[id]);
    }

    method InsertActionRun(action: ActionRun) returns (r: Result<()>)
      modifies this
      ensures r == if action.id in old(inner).actions then Err(Duplicate) else Ok(())
      ensures inner == if r.Ok? then old(inner).PutAction(action) else old(inner)
      ensures past == if r.Ok? then old(past) + [inner] else old(past)
    {
      if action.id in inner.actions { return Err(Duplicate); }
      inner := inner.PutAction(action);
      past := past + [inner];
      return Ok(());
    }

    method UpdateActionRunIf(expected: ActionRun, next: ActionRun) returns (r: Result<()>)
      modifies this
      ensures r == if next.id !in old(inner).actions then Err(NotFound)
                   else if old(inner).actions[next.id] != expected then Err(Conflict) else Ok(())
      ensures inner == if r.Ok? then old(inner).PutAction(next) else old(inner)
      ensures past == if r.Ok? then old(past) + [inner] else old(past)
    {
      if next.id !in inner.actions { return Err(NotFound); }
      if inner.actions[next.id] != expected { return Err(Conflict); }
      inner := inner.PutAction(next);
      past := past + [inner];
      return Ok(());
    }

    method GetActionRun(id: Id) returns (r: Result<ActionRun>)
      ensures r == if id in inner.actions then Ok(inner.actions[id]) else Err(NotFound)
    {
      if id !in inner.actions { return Err(NotFound); }
      return Ok(inner.actions[id]);
    }

    /** The smallest other ActionRun with the key that may yet run, is running, or succeeded. The key is
        free exactly when every other run with it is Cancelled, Failed or VerificationFailed. */
    method ClaimIdempotencyKey(key: string, id: Id) returns (holder: Option<Id>)
      requires KeyedById(inner)
      ensures holder.None? <==> forall k :: k in inner.actions && k != id && inner.actions[k].key == key ==>
                                  inner.actions[k].status in {Cancelled, Failed, VerificationFailed}
      ensures holder.Some? ==> holder.value in inner.actions && BlocksClaim(inner.actions[holder.value], key, id)
      ensures holder.Some? ==> forall k :: k in inner.actions && BlocksClaim(inner.actions[k], key, id) ==> holder.value <= k
    {
      holder := None;
      var xs := ListOfActions(inner.actions);
      for i := 0 to |xs|
        invariant holder.None? <==> forall x :: x in xs[..i] ==> !BlocksClaim(x, key, id)
        invariant holder.Some? ==> exists x :: x in xs[..i] && x.id == holder.value && BlocksClaim(x, key, id)
        invariant holder.Some? ==> forall x :: x in xs[..i] && BlocksClaim(x, key, id) ==> holder.value <= x.id
      {
        if BlocksClaim(xs[i], key, id) && (holder.None? || xs[i].id < holder.value) { holder := Some(xs[i].id); }
        assert xs[..i + 1] == xs[..i] + [xs[i]];
      }
      assert xs[..|xs|] == xs;
      assert forall k :: k in inner.actions ==> inner.actions[k] in xs;
    }

    method InsertSnapshot(id: Id, content: Snapshot) returns (r: Result<()>)
      modifies this
      ensures r == if id in old(inner).snapshots then Err(Duplicate) else Ok(())
      ensures inner == if r.Ok? then old(inner).(snapshots := old(inner).snapshots[id := content]) else old(inner)
      ensures past == if r.Ok? then old(past) + [inner] else old(past)
    {
      if id in inner.snapshots { return Err(Duplicate); }
      inner := inner.(snapshots := inner.snapshots[id := content]);
      past := past + [inner];
      return Ok(());
    }

    /** The sequence number is the position in the log, starting at one. */
    method AppendEvent(e: Event) returns (sequence: nat)
      modifies this
      ensures inner == old(inner).(events := old(inner).events + [e]) && sequence == |inner.events|
      ensures past == old(past) + [inner]
    {
      inner := inner.(events := inner.events + [e]);
      past := past + [inner];
      sequence := |inner.events|;
    }
  }
}
