/** The durable execution queue: a resume drains it in creation order, and a freeze stops the drain
    (src/runner.rs:1664-1740). Everybody else may go on rewriting records all the while. */
module Queue {
  import opened Wrappers
  import opened Policy
  import opened Domain
  import opened Store

  /** Creation time, then ID. */
  predicate CreatedBefore(a: ActionRun, b: ActionRun) {
    a.createdAt < b.createdAt || (a.createdAt == b.createdAt && a.id < b.id)
  }

  predicate InCreationOrder(xs: seq<ActionRun>) { forall i, k :: 0 <= i < k < |xs| ==> CreatedBefore(xs[i], xs[k]) }

  predicate Waiting(a: ActionRun, archived: set<Id>) { a.status.Ready? && a.issueId !in archived }

  /** Exactly the ready actions of ours, oldest first. */
  ghost predicate IsQueue(xs: seq<ActionRun>, actions: map<Id, ActionRun>, archived: set<Id>) {
    InCreationOrder(xs) && forall a :: a in xs <==> a.id in actions && actions[a.id] == a && Waiting(a, archived)
  }

  method InsertInOrder(a: ActionRun, xs: seq<ActionRun>) returns (ys: seq<ActionRun>)
    requires InCreationOrder(xs) && forall x :: x in xs ==> x.id != a.id
    ensures InCreationOrder(ys) && forall y :: y in ys <==> y == a || y in xs
  {
    var i := 0;
    while i < |xs| && CreatedBefore(xs[i], a)
      invariant 0 <= i <= |xs|
      invariant forall k :: 0 <= k < i ==> CreatedBefore(xs[k], a)
    {
      i := i + 1;
    }
    ys := xs[..i] + [a] + xs[i..];
    PlacedInOrder(xs, i, a);
    PlacedMembers(xs, i, a);
  }

  lemma PlacedInOrder(xs: seq<ActionRun>, i: nat, a: ActionRun)
    requires i <= |xs| && InCreationOrder(xs) && forall x :: x in xs ==> x.id != a.id
    requires forall k :: 0 <= k < i ==> CreatedBefore(xs[k], a)
    requires i < |xs| ==> !CreatedBefore(xs[i], a)
    ensures InCreationOrder(xs[..i] + [a] + xs[i..])
  {
    forall k | i <= k < |xs| ensures CreatedBefore(a, xs[k]) {
      assert xs[i] in xs;
      assert CreatedBefore(a, xs[i]);
    }
  }

  lemma PlacedMembers(xs: seq<ActionRun>, i: nat, a: ActionRun)
    requires i <= |xs|
    ensures forall y :: y in xs[..i] + [a] + xs[i..] <==> y == a || y in xs
  {
    assert xs == xs[..i] + xs[i..];
  }

  method QueueOf(actions: map<Id, ActionRun>, archived: set<Id>) returns (xs: seq<ActionRun>)
    requires forall id :: id in actions ==> actions[id].id == id
    ensures IsQueue(xs, actions, archived)
  {
    xs := [];
    var left := actions.Keys;
    while left != {}
      invariant left <= actions.Keys && InCreationOrder(xs)
      invariant forall a :: a in xs <==> a.id in actions && a.id !in left && actions[a.id] == a && Waiting(a, archived)
      decreases left
    {
      var id :| id in left;
      if Waiting(actions[id], archived) { xs := InsertInOrder(actions[id], xs); }
      left := left - {id};
    }
  }

  class QueueRunner {
    var actions: map<Id, ActionRun>
    var archived: set<Id>
    var allowsActions: bool

    ghost predicate Valid() reads this { forall id :: id in actions ==> actions[id].id == id }

    predicate Evolved(was: map<Id, ActionRun>, next: map<Id, ActionRun>) {
      forall id :: id in was ==> id in next && ActionEvolves(was[id], next[id])
    }

    lemma EvolvedTransitive(a: map<Id, ActionRun>, b: map<Id, ActionRun>, c: map<Id, ActionRun>)
      requires Evolved(a, b) && Evolved(b, c)
      ensures Evolved(a, c)
    {
      forall id | id in a ensures id in c && ActionEvolves(a[id], c[id]) { ActionEvolvesTransitive(a[id], b[id], c[id]); }
    }

    /** Whatever operators, other callers, imports and the mode do in the meantime. */
    method Elsewhere()
      requires Valid()
      modifies this`actions, this`archived, this`allowsActions
      ensures Valid() && Evolved(old(actions), actions) && old(archived) <= archived
    {
      var next: map<Id, ActionRun>, allows: bool, imported: set<Id> := *, *, *;
      allowsActions := allows;
      archived := archived + imported;
      if Evolved(actions, next) && forall id :: id in next ==> next[id].id == id { actions := next; }
    }

    /** A compare-and-set that nobody disturbs between its two halves. */
    method Rewrite(id: Id, op: ActionOp, now: nat) returns (done: bool)
      requires Valid() && id in actions
      modifies this`actions
      ensures Valid() && Evolved(old(actions), actions)
      ensures done <==> op.Run(old(actions)[id], now).Ok?
      ensures done ==> id in actions && actions[id] == op.Run(old(actions)[id], now).value
    {
      var next := op.Run(actions[id], now);
      if next.Err? { return false; }
      RewriteAdvances(actions[id], op, now);
      actions := actions[id := next.value];
      return true;
    }

    /** Runs a ready action to its verdict. What comes back is still Ready only if the mode refused. */
    method ExecuteAndVerify(id: Id, now: nat) returns (r: Result<ActionRun>, refused: bool)
      requires Valid() && id in actions
      modifies this`actions, this`archived, this`allowsActions
      ensures Valid() && Evolved(old(actions), actions) && old(archived) <= archived
      ensures r.Ok? ==> id in actions && r.value == actions[id]
      ensures r.Ok? && r.value.status.Ready? ==> refused
    {
      Elsewhere();
      ghost var seen := actions;
      if !actions[id].status.Ready? { return Ok(actions[id]), false; }
      if !allowsActions { return Ok(actions[id]), true; }
      var live: bool := *;
      if !live { return Err(Archived), false; }
      var started := Rewrite(id, OpStart, now);
      EvolvedTransitive(old(actions), seen, actions);
      if !started { return Err(Conflict), false; }
      var result: PlatformResult := *;
      var recorded := RewriteLater(old(actions), id, OpResult(result), now);
      if !recorded { return Err(Conflict), false; }
      if !actions[id].status.Verifying? { return Ok(actions[id]), false; }
      var after: Option<Id>, passed: bool, graded: Option<VerificationEvidence> := *, *, *;
      var verified := RewriteLater(old(actions), id, OpVerify(after, passed, graded), now);
      if !verified { return Err(Conflict), false; }
      return Ok(actions[id]), false;
    }

    /** A rewrite after a while; by then somebody else may have written the record. */
    method RewriteLater(ghost was: map<Id, ActionRun>, id: Id, op: ActionOp, now: nat) returns (done: bool)
      requires Valid() && id in actions && Evolved(was, actions) && !actions[id].status.IsUnstarted()
      modifies this`actions, this`archived, this`allowsActions
      ensures Valid() && Evolved(was, actions) && old(archived) <= archived
      ensures id in actions && !actions[id].status.IsUnstarted()
    {
      ghost var before := actions;
      Elsewhere();
      EvolvedTransitive(was, before, actions);
      ghost var mid := actions;
      assert ActionEvolves(before[id], actions[id]);
      done := Rewrite(id, op, now);
      EvolvedTransitive(was, mid, actions);
      assert ActionEvolves(mid[id], actions[id]);
    }

    /** The drain went through the first `n` of the queue: all of them have left it, except the last one
        when a freeze stopped the drain there. */
    ghost predicate Drained(queue: seq<ActionRun>, n: nat, frozen: bool) reads this {
      && n <= |queue|
      && (forall k :: 0 <= k < n ==> queue[k].id in actions && (actions[queue[k].id].status.IsUnstarted() ==> frozen && k == n - 1))
      && (!frozen ==> n == |queue|)
    }

    /** Dispatch is allowed again; then the archived Issues are listed, then the actions, and what was ready
        then is drained, oldest first. Others may write between any two of these. Approvals are not asked for
        again. */
    method Resume(now: nat)
      returns (r: Result<nat>, ghost listed: map<Id, ActionRun>, ghost imports: set<Id>, ghost queue: seq<ActionRun>, frozen: bool)
      requires Valid()
      modifies this`actions, this`archived, this`allowsActions
      ensures Valid() && Evolved(old(actions), listed) && Evolved(listed, actions)
      ensures old(archived) <= imports <= archived && IsQueue(queue, listed, imports)
      ensures r.Ok? ==> Drained(queue, r.value, frozen)
    {
      frozen := false;
      allowsActions := true;
      Elsewhere();
      var archivedIds := archived;
      ghost var between := actions;
      Elsewhere();
      EvolvedTransitive(old(actions), between, actions);
      var pending := QueueOf(actions, archivedIds);
      listed, imports, queue := actions, archivedIds, pending;
      SameEvolved(actions);
      var n := 0;
      while n < |pending|
        invariant Valid() && Evolved(listed, actions) && imports <= archived && 0 <= n <= |pending|
        invariant forall k :: 0 <= k < n ==> pending[k].id in actions && !actions[pending[k].id].status.IsUnstarted()
      {
        ghost var before := actions;
        assert pending[n] in pending;
        var action, refused := ExecuteAndVerify(pending[n].id, now);
        EvolvedTransitive(listed, before, actions);
        StillLeft(before, actions, pending, n);
        if action.Err? { return Err(action.error), listed, imports, queue, false; }
        assert ActionEvolves(pending[n], actions[pending[n].id]);
        n := n + 1;
        if action.value.status.Ready? { return Ok(n), listed, imports, queue, true; }
        LeftTheQueue(pending[n - 1], action.value);
        ghost var settled := actions;
        Elsewhere();
        EvolvedTransitive(listed, settled, actions);
        StillLeft(settled, actions, pending, n);
      }
      return Ok(n), listed, imports, queue, false;
    }

    lemma SameEvolved(was: map<Id, ActionRun>)
      ensures Evolved(was, was)
    {
    }

    lemma StillLeft(was: map<Id, ActionRun>, next: map<Id, ActionRun>, queue: seq<ActionRun>, n: nat)
      requires Evolved(was, next) && n <= |queue|
      requires forall k :: 0 <= k < n ==> queue[k].id in was && !was[queue[k].id].status.IsUnstarted()
      ensures forall k :: 0 <= k < n ==> queue[k].id in next && !next[queue[k].id].status.IsUnstarted()
    {
      forall k | 0 <= k < n ensures queue[k].id in next && !next[queue[k].id].status.IsUnstarted() {
        assert ActionEvolves(was[queue[k].id], next[queue[k].id]);
      }
    }
  }

  /** An action that was ready and is not any more has started or was taken back; it never returns. */
  lemma LeftTheQueue(was: ActionRun, now: ActionRun)
    requires was.status.Ready? && ActionEvolves(was, now) && !now.status.Ready?
    ensures !now.status.IsUnstarted()
  {
  }
}
