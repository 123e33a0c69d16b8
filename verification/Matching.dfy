/** Whether every proposal of a pass has an ActionRun of its own (src/domain/job.rs:558-577). */
module Matching {
  import opened Wrappers
  import opened Policy
  import opened Domain

  /** The actions a Job originated, in the order given. */
  function OwnedBy(actions: seq<ActionRun>, jobId: Id): (owned: seq<ActionRun>)
    ensures forall a :: a in owned <==> a in actions && a.jobId == jobId
  {
    if actions == [] then []
    else (if actions[0].jobId == jobId then [actions[0]] else []) + OwnedBy(actions[1..], jobId)
  }

  /** What `matches_proposal` compares. */
  function Intents(actions: seq<ActionRun>): (intents: seq<Proposal>)
    ensures |intents| == |actions|
    ensures forall k :: 0 <= k < |actions| ==> intents[k] == actions[k].intent
  {
    seq(|actions|, k requires 0 <= k < |actions| => actions[k].intent)
  }

  /** No proposal is wanted more often than the Job's own actions carry it. */
  predicate Materialized(job: Job, actions: seq<ActionRun>) {
    job.result.None? || multiset(job.result.value.proposals) <= multiset(Intents(OwnedBy(actions, job.id)))
  }

  /** `f` gives each proposal an action of its own: no action is used more often than it is listed. */
  ghost predicate IsMatching(job: Job, actions: seq<ActionRun>, proposals: seq<Proposal>, f: seq<ActionRun>) {
    && |f| == |proposals|
    && (forall k :: 0 <= k < |f| ==> f[k].jobId == job.id && f[k].intent == proposals[k])
    && multiset(f) <= multiset(actions)
  }

  // ---------------------------------------------------------------- multisets of intents

  function WithoutAt<T>(xs: seq<T>, i: nat): seq<T>
    requires i < |xs|
  {
    xs[..i] + xs[i + 1..]
  }

  lemma WithoutAtMultiset<T>(xs: seq<T>, i: nat)
    requires i < |xs|
    ensures multiset(xs) == multiset(WithoutAt(xs, i)) + multiset{xs[i]}
  {
    assert xs == xs[..i] + [xs[i]] + xs[i + 1..];
  }

  lemma IntentsWithoutAt(xs: seq<ActionRun>, i: nat)
    requires i < |xs|
    ensures multiset(Intents(xs)) == multiset(Intents(WithoutAt(xs, i))) + multiset{xs[i].intent}
  {
    WithoutAtMultiset(Intents(xs), i);
    assert Intents(WithoutAt(xs, i)) == WithoutAt(Intents(xs), i);
  }

  /** Taking the same element out of both bags keeps inclusion. */
  lemma TailIncluded<T>(xs: seq<T>, ys: seq<T>, i: nat)
    requires xs != [] && i < |ys| && ys[i] == xs[0]
    requires multiset(xs) <= multiset(ys)
    ensures multiset(xs[1..]) <= multiset(WithoutAt(ys, i))
  {
    WithoutAtMultiset(ys, i);
    assert xs == [xs[0]] + xs[1..];
    assert multiset(xs) == multiset{xs[0]} + multiset(xs[1..]);
    forall x ensures multiset(xs[1..])[x] <= multiset(WithoutAt(ys, i))[x] {
      assert multiset(xs)[x] <= multiset(ys)[x];
    }
  }

  lemma FirstOccurs<T>(xs: seq<T>, ys: seq<T>) returns (i: nat)
    requires xs != [] && multiset(xs) <= multiset(ys)
    ensures i < |ys| && ys[i] == xs[0]
  {
    assert xs[0] in multiset(xs);
    assert xs[0] in multiset(ys);
    i :| 0 <= i < |ys| && ys[i] == xs[0];
  }

  /** Projecting two bags keeps inclusion. */
  lemma {:induction false} IntentsMonotone(xs: seq<ActionRun>, ys: seq<ActionRun>)
    requires multiset(xs) <= multiset(ys)
    ensures multiset(Intents(xs)) <= multiset(Intents(ys))
  {
    if xs != [] {
      var i := FirstOccurs(xs, ys);
      TailIncluded(xs, ys, i);
      IntentsMonotone(xs[1..], WithoutAt(ys, i));
      IntentsWithoutAt(ys, i);
      assert Intents(xs) == [xs[0].intent] + Intents(xs[1..]);
    }
  }

  lemma {:induction false} OwnedMultiset(actions: seq<ActionRun>, jobId: Id, a: ActionRun)
    ensures multiset(OwnedBy(actions, jobId))[a] == if a.jobId == jobId then multiset(actions)[a] else 0
  {
    if actions != [] {
      OwnedMultiset(actions[1..], jobId, a);
      assert actions == [actions[0]] + actions[1..];
    }
  }

  lemma {:induction false} MatchingFromBag(proposals: seq<Proposal>, pool: seq<ActionRun>) returns (f: seq<ActionRun>)
    requires multiset(proposals) <= multiset(Intents(pool))
    ensures |f| == |proposals| && multiset(f) <= multiset(pool)
    ensures forall k :: 0 <= k < |f| ==> f[k].intent == proposals[k]
  {
    if proposals == [] { return []; }
    var i := FirstOccurs(proposals, Intents(pool));
    TailIncluded(proposals, Intents(pool), i);
    assert WithoutAt(Intents(pool), i) == Intents(WithoutAt(pool, i));
    var rest := MatchingFromBag(proposals[1..], WithoutAt(pool, i));
    WithoutAtMultiset(pool, i);
    f := [pool[i]] + rest;
  }

  // ---------------------------------------------------------------- what the check means

  /** A pass is materialized exactly when some assignment gives every proposal its own action. Neither
      side mentions an order, so the order in which the store lists actions cannot matter. */
  lemma MaterializedIffMatching(job: Job, actions: seq<ActionRun>)
    requires job.result.Some?
    ensures Materialized(job, actions) <==> exists f :: IsMatching(job, actions, job.result.value.proposals, f)
  {
    var proposals := job.result.value.proposals;
    var owned := OwnedBy(actions, job.id);
    if Materialized(job, actions) {
      var f := MatchingFromBag(proposals, owned);
      forall k | 0 <= k < |f| ensures f[k].jobId == job.id { assert f[k] in multiset(f); assert f[k] in owned; }
      forall a ensures multiset(f)[a] <= multiset(actions)[a] { OwnedMultiset(actions, job.id, a); }
      assert IsMatching(job, actions, proposals, f);
    }
    if f :| IsMatching(job, actions, proposals, f) {
      forall a ensures multiset(f)[a] <= multiset(owned)[a] {
        OwnedMultiset(actions, job.id, a);
        if a in multiset(f) { assert a in f; }
      }
      IntentsMonotone(f, owned);
      assert Intents(f) == proposals;
    }
  }

  lemma MaterializedIgnoresOrder(job: Job, xs: seq<ActionRun>, ys: seq<ActionRun>)
    requires multiset(xs) == multiset(ys)
    ensures Materialized(job, xs) <==> Materialized(job, ys)
  {
    if job.result.Some? {
      MaterializedIffMatching(job, xs);
      MaterializedIffMatching(job, ys);
      assert forall f :: IsMatching(job, xs, job.result.value.proposals, f)
                         <==> IsMatching(job, ys, job.result.value.proposals, f);
    }
  }

  // ---------------------------------------------------------------- the greedy loop

  /** `iter().position(..)`: the first index carrying that intent, or the length when none does. */
  method Position(remaining: seq<ActionRun>, wanted: Proposal) returns (i: nat)
    ensures i <= |remaining|
    ensures i < |remaining| ==> remaining[i].intent == wanted
    ensures forall k :: 0 <= k < i ==> remaining[k].intent != wanted
  {
    i := 0;
    while i < |remaining| && remaining[i].intent != wanted
      invariant i <= |remaining|
      invariant forall k :: 0 <= k < i ==> remaining[k].intent != wanted
    {
      i := i + 1;
    }
  }

  /** `swap_remove`: the last element takes the hole, so later positions change order. */
  function SwapRemove<T>(xs: seq<T>, i: nat): (r: seq<T>)
    requires i < |xs|
    ensures multiset(xs) == multiset(r) + multiset{xs[i]}
  {
    assert multiset(xs[i := xs[|xs| - 1]]) == multiset(xs) - multiset{xs[i]} + multiset{xs[|xs| - 1]};
    assert xs[i := xs[|xs| - 1]] == xs[i := xs[|xs| - 1]][..|xs| - 1] + [xs[|xs| - 1]];
    xs[i := xs[|xs| - 1]][..|xs| - 1]
  }

  lemma IntentsSwapRemove(xs: seq<ActionRun>, i: nat)
    requires i < |xs|
    ensures multiset(Intents(xs)) == multiset(Intents(SwapRemove(xs, i))) + multiset{xs[i].intent}
  {
    assert Intents(SwapRemove(xs, i)) == SwapRemove(Intents(xs), i);
  }

  /** What is left holds no such intent, so the wanted count exceeds the owned one. */
  lemma WantedTooOften(proposals: seq<Proposal>, done: nat, left: seq<Proposal>, pool: multiset<Proposal>)
    requires done < |proposals| && proposals[done] !in left
    requires multiset(left) + multiset(proposals[..done]) == pool
    ensures !(multiset(proposals) <= pool)
  {
    var p := proposals[done];
    assert proposals == proposals[..done] + [p] + proposals[done + 1..];
    assert multiset(left)[p] == 0;
    assert multiset(proposals)[p] >= multiset(proposals[..done])[p] + 1;
  }

  method ProposalsMaterialized(job: Job, actions: seq<ActionRun>) returns (all: bool)
    ensures all <==> Materialized(job, actions)
  {
    if job.result.None? { return true; }
    var proposals := job.result.value.proposals;
    var remaining := OwnedBy(actions, job.id);
    ghost var pool := multiset(Intents(remaining));
    var done := 0;
    while done < |proposals|
      invariant 0 <= done <= |proposals|
      invariant multiset(Intents(remaining)) + multiset(proposals[..done]) == pool
    {
      var i := Position(remaining, proposals[done]);
      if i == |remaining| {
        WantedTooOften(proposals, done, Intents(remaining), pool);
        return false;
      }
      assert proposals[..done + 1] == proposals[..done] + [proposals[done]];
      IntentsSwapRemove(remaining, i);
      remaining := SwapRemove(remaining, i);
      done := done + 1;
    }
    assert proposals[..done] == proposals;
    return true;
  }
}
