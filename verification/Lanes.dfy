/** One lock per target: how actions that touch several machines take them without deadlock
    (src/platform.rs:93-127, 538-547, 569-571). */
module Lanes {
  import opened Wrappers
  import opened Text

  type Target = string

  predicate StrictlySorted(xs: seq<Target>) { forall i, k :: 0 <= i < k < |xs| ==> Before(xs[i], xs[k]) }

  // ---------------------------------------------------------------- sorting the targets

  /** Puts a target into its place, unless it is already there. */
  function InsertOnce(x: Target, xs: seq<Target>): (r: seq<Target>)
    requires StrictlySorted(xs)
    ensures StrictlySorted(r)
    ensures forall y :: y in r <==> y == x || y in xs
  {
    if xs == [] then [x]
    else if x == xs[0] then xs
    else if Before(x, xs[0]) then
      assert forall k :: 0 < k < |xs| ==> Before(x, xs[k]) by {
        forall k | 0 < k < |xs| ensures Before(x, xs[k]) { BeforeTransitive(x, xs[0], xs[k]); }
      }
      [x] + xs
    else
      BeforeTotal(x, xs[0]);
      var rest := InsertOnce(x, xs[1..]);
      assert forall k :: 0 <= k < |rest| ==> rest[k] in rest;
      assert forall y :: y in xs[1..] ==> Before(xs[0], y);
      [xs[0]] + rest
  }

  /** `sort` and `dedup`: every target once, in ascending order. */
  method SortedTargets(targets: seq<Target>) returns (sorted: seq<Target>)
    ensures StrictlySorted(sorted)
    ensures forall y :: y in sorted <==> y in targets
  {
    sorted := [];
    for i := 0 to |targets|
      invariant StrictlySorted(sorted)
      invariant forall y :: y in sorted <==> y in targets[..i]
    {
      sorted := InsertOnce(targets[i], sorted);
      assert targets[..i + 1] == targets[..i] + [targets[i]];
    }
    assert targets[..|targets|] == targets;
  }

  // ---------------------------------------------------------------- the map of locks

  class Lane {
    constructor () {}
  }

  /** Lanes are made on first use and never replaced: one target always means one lock, and two targets
      never share one. That is why the protocol below may name a lane by its target. */
  class ExecutionLanes {
    var lanes: map<Target, Lane>

    ghost predicate OneLockEach() reads this {
      forall a, b :: a in lanes && b in lanes && a != b ==> lanes[a] != lanes[b]
    }

    constructor ()
      ensures lanes == map[] && OneLockEach()
    {
      lanes := map[];
    }

    method LaneFor(target: Target) returns (lane: Lane)
      requires OneLockEach()
      modifies this
      ensures OneLockEach() && lanes == old(lanes)[target := lane]
      ensures target in old(lanes) ==> lane == old(lanes)[target]
      ensures target !in old(lanes) ==> fresh(lane)
    {
      if target in lanes { return lanes[target]; }
      lane := new Lane();
      lanes := lanes[target := lane];
    }
  }

  // ---------------------------------------------------------------- callers

  /** `order[freed..got]` are the guards in the vector; `Queued` waits for `order[got]`. */
  datatype Phase = Seeking | Queued | Holding | Releasing | Done

  datatype Caller = Caller(targets: seq<Target>, order: seq<Target>, got: nat, freed: nat, phase: Phase) {
    predicate Fine() {
      && StrictlySorted(order)
      && (forall y :: y in order ==> y in targets) && (forall y :: y in targets ==> y in order)
      && freed <= got <= |order|
      && (phase.Seeking? || phase.Queued? || phase.Holding? ==> freed == 0)
      && (phase.Queued? ==> got < |order|)
      && (phase.Holding? ==> got == |order|)
      && (phase.Done? ==> freed == got)
    }

    predicate Holds(x: Target)
      requires freed <= got <= |order|
    {
      x in order[freed..got]
    }

    /** How many steps the caller can still take. */
    function Remaining(): nat
      requires Fine()
    {
      match phase
      case Done => 0
      case Releasing => got - freed + 1
      case Holding => |order| + 2
      case Queued => 2 * (|order| - got) + |order| + 2
      case Seeking => 2 * (|order| - got) + |order| + 3
    }
  }

  /** A lane is its queue and, while somebody holds it, its owner. Lanes are created on first use. */
  datatype State = State(callers: seq<Caller>, owner: map<Target, nat>, queues: map<Target, seq<nat>>) {
    function Queue(x: Target): seq<nat> { if x in queues then queues[x] else [] }

    predicate AllFine() { forall t :: 0 <= t < |callers| ==> callers[t].Fine() }
  }

  function Without(q: seq<nat>, t: nat): (r: seq<nat>)
    ensures forall u :: u in r <==> u in q && u != t
    ensures (forall i, k :: 0 <= i < k < |q| ==> q[i] != q[k]) ==> forall i, k :: 0 <= i < k < |r| ==> r[i] != r[k]
  {
    if q == [] then []
    else
      var rest := Without(q[1..], t);
      assert forall k :: 0 <= k < |rest| ==> rest[k] in rest;
      if q[0] == t then rest else [q[0]] + rest
  }

  predicate Enters(s: State, s': State, t: nat, c: Caller) {
    && t < |s.callers| && c.phase.Seeking? && c.got < |c.order|
    && s' == s.(callers := s.callers[t := c.(phase := Queued)],
                queues := s.queues[c.order[c.got] := s.Queue(c.order[c.got]) + [t]])
  }

  predicate Granted(s: State, s': State, t: nat, c: Caller) {
    && t < |s.callers| && c.phase.Queued? && c.got < |c.order|
    && var x := c.order[c.got];
       && x !in s.owner && s.Queue(x) != [] && s.Queue(x)[0] == t
       && s' == s.(callers := s.callers[t := c.(phase := Seeking, got := c.got + 1)],
                   owner := s.owner[x := t], queues := s.queues[x := s.Queue(x)[1..]])
  }

  predicate Runs(s: State, s': State, t: nat, c: Caller) {
    t < |s.callers| && c.phase.Seeking? && c.got == |c.order| && s' == s.(callers := s.callers[t := c.(phase := Holding)])
  }

  predicate Ends(s: State, s': State, t: nat, c: Caller) {
    t < |s.callers| && c.phase.Holding? && s' == s.(callers := s.callers[t := c.(phase := Releasing)])
  }

  predicate Frees(s: State, s': State, t: nat, c: Caller) {
    && t < |s.callers| && c.phase.Releasing? && c.freed < c.got <= |c.order|
    && s' == s.(callers := s.callers[t := c.(freed := c.freed + 1)], owner := s.owner - {c.order[c.freed]})
  }

  predicate Finishes(s: State, s': State, t: nat, c: Caller) {
    t < |s.callers| && c.phase.Releasing? && c.freed == c.got && s' == s.(callers := s.callers[t := c.(phase := Done)])
  }

  /** The caller is cancelled while it waits: it leaves the queue and drops the guards it has. */
  predicate GivesUp(s: State, s': State, t: nat, c: Caller) {
    || (t < |s.callers| && c.phase.Seeking? && s' == s.(callers := s.callers[t := c.(phase := Releasing)]))
    || (&& t < |s.callers| && c.phase.Queued? && c.got < |c.order|
        && s' == s.(callers := s.callers[t := c.(phase := Releasing)],
                    queues := s.queues[c.order[c.got] := Without(s.Queue(c.order[c.got]), t)]))
  }

  /** A step nobody has to cancel for. */
  predicate Advances(s: State, s': State, t: nat) {
    && t < |s.callers|
    && var c := s.callers[t];
       Enters(s, s', t, c) || Granted(s, s', t, c) || Runs(s, s', t, c) || Ends(s, s', t, c)
       || Frees(s, s', t, c) || Finishes(s, s', t, c)
  }

  predicate Step(s: State, s': State, t: nat) {
    t < |s.callers| && (Advances(s, s', t) || GivesUp(s, s', t, s.callers[t]))
  }

  // ---------------------------------------------------------------- the invariant

  ghost predicate OwnersHold(s: State)
    requires s.AllFine()
  {
    && (forall x :: x in s.owner ==> s.owner[x] < |s.callers| && s.callers[s.owner[x]].Holds(x))
    && (forall t: nat, x :: t < |s.callers| && s.callers[t].Holds(x) ==> x in s.owner && s.owner[x] == t)
  }

  predicate WaitsFor(s: State, t: nat, x: Target) {
    t < |s.callers| && s.callers[t].phase.Queued? && s.callers[t].got < |s.callers[t].order|
    && s.callers[t].order[s.callers[t].got] == x
  }

  ghost predicate QueuesWait(s: State) {
    && (forall x, t: nat :: t in s.Queue(x) <==> WaitsFor(s, t, x))
    && (forall x, i, k :: 0 <= i < k < |s.Queue(x)| ==> s.Queue(x)[i] != s.Queue(x)[k])
  }

  ghost predicate Inv(s: State) { s.AllFine() && OwnersHold(s) && QueuesWait(s) }

  ghost predicate Init(s: State) {
    && s.AllFine() && s.owner == map[] && s.queues == map[]
    && forall t :: 0 <= t < |s.callers| ==> s.callers[t].phase.Seeking? && s.callers[t].got == 0
  }

  lemma InitInv(s: State)
    requires Init(s)
    ensures Inv(s)
  {
  }

  /** A caller never asks twice for a lane it holds: the targets were deduplicated. */
  lemma NextIsNew(c: Caller)
    requires c.Fine() && c.got < |c.order|
    ensures !c.Holds(c.order[c.got])
  {
    BeforeIrreflexive(c.order[c.got]);
  }

  lemma FreedIsGone(c: Caller)
    requires c.Fine() && c.freed < c.got
    ensures c.Holds(c.order[c.freed])
    ensures forall x :: c.(freed := c.freed + 1).Holds(x) <==> c.Holds(x) && x != c.order[c.freed]
  {
    var first, rest := c.order[c.freed], c.order[c.freed + 1..c.got];
    assert c.order[c.freed..c.got] == [first] + rest;
    assert first !in rest by {
      BeforeIrreflexive(first);
      assert forall k :: 0 <= k < |rest| ==> rest[k] == c.order[c.freed + 1 + k] && Before(first, rest[k]);
    }
    forall x ensures c.(freed := c.freed + 1).Holds(x) <==> x in rest {}
  }

  lemma GrantKeepsOwners(s: State, s': State, t: nat)
    requires s.AllFine() && OwnersHold(s) && t < |s.callers| && Granted(s, s', t, s.callers[t])
    ensures s'.AllFine() && OwnersHold(s')
  {
    var c := s.callers[t];
    NextIsNew(c);
    assert c.order[c.freed..c.got + 1] == c.order[c.freed..c.got] + [c.order[c.got]];
    forall x ensures s'.callers[t].Holds(x) <==> c.Holds(x) || x == c.order[c.got] {}
  }

  lemma FreeChangesOne(s: State, s': State, t: nat, u: nat, x: Target)
    requires s.AllFine() && s'.AllFine() && t < |s.callers| && u < |s.callers| && Frees(s, s', t, s.callers[t])
    ensures s'.callers[u].Holds(x) <==> s.callers[u].Holds(x) && !(u == t && x == s.callers[t].order[s.callers[t].freed])
  {
    if u == t { FreedIsGone(s.callers[t]); }
  }

  lemma FreeStaysFine(s: State, s': State, t: nat)
    requires s.AllFine() && t < |s.callers| && Frees(s, s', t, s.callers[t])
    ensures s'.AllFine()
  {
    assert s'.callers[t].Fine();
  }

  lemma FreeKeepsOwners(s: State, s': State, t: nat)
    requires s.AllFine() && OwnersHold(s) && t < |s.callers| && Frees(s, s', t, s.callers[t])
    ensures s'.AllFine() && OwnersHold(s')
  {
    FreeStaysFine(s, s', t);
    var freed := s.callers[t].order[s.callers[t].freed];
    FreedIsGone(s.callers[t]);
    assert s.owner[freed] == t;
    forall u: nat, x | u < |s'.callers| && s'.callers[u].Holds(x) ensures x in s'.owner && s'.owner[x] == u {
      FreeChangesOne(s, s', t, u, x);
    }
    forall x | x in s'.owner ensures s'.callers[s'.owner[x]].Holds(x) {
      FreeChangesOne(s, s', t, s.owner[x], x);
    }
  }

  /** The caller's guards are the same as before. */
  lemma SameGuardsKeepOwners(s: State, s': State, t: nat)
    requires s.AllFine() && OwnersHold(s) && t < |s.callers| && |s'.callers| == |s.callers| && s'.owner == s.owner
    requires s'.callers == s.callers[t := s.callers[t].(phase := s'.callers[t].phase)] && s'.callers[t].Fine()
    ensures s'.AllFine() && OwnersHold(s')
  {
    forall x ensures s'.callers[t].Holds(x) <==> s.callers[t].Holds(x) {}
  }

  lemma OwnersKept(s: State, s': State, t: nat)
    requires s.AllFine() && OwnersHold(s) && Step(s, s', t)
    ensures s'.AllFine() && OwnersHold(s')
  {
    if Granted(s, s', t, s.callers[t]) { GrantKeepsOwners(s, s', t); }
    else if Frees(s, s', t, s.callers[t]) { FreeKeepsOwners(s, s', t); }
    else { SameGuardsKeepOwners(s, s', t); }
  }

  lemma QueuesKept(s: State, s': State, t: nat)
    requires s.AllFine() && QueuesWait(s) && Step(s, s', t)
    ensures QueuesWait(s')
  {
    var c := s.callers[t];
    forall x, u: nat ensures u in s'.Queue(x) <==> WaitsFor(s', u, x) {
      assert u in s.Queue(x) <==> WaitsFor(s, u, x);
      QueueChange(s, s', t, x, u);
    }
    forall x, i, k | 0 <= i < k < |s'.Queue(x)| ensures s'.Queue(x)[i] != s'.Queue(x)[k] {
      assert t in s.Queue(x) <==> WaitsFor(s, t, x);
    }
  }

  lemma QueueChange(s: State, s': State, t: nat, x: Target, u: nat)
    requires QueuesWait(s) && Step(s, s', t)
    ensures u in s'.Queue(x) <==> if u == t then WaitsFor(s', t, x) else u in s.Queue(x)
  {
    var c := s.callers[t];
    assert t in s.Queue(x) <==> WaitsFor(s, t, x);
    if Granted(s, s', t, c) && x == c.order[c.got] {
      assert s.Queue(x) == [t] + s.Queue(x)[1..];
    }
  }

  lemma InvKept(s: State, s': State, t: nat)
    requires Inv(s) && Step(s, s', t)
    ensures Inv(s')
  {
    OwnersKept(s, s', t);
    QueuesKept(s, s', t);
  }

  // ---------------------------------------------------------------- mutual exclusion

  /** Two actions that run at the same time have no target in common. */
  lemma NoSharedTarget(s: State, t: nat, u: nat, x: Target)
    requires Inv(s) && t < |s.callers| && u < |s.callers| && s.callers[t].phase.Holding? && s.callers[u].phase.Holding?
    requires x in s.callers[t].targets && x in s.callers[u].targets
    ensures t == u
  {
    var c, d := s.callers[t], s.callers[u];
    assert c.order[c.freed..c.got] == c.order && d.order[d.freed..d.got] == d.order;
    assert x in c.order && x in d.order;
    assert c.Holds(x) && d.Holds(x);
    assert s.owner[x] == t && s.owner[x] == u;
  }

  // ---------------------------------------------------------------- deadlock freedom

  ghost predicate CanAdvance(s: State) { exists t: nat, s' :: Advances(s, s', t) }

  predicate Unfinished(s: State, t: nat) { t < |s.callers| && !s.callers[t].phase.Done? }

  lemma AdvanceUnlessQueued(s: State, t: nat)
    requires Inv(s) && Unfinished(s, t) && !s.callers[t].phase.Queued?
    ensures CanAdvance(s)
  {
    var c := s.callers[t];
    var q := s.(callers := s.callers[t := c.(phase := Queued)]);
    match c.phase
    case Seeking =>
      if c.got < |c.order| {
        var s' := q.(queues := s.queues[c.order[c.got] := s.Queue(c.order[c.got]) + [t]]);
        assert Enters(s, s', t, c) && Advances(s, s', t);
      } else {
        var s' := s.(callers := s.callers[t := c.(phase := Holding)]);
        assert Runs(s, s', t, c) && Advances(s, s', t);
      }
    case Holding =>
      var s' := s.(callers := s.callers[t := c.(phase := Releasing)]);
      assert Ends(s, s', t, c) && Advances(s, s', t);
    case Releasing =>
      if c.freed < c.got {
        var s' := s.(callers := s.callers[t := c.(freed := c.freed + 1)], owner := s.owner - {c.order[c.freed]});
        assert Frees(s, s', t, c) && Advances(s, s', t);
      } else {
        var s' := s.(callers := s.callers[t := c.(phase := Done)]);
        assert Finishes(s, s', t, c) && Advances(s, s', t);
      }
    case _ =>
  }

  /** A free lane with a queue goes to the first in it. */
  lemma FreeLaneIsGranted(s: State, t: nat, x: Target)
    requires Inv(s) && WaitsFor(s, t, x) && x !in s.owner
    ensures CanAdvance(s)
  {
    assert t in s.Queue(x);
    var h := s.Queue(x)[0];
    assert WaitsFor(s, h, x);
    var c := s.callers[h];
    var s' := s.(callers := s.callers[h := c.(phase := Seeking, got := c.got + 1)],
                 owner := s.owner[x := h], queues := s.queues[x := s.Queue(x)[1..]]);
    assert Granted(s, s', h, c) && Advances(s, s', h);
  }

  ghost predicate AllQueued(s: State) { forall u: nat :: Unfinished(s, u) ==> s.callers[u].phase.Queued? }

  /** The highest lane anybody waits for. */
  lemma {:induction false} HighestWait(s: State, n: nat) returns (t: nat)
    requires s.AllFine() && n <= |s.callers| && exists u: nat :: u < n && s.callers[u].phase.Queued?
    ensures t < n && s.callers[t].phase.Queued?
    ensures forall u: nat :: u < n && s.callers[u].phase.Queued? ==>
              var w := s.callers[u].order[s.callers[u].got];
              var top := s.callers[t].order[s.callers[t].got];
              w == top || Before(w, top)
  {
    if exists u: nat :: u < n - 1 && s.callers[u].phase.Queued? {
      t := HighestWait(s, n - 1);
      if s.callers[n - 1].phase.Queued? {
        var mine := s.callers[n - 1].order[s.callers[n - 1].got];
        var top := s.callers[t].order[s.callers[t].got];
        BeforeTotal(mine, top);
        if Before(top, mine) {
          forall u: nat | u < n - 1 && s.callers[u].phase.Queued?
            ensures Before(s.callers[u].order[s.callers[u].got], mine)
          {
            var w := s.callers[u].order[s.callers[u].got];
            if w != top { BeforeTransitive(w, top, mine); }
          }
          t := n - 1;
        }
      }
    } else {
      t := n - 1;
    }
  }

  /** Whoever holds a lane and waits, waits for a later one: ascending order rules out cycles. */
  lemma OwnerWaitsHigher(s: State, u: nat, x: Target)
    requires Inv(s) && u < |s.callers| && s.callers[u].Holds(x) && s.callers[u].phase.Queued?
    ensures Before(x, s.callers[u].order[s.callers[u].got])
  {
    var c := s.callers[u];
    var j :| c.freed <= j < c.got && c.order[j] == x;
  }

  /** In every reachable state with an unfinished caller, somebody can go on without being cancelled. */
  lemma NoDeadlock(s: State, t: nat)
    requires Inv(s) && Unfinished(s, t)
    ensures CanAdvance(s)
  {
    if !AllQueued(s) {
      var u: nat :| Unfinished(s, u) && !s.callers[u].phase.Queued?;
      AdvanceUnlessQueued(s, u);
    } else {
      var h := HighestWait(s, |s.callers|);
      var x := s.callers[h].order[s.callers[h].got];
      if x in s.owner {
        var u := s.owner[x];
        assert Unfinished(s, u);
        OwnerWaitsHigher(s, u, x);
        var w := s.callers[u].order[s.callers[u].got];
        if Before(w, x) { BeforeTransitive(x, w, x); }
        BeforeIrreflexive(x);
        assert false;
      }
      FreeLaneIsGranted(s, h, x);
    }
  }

  // ---------------------------------------------------------------- termination

  function Remaining(callers: seq<Caller>): nat
    requires forall t :: 0 <= t < |callers| ==> callers[t].Fine()
  {
    if callers == [] then 0 else callers[0].Remaining() + Remaining(callers[1..])
  }

  lemma {:induction false} RemainingSplit(callers: seq<Caller>, t: nat, c: Caller)
    requires t < |callers| && c.Fine() && forall u :: 0 <= u < |callers| ==> callers[u].Fine()
    ensures Remaining(callers[t := c]) + callers[t].Remaining() == Remaining(callers) + c.Remaining()
  {
    if t == 0 {
      assert callers[0 := c] == [c] + callers[1..];
    } else {
      RemainingSplit(callers[1..], t - 1, c);
      assert callers[t := c][1..] == callers[1..][t - 1 := c];
    }
  }

  lemma StepSpends(s: State, s': State, t: nat)
    requires Inv(s) && Step(s, s', t) && s'.AllFine()
    ensures Remaining(s'.callers) < Remaining(s.callers)
  {
    CallerSpends(s, s', t);
    RemainingSplit(s.callers, t, s'.callers[t]);
  }

  lemma CallerSpends(s: State, s': State, t: nat)
    requires s.AllFine() && Step(s, s', t) && s'.AllFine()
    ensures |s'.callers| == |s.callers| && s'.callers == s.callers[t := s'.callers[t]]
    ensures s'.callers[t].Remaining() < s.callers[t].Remaining()
  {
  }

  // ---------------------------------------------------------------- whole runs

  ghost predicate StepsTo(s: State, s': State) { exists t: nat :: Step(s, s', t) }

  ghost predicate IsRun(run: seq<State>) {
    && run != [] && Init(run[0])
    && forall k :: 0 <= k < |run| - 1 ==> StepsTo(run[k], run[k + 1])
  }

  lemma {:induction false} RunInv(run: seq<State>, k: nat)
    requires IsRun(run) && k < |run|
    ensures Inv(run[k]) && |run[k].callers| == |run[0].callers|
    ensures Remaining(run[k].callers) + k <= Remaining(run[0].callers)
  {
    if k == 0 {
      InitInv(run[0]);
    } else {
      RunInv(run, k - 1);
      assert StepsTo(run[k - 1], run[k - 1 + 1]);
      StepToKeeps(run[k - 1], run[k]);
    }
  }

  lemma StepToKeeps(s: State, s': State)
    requires Inv(s) && StepsTo(s, s')
    ensures Inv(s') && |s'.callers| == |s.callers| && Remaining(s'.callers) < Remaining(s.callers)
  {
    var t: nat :| Step(s, s', t);
    InvKept(s, s', t);
    StepSpends(s, s', t);
    CallerSpends(s, s', t);
  }

  /** No two actions ever hold a lane for the same target at the same time. */
  lemma LanesExclude(run: seq<State>, k: nat, t: nat, u: nat, x: Target)
    requires IsRun(run) && k < |run| && t < |run[k].callers| && u < |run[k].callers| && t != u
    requires run[k].callers[t].phase.Holding? && run[k].callers[u].phase.Holding?
    ensures !(x in run[k].callers[t].targets && x in run[k].callers[u].targets)
  {
    RunInv(run, k);
    if x in run[k].callers[t].targets && x in run[k].callers[u].targets { NoSharedTarget(run[k], t, u, x); }
  }

  predicate AllDone(s: State) { forall t :: 0 <= t < |s.callers| ==> s.callers[t].phase.Done? }

  /** However many actions over whatever targets: a run has a bounded length, and where it cannot be
      continued everyone is done. */
  lemma EveryoneFinishes(run: seq<State>)
    requires IsRun(run)
    ensures |run| <= Remaining(run[0].callers) + 1
    ensures !CanAdvance(run[|run| - 1]) ==> AllDone(run[|run| - 1])
  {
    var last := run[|run| - 1];
    RunInv(run, |run| - 1);
    forall t: nat | Unfinished(last, t) ensures CanAdvance(last) { NoDeadlock(last, t); }
    assert forall t: nat :: t < |last.callers| && !last.callers[t].phase.Done? ==> Unfinished(last, t);
  }
}
