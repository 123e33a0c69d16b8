/** Adding a ledger up: totals that do not depend on how the records were grouped
    (src/usage.rs:134-191, 246-415). */
module Totals {
  import opened Wrappers
  import opened Ledger

  // ---------------------------------------------------------------- saturating sums

  const MAX64: nat := 0xFFFF_FFFF_FFFF_FFFF
  const MAX32: nat := 0xFFFF_FFFF

  /** `+=` on 32 and 64 bits, as release builds add. */
  function Wrapped32(x: nat): nat { x % 0x1_0000_0000 }

  function Wrapped64(x: nat): nat { x % 0x1_0000_0000_0000_0000 }

  function Cap(x: nat, max: nat): nat { if x <= max then x else max }

  /** What fits the counters: 64 bits for tokens, 32 for requests. */
  function Capped(c: Counts): Counts {
    Counts(Cap(c.input, MAX64), Cap(c.cached, MAX64), Cap(c.output, MAX64), Cap(c.requests, MAX32), Cap(c.unreported, MAX32))
  }

  /** `saturating_add`, field by field. */
  function SatPlus(a: Counts, b: Counts): Counts { Capped(a.Plus(b)) }

  function Sum(xs: seq<Counts>): Counts {
    if |xs| == 0 then Nothing() else Sum(xs[..|xs| - 1]).Plus(xs[|xs| - 1])
  }

  lemma SumLast(xs: seq<Counts>, c: Counts)
    ensures Sum(xs + [c]) == Sum(xs).Plus(c)
  {
    assert (xs + [c])[..|xs|] == xs;
  }

  lemma PlusNothing(a: Counts)
    ensures a.Plus(Nothing()) == a == Nothing().Plus(a)
  {
  }

  lemma PlusAssociates(a: Counts, b: Counts, c: Counts)
    ensures a.Plus(b).Plus(c) == a.Plus(b.Plus(c))
  {
  }

  lemma {:induction false} SumConcat(xs: seq<Counts>, ys: seq<Counts>)
    ensures Sum(xs + ys) == Sum(xs).Plus(Sum(ys))
  {
    if ys == [] {
      assert xs + ys == xs && Sum(ys) == Nothing();
      PlusNothing(Sum(xs));
    } else {
      var init, last := ys[..|ys| - 1], ys[|ys| - 1];
      SumConcat(xs, init);
      assert (xs + ys)[..|xs + ys| - 1] == xs + init;
      PlusAssociates(Sum(xs), Sum(init), last);
    }
  }

  lemma {:induction false} SumWithout(xs: seq<Counts>, i: nat)
    requires i < |xs|
    ensures Sum(xs) == Sum(xs[i := Nothing()]).Plus(xs[i])
  {
    if i == |xs| - 1 {
      assert xs[i := Nothing()][..|xs| - 1] == xs[..|xs| - 1];
    } else {
      SumWithout(xs[..|xs| - 1], i);
      assert xs[i := Nothing()][..|xs| - 1] == xs[..|xs| - 1][i := Nothing()];
    }
  }

  /** Saturating early loses nothing that saturating late would have kept. */
  lemma CapAbsorbs(rest: Counts, g: Counts, c: Counts)
    ensures Capped(rest.Plus(SatPlus(g, c))) == Capped(rest.Plus(g).Plus(c))
  {
  }

  // ---------------------------------------------------------------- grouping

  /** A running sum for one key, a namespace or a model; passes are counted in 32 bits and wrap. */
  datatype Group<K> = Group(key: K, passes: nat, counts: Counts)

  datatype Item<K> = Item(key: K, counts: Counts)

  function CountsOf<K>(groups: seq<Group<K>>): seq<Counts> {
    seq(|groups|, k requires 0 <= k < |groups| => groups[k].counts)
  }

  function ItemCounts<K>(items: seq<Item<K>>): seq<Counts> {
    seq(|items|, k requires 0 <= k < |items| => items[k].counts)
  }

  /** Everything the items hold under one key. */
  function SumFor<K(==)>(items: seq<Item<K>>, key: K): Counts {
    if items == [] then Nothing()
    else
      var init := SumFor(items[..|items| - 1], key);
      if items[|items| - 1].key == key then init.Plus(items[|items| - 1].counts) else init
  }

  function NumberFor<K(==)>(items: seq<Item<K>>, key: K): nat {
    if items == [] then 0
    else NumberFor(items[..|items| - 1], key) + if items[|items| - 1].key == key then 1 else 0
  }

  ghost predicate GroupFor<K(!new)>(g: Group<K>, items: seq<Item<K>>) {
    && g.counts == Capped(SumFor(items, g.key))
    && NumberFor(items, g.key) > 0 && g.passes == Wrapped32(NumberFor(items, g.key))
  }

  /** Each key once, and under it the saturated sum of exactly its items. */
  ghost predicate GroupsFor<K(!new)>(groups: seq<Group<K>>, items: seq<Item<K>>) {
    && (forall i, k :: 0 <= i < k < |groups| ==> groups[i].key != groups[k].key)
    && (forall i :: 0 <= i < |groups| ==> GroupFor(groups[i], items))
    && (forall i :: 0 <= i < |items| ==> exists k :: 0 <= k < |groups| && groups[k].key == items[i].key)
    && Capped(Sum(CountsOf(groups))) == Capped(Sum(ItemCounts(items)))
  }

  method Find<K(==)>(groups: seq<Group<K>>, key: K) returns (i: nat)
    ensures i <= |groups|
    ensures i < |groups| ==> groups[i].key == key
    ensures forall k :: 0 <= k < i ==> groups[k].key != key
  {
    i := 0;
    while i < |groups| && groups[i].key != key
      invariant i <= |groups|
      invariant forall k :: 0 <= k < i ==> groups[k].key != key
    {
      i := i + 1;
    }
  }

  lemma {:induction false} AbsentSum<K>(items: seq<Item<K>>, key: K)
    requires forall i :: 0 <= i < |items| ==> items[i].key != key
    ensures SumFor(items, key) == Nothing() && NumberFor(items, key) == 0
  {
    if items != [] { AbsentSum(items[..|items| - 1], key); }
  }

  lemma AppendItem<K>(items: seq<Item<K>>, item: Item<K>, key: K)
    ensures SumFor(items + [item], key) == if item.key == key then SumFor(items, key).Plus(item.counts) else SumFor(items, key)
    ensures NumberFor(items + [item], key) == NumberFor(items, key) + if item.key == key then 1 else 0
    ensures Sum(ItemCounts(items + [item])) == Sum(ItemCounts(items)).Plus(item.counts)
  {
    assert (items + [item])[..|items|] == items;
    assert ItemCounts(items + [item])[..|items|] == ItemCounts(items);
  }

  // ---------------------------------------------------------------- the order of the groups

  /** Where the key comes first; the length when it does not. */
  function FirstAt<K(==)>(items: seq<Item<K>>, key: K): (at: nat)
    ensures at <= |items| && (at < |items| ==> items[at].key == key)
    ensures forall k :: 0 <= k < at ==> items[k].key != key
  {
    if items == [] then 0
    else if FirstAt(items[..|items| - 1], key) < |items| - 1 then FirstAt(items[..|items| - 1], key)
    else if items[|items| - 1].key == key then |items| - 1
    else |items|
  }

  /** By their first items. */
  predicate InFirstOrder<K(==)>(groups: seq<Group<K>>, items: seq<Item<K>>) {
    forall i, k :: 0 <= i < k < |groups| ==> FirstAt(items, groups[i].key) < FirstAt(items, groups[k].key)
  }

  lemma FirstAtAppend<K>(items: seq<Item<K>>, item: Item<K>, key: K)
    ensures FirstAt(items, key) < |items| ==> FirstAt(items + [item], key) == FirstAt(items, key)
    ensures FirstAt(items, key) == |items| ==> FirstAt(items + [item], key) >= |items|
  {
    assert (items + [item])[..|items|] == items;
  }

  lemma {:induction false} OccursFirst<K>(items: seq<Item<K>>, key: K)
    ensures NumberFor(items, key) > 0 ==> FirstAt(items, key) < |items|
  {
    if items != [] { OccursFirst(items[..|items| - 1], key); }
  }

  lemma FirstKept<K(!new)>(g: Group<K>, items: seq<Item<K>>, item: Item<K>)
    requires GroupFor(g, items)
    ensures FirstAt(items + [item], g.key) == FirstAt(items, g.key) < |items|
  {
    OccursFirst(items, g.key);
    FirstAtAppend(items, item, g.key);
  }

  lemma NewComesLast<K(!new)>(groups: seq<Group<K>>, items: seq<Item<K>>, item: Item<K>)
    requires GroupsFor(groups, items) && forall k :: 0 <= k < |groups| ==> groups[k].key != item.key
    ensures FirstAt(items + [item], item.key) >= |items|
  {
    FirstAtAppend(items, item, item.key);
  }

  lemma FirstOrderKept<K(!new)>(groups: seq<Group<K>>, items: seq<Item<K>>, item: Item<K>, next: seq<Group<K>>)
    requires GroupsFor(groups, items) && InFirstOrder(groups, items)
    requires |groups| <= |next| <= |groups| + 1 && forall k :: 0 <= k < |groups| ==> next[k].key == groups[k].key
    requires |next| > |groups| ==> next[|groups|].key == item.key && forall k :: 0 <= k < |groups| ==> groups[k].key != item.key
    ensures InFirstOrder(next, items + [item])
  {
    if |next| > |groups| { NewComesLast(groups, items, item); }
    forall i, k | 0 <= i < k < |next|
      ensures FirstAt(items + [item], next[i].key) < FirstAt(items + [item], next[k].key)
    {
      FirstKept(groups[i], items, item);
      if k < |groups| { FirstKept(groups[k], items, item); }
    }
  }

  /** The sort key adds two counters without saturating. */
  function SortKey(c: Counts): nat { Wrapped64(c.input + c.output) }

  /** The larger first; among equals, the one that came first. */
  predicate Outranks<K(==)>(a: Group<K>, b: Group<K>, items: seq<Item<K>>) {
    || SortKey(a.counts) > SortKey(b.counts)
    || (SortKey(a.counts) == SortKey(b.counts) && FirstAt(items, a.key) < FirstAt(items, b.key))
  }

  predicate Ranked<K(==)>(groups: seq<Group<K>>, items: seq<Item<K>>) {
    forall i, k :: 0 <= i < k < |groups| ==> Outranks(groups[i], groups[k], items)
  }

  /** The groups that were taken are there, and they add up to the same. */
  ghost predicate RankedSoFar<K(!new)>(ranked: seq<Group<K>>, groups: seq<Group<K>>, items: seq<Item<K>>) {
    && Ranked(ranked, items) && (forall g :: g in ranked <==> g in groups)
    && Sum(CountsOf(ranked)) == Sum(CountsOf(groups))
  }

  lemma SumInserted(xs: seq<Counts>, ys: seq<Counts>, c: Counts)
    ensures Sum(xs + [c] + ys) == Sum(xs + ys).Plus(c)
  {
    SumLast(xs, c);
    SumConcat(xs + [c], ys);
    SumConcat(xs, ys);
    PlusSwaps(Sum(xs), c, Sum(ys));
  }

  lemma PlusSwaps(a: Counts, b: Counts, c: Counts)
    ensures a.Plus(b).Plus(c) == a.Plus(c).Plus(b)
  {
  }

  lemma RankedInserted<K(!new)>(ranked: seq<Group<K>>, groups: seq<Group<K>>, g: Group<K>, items: seq<Item<K>>, i: nat)
    requires RankedSoFar(ranked, groups, items) && i <= |ranked|
    requires forall k :: 0 <= k < i ==> Outranks(ranked[k], g, items)
    requires forall k :: i <= k < |ranked| ==> Outranks(g, ranked[k], items)
    ensures RankedSoFar(ranked[..i] + [g] + ranked[i..], groups + [g], items)
  {
    var next := ranked[..i] + [g] + ranked[i..];
    assert ranked == ranked[..i] + ranked[i..];
    assert CountsOf(next) == CountsOf(ranked[..i]) + [g.counts] + CountsOf(ranked[i..]);
    assert CountsOf(ranked) == CountsOf(ranked[..i]) + CountsOf(ranked[i..]);
    SumInserted(CountsOf(ranked[..i]), CountsOf(ranked[i..]), g.counts);
    assert CountsOf(groups + [g]) == CountsOf(groups) + [g.counts];
    SumLast(CountsOf(groups), g.counts);
  }

  /** One turn of a stable insertion sort. */
  method InsertRanked<K(==, !new)>(ranked: seq<Group<K>>, ghost groups: seq<Group<K>>, g: Group<K>, ghost items: seq<Item<K>>)
    returns (next: seq<Group<K>>)
    requires RankedSoFar(ranked, groups, items)
    requires forall x :: x in groups ==> FirstAt(items, x.key) < FirstAt(items, g.key)
    ensures RankedSoFar(next, groups + [g], items)
  {
    var i := 0;
    while i < |ranked| && SortKey(ranked[i].counts) >= SortKey(g.counts)
      invariant i <= |ranked| && forall k :: 0 <= k < i ==> SortKey(ranked[k].counts) >= SortKey(g.counts)
    {
      i := i + 1;
    }
    next := ranked[..i] + [g] + ranked[i..];
    forall k | 0 <= k < i ensures Outranks(ranked[k], g, items) { assert ranked[k] in groups; }
    forall k | i <= k < |ranked| ensures Outranks(g, ranked[k], items) {
      if k > i { assert Outranks(ranked[i], ranked[k], items); }
    }
    RankedInserted(ranked, groups, g, items, i);
  }

  /** `sort_by` on the groups, which keeps equals in their order. */
  method RankGroups<K(==, !new)>(groups: seq<Group<K>>, ghost items: seq<Item<K>>) returns (ranked: seq<Group<K>>)
    requires GroupsFor(groups, items) && InFirstOrder(groups, items)
    ensures GroupsFor(ranked, items) && Ranked(ranked, items)
  {
    ranked := [];
    assert CountsOf(ranked) == CountsOf(groups[..0]);
    for n := 0 to |groups|
      invariant RankedSoFar(ranked, groups[..n], items)
    {
      ranked := InsertRanked(ranked, groups[..n], groups[n], items);
      assert groups[..n + 1] == groups[..n] + [groups[n]];
    }
    assert groups[..|groups|] == groups;
    RankedGroups(ranked, groups, items);
  }

  lemma RankedGroups<K(!new)>(ranked: seq<Group<K>>, groups: seq<Group<K>>, items: seq<Item<K>>)
    requires GroupsFor(groups, items) && RankedSoFar(ranked, groups, items)
    ensures GroupsFor(ranked, items)
  {
    forall i, k | 0 <= i < k < |ranked| ensures ranked[i].key != ranked[k].key {
      assert Outranks(ranked[i], ranked[k], items) && ranked[i] in groups && ranked[k] in groups;
    }
    forall i | 0 <= i < |ranked| ensures GroupFor(ranked[i], items) { assert ranked[i] in groups; }
    forall i | 0 <= i < |items| ensures exists k :: 0 <= k < |ranked| && ranked[k].key == items[i].key {
      var n :| 0 <= n < |groups| && groups[n].key == items[i].key;
      assert groups[n] in ranked;
    }
  }

  /** `entry(key).or_insert_with(..)`, then saturating additions. */
  method AddItem<K(==, !new)>(groups: seq<Group<K>>, ghost items: seq<Item<K>>, item: Item<K>) returns (next: seq<Group<K>>)
    requires GroupsFor(groups, items)
    ensures GroupsFor(next, items + [item])
    ensures InFirstOrder(groups, items) ==> InFirstOrder(next, items + [item])
  {
    var i := Find(groups, item.key);
    forall key: K { AppendItem(items, item, key); }
    if i < |groups| {
      var g := groups[i];
      next := groups[i := Group(g.key, Wrapped32(g.passes + 1), SatPlus(g.counts, item.counts))];
      AddedToGroup(groups, items, item, i, next);
      if InFirstOrder(groups, items) { FirstOrderKept(groups, items, item, next); }
    } else {
      next := groups + [Group(item.key, 1, SatPlus(Nothing(), item.counts))];
      AddedGroup(groups, items, item, next);
      if InFirstOrder(groups, items) { FirstOrderKept(groups, items, item, next); }
    }
  }

  lemma AddedToGroup<K(!new)>(groups: seq<Group<K>>, items: seq<Item<K>>, item: Item<K>, i: nat, next: seq<Group<K>>)
    requires GroupsFor(groups, items) && i < |groups| && groups[i].key == item.key
    requires next == groups[i := Group(item.key, Wrapped32(groups[i].passes + 1), SatPlus(groups[i].counts, item.counts))]
    ensures GroupsFor(next, items + [item])
  {
    AppendItem(items, item, item.key);
    forall k | 0 <= k < |next| ensures GroupFor(next[k], items + [item]) {
      assert GroupFor(groups[k], items);
      OneGroup(groups[k], items, item);
    }
    AddedToOne(CountsOf(groups), CountsOf(next), i, item.counts);
    CappedAgain(Sum(CountsOf(groups)), Sum(ItemCounts(items)), item.counts);
    KeysCovered(groups, items, item, next, i);
  }

  /** A group with the item added where it belongs. */
  lemma OneGroup<K(!new)>(g: Group<K>, items: seq<Item<K>>, item: Item<K>)
    requires GroupFor(g, items)
    ensures if g.key == item.key then GroupFor(Group(g.key, Wrapped32(g.passes + 1), SatPlus(g.counts, item.counts)), items + [item])
            else GroupFor(g, items + [item])
  {
    AppendItem(items, item, g.key);
  }

  lemma AddedToOne(was: seq<Counts>, next: seq<Counts>, i: nat, c: Counts)
    requires i < |was| && next == was[i := SatPlus(was[i], c)]
    ensures Capped(Sum(next)) == Capped(Sum(was).Plus(c))
  {
    SumWithout(was, i);
    SumWithout(next, i);
    assert next[i := Nothing()] == was[i := Nothing()];
    CapAbsorbs(Sum(was[i := Nothing()]), was[i], c);
  }

  lemma AddedNew(was: seq<Counts>, c: Counts)
    ensures Capped(Sum(was + [SatPlus(Nothing(), c)])) == Capped(Sum(was).Plus(c))
  {
    SumLast(was, SatPlus(Nothing(), c));
    CapAbsorbs(Sum(was), Nothing(), c);
    assert Sum(was).Plus(Nothing()) == Sum(was);
  }

  lemma KeysCovered<K(!new)>(groups: seq<Group<K>>, items: seq<Item<K>>, item: Item<K>, next: seq<Group<K>>, i: nat)
    requires |groups| <= |next| && i < |next| && next[i].key == item.key
    requires forall k :: 0 <= k < |groups| ==> next[k].key == groups[k].key
    requires forall k :: 0 <= k < |items| ==> exists n :: 0 <= n < |groups| && groups[n].key == items[k].key
    ensures forall k :: 0 <= k < |items + [item]| ==> exists n :: 0 <= n < |next| && next[n].key == (items + [item])[k].key
  {
    forall k | 0 <= k < |items + [item]| ensures exists n :: 0 <= n < |next| && next[n].key == (items + [item])[k].key {
      if k < |items| {
        var n :| 0 <= n < |groups| && groups[n].key == items[k].key;
        assert next[n].key == (items + [item])[k].key;
      } else {
        assert next[i].key == item.key;
      }
    }
  }

  lemma AddedGroup<K(!new)>(groups: seq<Group<K>>, items: seq<Item<K>>, item: Item<K>, next: seq<Group<K>>)
    requires GroupsFor(groups, items) && forall k :: 0 <= k < |groups| ==> groups[k].key != item.key
    requires next == groups + [Group(item.key, 1, SatPlus(Nothing(), item.counts))]
    ensures GroupsFor(next, items + [item])
  {
    forall key: K { AppendItem(items, item, key); }
    forall k | 0 <= k < |items| ensures items[k].key != item.key {
      var n :| 0 <= n < |groups| && groups[n].key == items[k].key;
    }
    AbsentSum(items, item.key);
    assert CountsOf(next) == CountsOf(groups) + [next[|groups|].counts];
    AddedNew(CountsOf(groups), item.counts);
    CappedAgain(Sum(CountsOf(groups)), Sum(ItemCounts(items)), item.counts);
    KeysCovered(groups, items, item, next, |groups|);
  }

  lemma CappedAgain(a: Counts, b: Counts, c: Counts)
    requires Capped(a) == Capped(b)
    ensures Capped(a.Plus(c)) == Capped(b.Plus(c))
    ensures Capped(a.Plus(Capped(c))) == Capped(b.Plus(c))
  {
  }
}
