/** From the log to the bill: what is counted, that it is counted once, and that it never shrinks
    (src/usage.rs:134-191, 246-415). */
module Usage {
  import opened Wrappers
  import opened Ledger
  import opened Totals

  // ---------------------------------------------------------------- what should be counted

  function Jobs(records: map<string, RequestUsage>): set<nat> {
    set id | id in records && records[id].jobId.Some? :: records[id].jobId.value
  }

  function Namespaces(records: map<string, RequestUsage>): set<nat> {
    set id | id in records :: records[id].namespace
  }

  /** An older pass-level record whose pass has ledger entries of its own. */
  predicate Covered(e: LogEntry, jobs: set<nat>, namespaces: set<nat>)
    requires e.PassUsage?
  {
    (e.jobId.Some? && e.jobId.value in jobs) || (e.passId.Some? && e.passId.value in namespaces)
  }

  function Uncovered(log: seq<LogEntry>, jobs: set<nat>, namespaces: set<nat>): seq<ModelUsage> {
    if |log| == 0 then []
    else
      var e := log[|log| - 1];
      Uncovered(log[..|log| - 1], jobs, namespaces)
        + if e.PassUsage? && !Covered(e, jobs, namespaces) then [e.usage] else []
  }

  function UsageCounts(usages: seq<ModelUsage>): seq<Counts> {
    seq(|usages|, k requires 0 <= k < |usages| => usages[k].counts)
  }

  ghost function Pick(ids: set<string>): (id: string)
    requires ids != {}
    ensures id in ids
  {
    var id :| id in ids;
    id
  }

  /** The sum over a set of requests, in no particular order. */
  ghost function SumOver(records: map<string, RequestUsage>, ids: set<string>): Counts
    requires ids <= records.Keys
  {
    if |ids| == 0 then Nothing()
    else SumOver(records, ids - {Pick(ids)}).Plus(records[Pick(ids)].Known())
  }

  /** What the deployment used: every request once, plus the old records no request covers. */
  ghost function TrueUsage(log: seq<LogEntry>): Counts {
    var records := Fold(log);
    SumOver(records, records.Keys).Plus(Sum(UsageCounts(Uncovered(log, Jobs(records), Namespaces(records)))))
  }

  // ---------------------------------------------------------------- sums over requests

  lemma {:induction false} SumOverPick(records: map<string, RequestUsage>, ids: set<string>, id: string)
    requires ids <= records.Keys && id in ids
    ensures SumOver(records, ids) == SumOver(records, ids - {id}).Plus(records[id].Known())
    decreases ids
  {
    var first := Pick(ids);
    if first != id {
      var rest := SumOver(records, ids - {first} - {id});
      assert SumOver(records, ids - {first}) == rest.Plus(records[id].Known()) by { SumOverPick(records, ids - {first}, id); }
      assert SumOver(records, ids - {id}) == rest.Plus(records[first].Known()) by {
        SumOverPick(records, ids - {id}, first);
        assert ids - {first} - {id} == ids - {id} - {first};
      }
      PlusSwaps(rest, records[id].Known(), records[first].Known());
    }
  }

  /** Records outside the set do not matter. */
  lemma {:induction false} SumOverSame(a: map<string, RequestUsage>, b: map<string, RequestUsage>, ids: set<string>)
    requires ids <= a.Keys && ids <= b.Keys && forall id :: id in ids ==> a[id] == b[id]
    ensures SumOver(a, ids) == SumOver(b, ids)
    decreases ids
  {
    if ids != {} { SumOverSame(a, b, ids - {Pick(ids)}); }
  }

  function KnownOf(ledger: seq<RequestUsage>): seq<Counts> {
    seq(|ledger|, k requires 0 <= k < |ledger| => ledger[k].Known())
  }

  function IdsOf(ledger: seq<RequestUsage>): set<string> { set r | r in ledger :: r.requestId }

  lemma {:induction false} SumOverListing(ledger: seq<RequestUsage>, records: map<string, RequestUsage>)
    requires forall i, k :: 0 <= i < k < |ledger| ==> ledger[i].requestId != ledger[k].requestId
    requires forall r :: r in ledger ==> r.requestId in records && records[r.requestId] == r
    ensures IdsOf(ledger) <= records.Keys
    ensures Sum(KnownOf(ledger)) == SumOver(records, IdsOf(ledger))
  {
    if ledger != [] {
      var init, r := ledger[..|ledger| - 1], ledger[|ledger| - 1];
      assert ledger == init + [r] && r in ledger;
      SumOverListing(init, records);
      IdsWithoutLast(init, r);
      SumOverPick(records, IdsOf(ledger), r.requestId);
      assert Sum(KnownOf(ledger)) == Sum(KnownOf(init)).Plus(r.Known()) by { OneMoreRequest(init, r); }
    }
  }

  lemma IdsWithoutLast(init: seq<RequestUsage>, r: RequestUsage)
    requires forall x :: x in init ==> x.requestId != r.requestId
    ensures r.requestId in IdsOf(init + [r]) && IdsOf(init + [r]) - {r.requestId} == IdsOf(init)
    ensures IdsOf(init + [r]) == IdsOf(init) + {r.requestId}
  {
    assert r in init + [r];
    forall x | x in init ensures x in init + [r] {}
    forall x | x in init + [r] ensures x == r || x in init {}
  }

  lemma DistinctInOrder(ledger: seq<RequestUsage>, records: map<string, RequestUsage>)
    requires InOrder(ledger) && Lists(ledger, records) && KeyedByRequest(records)
    ensures forall i, k :: 0 <= i < k < |ledger| ==> ledger[i].requestId != ledger[k].requestId
    ensures forall id :: id in records ==> records[id] in ledger && records[id].requestId == id
  {
    forall i, k | 0 <= i < k < |ledger| ensures ledger[i].requestId != ledger[k].requestId {
      assert ledger[i] in ledger && ledger[k] in ledger && Earlier(ledger[i], ledger[k]);
      Text.BeforeIrreflexive(ledger[i].requestId);
    }
  }

  // ---------------------------------------------------------------- price

  datatype Pricing = Pricing(inputRate: real, cachedRate: Option<real>, outputRate: real) {
    /** Cached tokens are part of the input and are billed once. */
    function Cost(c: Counts): real {
      var cached := if c.cached <= c.input then c.cached else c.input;
      var rate := if cachedRate.Some? then cachedRate.value else inputRate;
      ((c.input - cached) as real * inputRate + cached as real * rate + c.output as real * outputRate) / 1000000.0
    }
  }

  function SumCost(pricing: Pricing, xs: seq<Counts>): real {
    if xs == [] then 0.0 else SumCost(pricing, xs[..|xs| - 1]) + pricing.Cost(xs[|xs| - 1])
  }

  predicate CachedWithin(c: Counts) { c.cached <= c.input }

  lemma CostAdditive(pricing: Pricing, a: Counts, b: Counts)
    requires CachedWithin(a) && CachedWithin(b)
    ensures pricing.Cost(a.Plus(b)) == pricing.Cost(a) + pricing.Cost(b)
  {
    var r := if pricing.cachedRate.Some? then pricing.cachedRate.value else pricing.inputRate;
    var fa, fb := (a.input - a.cached) as real, (b.input - b.cached) as real;
    assert (a.Plus(b).input - a.Plus(b).cached) as real == fa + fb;
    assert (fa + fb) * pricing.inputRate == fa * pricing.inputRate + fb * pricing.inputRate;
    assert (a.cached + b.cached) as real * r == a.cached as real * r + b.cached as real * r;
    assert (a.output + b.output) as real * pricing.outputRate == a.output as real * pricing.outputRate + b.output as real * pricing.outputRate;
  }

  /** The bill of a group is the bill of its sum: pricing does not depend on grouping either. */
  lemma {:induction false} CostOfSum(pricing: Pricing, xs: seq<Counts>)
    requires forall k :: 0 <= k < |xs| ==> CachedWithin(xs[k])
    ensures CachedWithin(Sum(xs)) && SumCost(pricing, xs) == pricing.Cost(Sum(xs))
  {
    if xs != [] {
      CostOfSum(pricing, xs[..|xs| - 1]);
      CostAdditive(pricing, Sum(xs[..|xs| - 1]), xs[|xs| - 1]);
    }
  }

  // ---------------------------------------------------------------- totals

  datatype UsageTotals = UsageTotals(
    passes: nat, counts: Counts, totalTokens: nat, cost: Option<real>, byModel: seq<Group<string>>, costOf: map<string, real>)

  /** What the records of one model cost. */
  function CostFor(pricing: Pricing, usages: seq<ModelUsage>, model: string): real {
    if |usages| == 0 then 0.0
    else
      var init, last := usages[..|usages| - 1], usages[|usages| - 1];
      CostFor(pricing, init, model) + if last.model == model then pricing.Cost(last.counts) else 0.0
  }

  ghost predicate CostsByModel(costOf: map<string, real>, pricing: Option<Pricing>, usages: seq<ModelUsage>) {
    if pricing.None? then costOf == map[]
    else
      && (forall model :: model in costOf <==> exists k :: 0 <= k < |usages| && usages[k].model == model)
      && (forall model :: model in costOf ==> costOf[model] == CostFor(pricing.value, usages, model))
  }

  method AddCost(costOf: map<string, real>, pricing: Pricing, ghost usages: seq<ModelUsage>, u: ModelUsage) returns (next: map<string, real>)
    requires CostsByModel(costOf, Some(pricing), usages)
    ensures CostsByModel(next, Some(pricing), usages + [u])
  {
    var sofar := if u.model in costOf then costOf[u.model] else 0.0;
    next := costOf[u.model := sofar + pricing.Cost(u.counts)];
    ghost var longer := usages + [u];
    assert longer[..|usages|] == usages && longer[|usages|] == u;
    if u.model !in costOf { AbsentCost(pricing, usages, u.model); }
    forall model ensures model in next <==> exists k :: 0 <= k < |longer| && longer[k].model == model {
      if k :| 0 <= k < |usages| && usages[k].model == model { assert longer[k].model == model; }
      if model == u.model { assert longer[|usages|].model == model; }
    }
  }

  lemma {:induction false} AbsentCost(pricing: Pricing, usages: seq<ModelUsage>, model: string)
    requires forall k :: 0 <= k < |usages| ==> usages[k].model != model
    ensures CostFor(pricing, usages, model) == 0.0
  {
    if |usages| != 0 { AbsentCost(pricing, usages[..|usages| - 1], model); }
  }

  function ByModel(usages: seq<ModelUsage>): seq<Item<string>> {
    seq(|usages|, k requires 0 <= k < |usages| => Item(usages[k].model, usages[k].counts))
  }

  lemma OneMoreUsage(usages: seq<ModelUsage>, u: ModelUsage)
    ensures Sum(UsageCounts(usages + [u])) == Sum(UsageCounts(usages)).Plus(u.counts)
    ensures forall p: Pricing :: SumCost(p, UsageCounts(usages + [u])) == SumCost(p, UsageCounts(usages)) + p.Cost(u.counts)
  {
    assert UsageCounts(usages + [u])[..|usages|] == UsageCounts(usages);
  }

  /** Input plus output, saturated. */
  function TotalTokens(c: Counts): nat { Cap(c.input + c.output, MAX64) }

  /** While the records are read the models stand in the order of their first records. */
  ghost predicate ModelsSoFar(byModel: seq<Group<string>>, usages: seq<ModelUsage>) {
    GroupsFor(byModel, ByModel(usages)) && InFirstOrder(byModel, ByModel(usages))
  }

  ghost predicate BillSoFar(cost: Option<real>, costOf: map<string, real>, pricing: Option<Pricing>, usages: seq<ModelUsage>) {
    && cost == (if pricing.None? then None else Some(SumCost(pricing.value, UsageCounts(usages))))
    && CostsByModel(costOf, pricing, usages)
  }

  ghost predicate TotalsSoFar(t: UsageTotals, pricing: Option<Pricing>, usages: seq<ModelUsage>) {
    && t.passes == Wrapped32(|usages|) && t.counts == Capped(Sum(UsageCounts(usages)))
    && ModelsSoFar(t.byModel, usages) && BillSoFar(t.cost, t.costOf, pricing, usages)
  }

  method AddModel(byModel: seq<Group<string>>, ghost usages: seq<ModelUsage>, u: ModelUsage) returns (next: seq<Group<string>>)
    requires ModelsSoFar(byModel, usages)
    ensures ModelsSoFar(next, usages + [u])
  {
    assert ByModel(usages + [u]) == ByModel(usages) + [Item(u.model, u.counts)];
    next := AddItem(byModel, ByModel(usages), Item(u.model, u.counts));
  }

  method Bill(cost: Option<real>, costOf: map<string, real>, pricing: Option<Pricing>, ghost usages: seq<ModelUsage>, u: ModelUsage)
    returns (total: Option<real>, next: map<string, real>)
    requires BillSoFar(cost, costOf, pricing, usages)
    ensures BillSoFar(total, next, pricing, usages + [u])
  {
    if pricing.None? { return cost, costOf; }
    OneMoreUsage(usages, u);
    total := Some(cost.value + pricing.value.Cost(u.counts));
    next := AddCost(costOf, pricing.value, usages, u);
  }

  method AddUsage(t: UsageTotals, pricing: Option<Pricing>, ghost usages: seq<ModelUsage>, u: ModelUsage) returns (next: UsageTotals)
    requires TotalsSoFar(t, pricing, usages)
    ensures TotalsSoFar(next, pricing, usages + [u])
  {
    var counts := AddCapped(t.counts, Sum(UsageCounts(usages)), u.counts);
    var byModel := AddModel(t.byModel, usages, u);
    var cost, costOf := Bill(t.cost, t.costOf, pricing, usages, u);
    next := UsageTotals(Wrapped32(t.passes + 1), counts, t.totalTokens, cost, byModel, costOf);
    assert Sum(UsageCounts(usages + [u])) == Sum(UsageCounts(usages)).Plus(u.counts) by { OneMoreUsage(usages, u); }
  }

  method NoTotals(pricing: Option<Pricing>) returns (t: UsageTotals)
    ensures TotalsSoFar(t, pricing, [])
  {
    var cost: Option<real> := if pricing.None? then None else Some(0.0);
    t := UsageTotals(0, Nothing(), 0, cost, [], map[]);
    assert CountsOf(t.byModel) == ItemCounts(ByModel([]));
  }

  method FromUsages(usages: seq<ModelUsage>, pricing: Option<Pricing>) returns (t: UsageTotals)
    ensures t.passes == Wrapped32(|usages|)
    ensures t.counts == Capped(Sum(UsageCounts(usages)))
    ensures t.totalTokens == TotalTokens(Sum(UsageCounts(usages)))
    ensures t.cost == if pricing.None? then None else Some(SumCost(pricing.value, UsageCounts(usages)))
    ensures GroupsFor(t.byModel, ByModel(usages)) && Ranked(t.byModel, ByModel(usages)) && Capped(Sum(CountsOf(t.byModel))) == t.counts
    ensures CostsByModel(t.costOf, pricing, usages)
  {
    t := NoTotals(pricing);
    assert usages[..0] == [];
    for k := 0 to |usages|
      invariant TotalsSoFar(t, pricing, usages[..k])
    {
      assert usages[..k + 1] == usages[..k] + [usages[k]];
      t := AddUsage(t, pricing, usages[..k], usages[k]);
    }
    assert usages[..|usages|] == usages;
    assert UsageCounts(usages) == ItemCounts(ByModel(usages));
    var byModel := RankGroups(t.byModel, ByModel(usages));
    t := t.(totalTokens := TotalTokens(t.counts), byModel := byModel);
  }

  method AddCapped(running: Counts, ghost sum: Counts, more: Counts) returns (next: Counts)
    requires running == Capped(sum)
    ensures next == Capped(sum.Plus(more))
  {
    next := SatPlus(running, more);
  }

  /** The requests that reached a model, under the pass they belong to. */
  function Sent(ledger: seq<RequestUsage>): seq<Item<nat>> {
    if ledger == [] then []
    else
      var r := ledger[|ledger| - 1];
      Sent(ledger[..|ledger| - 1]) + if r.status.NotSent? then [] else [Item(r.namespace, r.Known())]
  }

  lemma OneMoreRequest(ledger: seq<RequestUsage>, r: RequestUsage)
    ensures Sent(ledger + [r]) == if r.status.NotSent? then Sent(ledger) else Sent(ledger) + [Item(r.namespace, r.Known())]
    ensures Sum(KnownOf(ledger + [r])) == Sum(KnownOf(ledger)).Plus(r.Known())
  {
    assert (ledger + [r])[..|ledger|] == ledger;
    assert KnownOf(ledger + [r])[..|ledger|] == KnownOf(ledger);
  }

  lemma {:induction false} SentSum(ledger: seq<RequestUsage>)
    ensures Sum(ItemCounts(Sent(ledger))) == Sum(KnownOf(ledger))
  {
    if ledger != [] {
      var init, r := ledger[..|ledger| - 1], ledger[|ledger| - 1];
      assert ledger == init + [r];
      SentSum(init);
      OneMoreRequest(init, r);
      if !r.status.NotSent? { AppendItem(Sent(init), Item(r.namespace, r.Known()), r.namespace); }
    }
  }

  method AddRequest(groups: seq<Group<nat>>, ghost read: seq<RequestUsage>, r: RequestUsage) returns (next: seq<Group<nat>>)
    requires GroupsFor(groups, Sent(read))
    ensures GroupsFor(next, Sent(read + [r]))
  {
    OneMoreRequest(read, r);
    if r.status.NotSent? { return groups; }
    next := AddItem(groups, Sent(read), Item(r.namespace, r.Known()));
  }

  method GroupByNamespace(ledger: seq<RequestUsage>) returns (groups: seq<Group<nat>>)
    ensures GroupsFor(groups, Sent(ledger))
  {
    groups := [];
    ghost var read: seq<RequestUsage> := [];
    assert ItemCounts(Sent(read)) == CountsOf(groups);
    for k := 0 to |ledger|
      invariant read == ledger[..k]
      invariant GroupsFor(groups, Sent(read))
    {
      groups := AddRequest(groups, read, ledger[k]);
      read := read + [ledger[k]];
    }
    assert read == ledger;
  }

  /** A group is billed under the model its first request asked for. */
  function ModelOf(ledger: seq<RequestUsage>, namespace: nat): string {
    if ledger == [] then ""
    else if ledger[0].namespace == namespace && !ledger[0].status.NotSent? then
      if ledger[0].usage.Some? then ledger[0].usage.value.model else ledger[0].model
    else ModelOf(ledger[1..], namespace)
  }

  function GroupUsages(ledger: seq<RequestUsage>, groups: seq<Group<nat>>): seq<ModelUsage> {
    seq(|groups|, k requires 0 <= k < |groups| => ModelUsage(ModelOf(ledger, groups[k].key), groups[k].counts))
  }

  method UncoveredUsages(log: seq<LogEntry>, jobs: set<nat>, namespaces: set<nat>) returns (usages: seq<ModelUsage>)
    ensures usages == Uncovered(log, jobs, namespaces)
    ensures forall u :: u in usages ==> exists k :: 0 <= k < |log| && log[k].PassUsage? && log[k].usage == u
  {
    UncoveredAreLogged(log, jobs, namespaces);
    usages := [];
    for k := 0 to |log|
      invariant usages == Uncovered(log[..k], jobs, namespaces)
    {
      assert log[..k + 1][..k] == log[..k];
      if log[k].PassUsage? && !Covered(log[k], jobs, namespaces) { usages := usages + [log[k].usage]; }
    }
    assert log[..|log|] == log;
  }

  /** The totals are the saturated true sum: grouping by pass, grouping by model and the order of the log
      make no difference to them. */
  method FromEvents(log: seq<LogEntry>, pricing: Option<Pricing>) returns (t: UsageTotals, ghost used: Counts)
    ensures used == TrueUsage(log)
    ensures t.counts == Capped(used)
    ensures t.totalTokens == TotalTokens(used)
    ensures Capped(Sum(CountsOf(t.byModel))) == t.counts
    ensures t.cost.None? <==> pricing.None?
    ensures pricing.Some? && HonestCaching(log) && Below(used) ==> t.cost == Some(pricing.value.Cost(used))
  {
    var usages := BilledUsages(log);
    used := TrueUsage(log);
    t := FromUsages(usages, pricing);
    CappedTotal(Sum(UsageCounts(usages)), used);
  }

  lemma CappedTotal(a: Counts, b: Counts)
    requires Capped(a) == Capped(b)
    ensures TotalTokens(a) == TotalTokens(b)
  {
  }

  /** The older records nobody covers, then one record per pass. */
  method BilledUsages(log: seq<LogEntry>) returns (usages: seq<ModelUsage>)
    ensures Capped(Sum(UsageCounts(usages))) == Capped(TrueUsage(log))
    ensures HonestCaching(log) && Below(TrueUsage(log)) ==>
              forall p: Pricing :: SumCost(p, UsageCounts(usages)) == p.Cost(TrueUsage(log))
  {
    ghost var used := TrueUsage(log);
    var ledger := RequestLedger(log);
    var jobs := set r | r in ledger && r.jobId.Some? :: r.jobId.value;
    var namespaces := set r | r in ledger :: r.namespace;
    var groups := GroupByNamespace(ledger);
    var older := UncoveredUsages(log, jobs, namespaces);
    usages := older + GroupUsages(ledger, groups);
    CountedOnce(log, ledger, jobs, namespaces, groups, older);
    if HonestCaching(log) && Below(used) {
      forall p: Pricing { BilledExactly(log, ledger, groups, older, usages, p); }
    }
  }

  /** Nobody reports more cached input than input. */
  predicate HonestCaching(log: seq<LogEntry>) {
    forall k :: 0 <= k < |log| ==>
      && (log[k].Request? ==> CachedWithin(log[k].record.Known()))
      && (log[k].PassUsage? ==> CachedWithin(log[k].usage.counts))
  }

  /** No token counter has saturated. */
  predicate Below(c: Counts) { c.input < MAX64 && c.cached < MAX64 && c.output < MAX64 }

  lemma BilledExactly(log: seq<LogEntry>, ledger: seq<RequestUsage>, groups: seq<Group<nat>>, older: seq<ModelUsage>,
                      usages: seq<ModelUsage>, pricing: Pricing)
    requires HonestCaching(log) && Below(TrueUsage(log))
    requires Lists(ledger, Fold(log)) && GroupsFor(groups, Sent(ledger))
    requires usages == older + GroupUsages(ledger, groups)
    requires forall u :: u in older ==> exists k :: 0 <= k < |log| && log[k].PassUsage? && log[k].usage == u
    requires Capped(Sum(UsageCounts(usages))) == Capped(TrueUsage(log))
    ensures SumCost(pricing, UsageCounts(usages)) == pricing.Cost(TrueUsage(log))
  {
    LedgerHonest(log, ledger);
    BilledHonest(log, ledger, groups, older);
    CostOfSum(pricing, UsageCounts(usages));
    BelowIsExact(pricing, Sum(UsageCounts(usages)), TrueUsage(log));
  }

  lemma BilledHonest(log: seq<LogEntry>, ledger: seq<RequestUsage>, groups: seq<Group<nat>>, older: seq<ModelUsage>)
    requires HonestCaching(log) && GroupsFor(groups, Sent(ledger)) && forall r :: r in ledger ==> CachedWithin(r.Known())
    requires forall u :: u in older ==> exists k :: 0 <= k < |log| && log[k].PassUsage? && log[k].usage == u
    ensures forall k :: 0 <= k < |older| + |groups| ==> CachedWithin(UsageCounts(older + GroupUsages(ledger, groups))[k])
  {
    forall k | 0 <= k < |groups| ensures CachedWithin(groups[k].counts) { GroupHonest(ledger, groups[k].key); }
    forall k | 0 <= k < |older| ensures CachedWithin(older[k].counts) { assert older[k] in older; }
  }

  lemma BelowIsExact(pricing: Pricing, a: Counts, b: Counts)
    requires Below(b) && Capped(a) == Capped(b)
    ensures pricing.Cost(a) == pricing.Cost(b)
  {
  }

  lemma LedgerHonest(log: seq<LogEntry>, ledger: seq<RequestUsage>)
    requires HonestCaching(log) && Lists(ledger, Fold(log))
    ensures forall r :: r in ledger ==> CachedWithin(r.Known())
  {
    FoldIsLedger(log);
    forall r | r in ledger ensures CachedWithin(r.Known()) {
      assert IsEntry(log, r.requestId, r);
    }
  }

  lemma {:induction false} GroupHonest(ledger: seq<RequestUsage>, key: nat)
    requires forall r :: r in ledger ==> CachedWithin(r.Known())
    ensures CachedWithin(SumFor(Sent(ledger), key))
  {
    if ledger != [] {
      var init, r := ledger[..|ledger| - 1], ledger[|ledger| - 1];
      assert ledger == init + [r] && r in ledger;
      GroupHonest(init, key);
      OneMoreRequest(init, r);
      if !r.status.NotSent? { AppendItem(Sent(init), Item(r.namespace, r.Known()), key); }
    }
  }

  lemma {:induction false} UncoveredAreLogged(log: seq<LogEntry>, jobs: set<nat>, namespaces: set<nat>)
    ensures forall u :: u in Uncovered(log, jobs, namespaces) ==> exists k :: 0 <= k < |log| && log[k].PassUsage? && log[k].usage == u
  {
    if log != [] {
      var init := log[..|log| - 1];
      UncoveredAreLogged(init, jobs, namespaces);
      forall u | u in Uncovered(log, jobs, namespaces) ensures exists k :: 0 <= k < |log| && log[k].PassUsage? && log[k].usage == u {
        if u in Uncovered(init, jobs, namespaces) {
          var k :| 0 <= k < |init| && init[k].PassUsage? && init[k].usage == u;
          assert log[k].usage == u;
        } else {
          assert log[|log| - 1].usage == u;
        }
      }
    }
  }

  lemma CountedOnce(log: seq<LogEntry>, ledger: seq<RequestUsage>, jobs: set<nat>, namespaces: set<nat>,
                    groups: seq<Group<nat>>, older: seq<ModelUsage>)
    requires InOrder(ledger) && Lists(ledger, Fold(log)) && GroupsFor(groups, Sent(ledger))
    requires jobs == set r | r in ledger && r.jobId.Some? :: r.jobId.value
    requires namespaces == set r | r in ledger :: r.namespace
    requires older == Uncovered(log, jobs, namespaces)
    ensures Capped(Sum(UsageCounts(older + GroupUsages(ledger, groups)))) == Capped(TrueUsage(log))
  {
    var records := Fold(log);
    LedgerSum(log, ledger);
    SameCoverage(ledger, records, jobs, namespaces);
    var used := Sum(UsageCounts(older));
    assert TrueUsage(log) == SumOver(records, records.Keys).Plus(used);
    GroupsAndOlder(ledger, groups, older, SumOver(records, records.Keys));
  }

  lemma GroupsAndOlder(ledger: seq<RequestUsage>, groups: seq<Group<nat>>, older: seq<ModelUsage>, requests: Counts)
    requires GroupsFor(groups, Sent(ledger)) && Sum(ItemCounts(Sent(ledger))) == requests
    ensures Capped(Sum(UsageCounts(older + GroupUsages(ledger, groups)))) == Capped(requests.Plus(Sum(UsageCounts(older))))
  {
    assert UsageCounts(older + GroupUsages(ledger, groups)) == UsageCounts(older) + CountsOf(groups);
    SumConcat(UsageCounts(older), CountsOf(groups));
    CappedAgain(Sum(CountsOf(groups)), requests, Sum(UsageCounts(older)));
    PlusSwaps(Nothing(), Sum(UsageCounts(older)), Sum(CountsOf(groups)));
  }

  lemma LedgerSum(log: seq<LogEntry>, ledger: seq<RequestUsage>)
    requires InOrder(ledger) && Lists(ledger, Fold(log))
    ensures Sum(ItemCounts(Sent(ledger))) == SumOver(Fold(log), Fold(log).Keys)
    ensures KeyedByRequest(Fold(log)) && forall id :: id in Fold(log) ==> Fold(log)[id] in ledger
  {
    FoldIsLedger(log);
    DistinctInOrder(ledger, Fold(log));
    SumOverListing(ledger, Fold(log));
    assert IdsOf(ledger) == Fold(log).Keys;
    SentSum(ledger);
  }

  lemma SameCoverage(ledger: seq<RequestUsage>, records: map<string, RequestUsage>, jobs: set<nat>, namespaces: set<nat>)
    requires Lists(ledger, records) && KeyedByRequest(records)
    requires forall id :: id in records ==> records[id] in ledger
    requires jobs == set r | r in ledger && r.jobId.Some? :: r.jobId.value
    requires namespaces == set r | r in ledger :: r.namespace
    ensures jobs == Jobs(records) && namespaces == Namespaces(records)
  {
    forall j ensures j in jobs <==> j in Jobs(records) {
      if j in Jobs(records) { var id :| id in records && records[id].jobId == Some(j); assert records[id] in ledger; }
    }
    forall n ensures n in namespaces <==> n in Namespaces(records) {
      if n in Namespaces(records) { var id :| id in records && records[id].namespace == n; assert records[id] in ledger; }
    }
  }
}
