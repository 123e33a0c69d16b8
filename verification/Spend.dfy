/** The spending ceiling: once reached it stays reached, and few requests finish after that
    (src/accounting.rs:56-190, src/usage.rs:171-191, crates/harness/src/agent.rs:479-553). */
module Spend {
  import opened Wrappers
  import opened Ledger
  import opened Totals
  import opened Usage

  // ---------------------------------------------------------------- an orderly log

  predicate Covers(r: RequestUsage, e: LogEntry)
    requires e.PassUsage?
  {
    (e.jobId.Some? && r.jobId == e.jobId) || e.passId == Some(r.namespace)
  }

  /** What the harness writes when a request starts carries no counts. */
  predicate CountlessStarts(log: seq<LogEntry>) {
    forall k :: 0 <= k < |log| && log[k].Request? && log[k].record.status.Started? ==> log[k].record.usage.None?
  }

  /** A request stays with its Job and its pass. */
  predicate OneIdentity(log: seq<LogEntry>) {
    forall i, k :: 0 <= i < |log| && 0 <= k < |log| && log[i].Request? && log[k].Request?
                   && log[i].record.requestId == log[k].record.requestId ==>
      log[i].record.jobId == log[k].record.jobId && log[i].record.namespace == log[k].record.namespace
  }

  predicate CoveredBefore(log: seq<LogEntry>, k: nat)
    requires k < |log| && log[k].PassUsage?
  {
    exists i :: 0 <= i < k && log[i].Request? && Covers(log[i].record, log[k])
  }

  /** No request comes to cover an older pass-level record that was counted so far. */
  predicate Timely(log: seq<LogEntry>) {
    forall k, j :: 0 <= k < j < |log| && log[k].PassUsage? && log[j].Request? && Covers(log[j].record, log[k]) ==>
      CoveredBefore(log, k)
  }

  predicate Orderly(log: seq<LogEntry>) { CountlessStarts(log) && OneIdentity(log) && Timely(log) }

  lemma OrderlyPrefix(log: seq<LogEntry>, more: seq<LogEntry>)
    requires Orderly(log + more)
    ensures Orderly(log)
  {
    var longer := log + more;
    assert forall k :: 0 <= k < |log| ==> longer[k] == log[k];
    forall k, j | 0 <= k < j < |log| && log[k].PassUsage? && log[j].Request? && Covers(log[j].record, log[k])
      ensures CoveredBefore(log, k)
    {
      assert Covers(longer[j].record, longer[k]) && CoveredBefore(longer, k);
    }
  }

  // ---------------------------------------------------------------- the ledger of a longer log

  lemma {:induction false} FoldHas(log: seq<LogEntry>, id: string)
    ensures id in Fold(log) <==> exists i :: 0 <= i < |log| && log[i].Request? && log[i].record.requestId == id
    ensures id in Fold(log) ==> exists i :: 0 <= i < |log| && log[i].Request? && log[i].record == Fold(log)[id]
    ensures id in Fold(log) ==> Fold(log)[id].requestId == id
  {
    FoldIsLedger(log);
    if id in Fold(log) { assert IsEntry(log, id, Fold(log)[id]); }
    if exists i :: 0 <= i < |log| && log[i].Request? && log[i].record.requestId == id { FoldMentions(log, id); }
  }

  lemma {:induction false} FoldMentions(log: seq<LogEntry>, id: string)
    requires exists i :: 0 <= i < |log| && log[i].Request? && log[i].record.requestId == id
    ensures id in Fold(log)
  {
    var i :| 0 <= i < |log| && log[i].Request? && log[i].record.requestId == id;
    if i < |log| - 1 {
      assert log[..|log| - 1][i] == log[i];
      FoldMentions(log[..|log| - 1], id);
    }
  }

  /** An entry is covered by the ledger exactly when some logged request covers it. */
  lemma CoveredByLog(log: seq<LogEntry>, e: LogEntry)
    requires e.PassUsage? && OneIdentity(log)
    ensures Covered(e, Jobs(Fold(log)), Namespaces(Fold(log)))
            <==> exists i :: 0 <= i < |log| && log[i].Request? && Covers(log[i].record, e)
  {
    var records := Fold(log);
    if e.jobId.Some? && e.jobId.value in Jobs(records) {
      var id :| id in records && records[id].jobId == e.jobId;
      FoldHas(log, id);
      var i :| 0 <= i < |log| && log[i].Request? && log[i].record == records[id];
      assert Covers(log[i].record, e);
    }
    if e.passId.Some? && e.passId.value in Namespaces(records) {
      var id :| id in records && records[id].namespace == e.passId.value;
      FoldHas(log, id);
      var i :| 0 <= i < |log| && log[i].Request? && log[i].record == records[id];
      assert Covers(log[i].record, e);
    }
    if i :| 0 <= i < |log| && log[i].Request? && Covers(log[i].record, e) {
      var id := log[i].record.requestId;
      FoldHas(log, id);
      var k :| 0 <= k < |log| && log[k].Request? && log[k].record == records[id];
      assert records[id].jobId == log[i].record.jobId && records[id].namespace == log[i].record.namespace;
    }
  }

  // ---------------------------------------------------------------- what one more entry hides

  predicate CoveredIn(log: seq<LogEntry>, e: LogEntry)
    requires e.PassUsage?
  {
    exists i :: 0 <= i < |log| && log[i].Request? && Covers(log[i].record, e)
  }

  /** The older record was counted so far and is not once the request is logged; a look at the log tells. */
  predicate Hides(log: seq<LogEntry>, e: LogEntry, k: nat)
    requires k < |log|
  {
    e.Request? && log[k].PassUsage? && Covers(e.record, log[k]) && !CoveredIn(log, log[k])
  }

  /** The positions of the older records the entry hides. */
  function HiddenAt(log: seq<LogEntry>, e: LogEntry): set<nat> { set k: nat | k < |log| && Hides(log, e, k) }

  function OlderCounts(x: LogEntry): Counts { if x.PassUsage? then x.usage.counts else Nothing() }

  /** The counts of the records at those positions, among the first `n`. */
  function CountsAt(log: seq<LogEntry>, at: set<nat>, n: nat): Counts
    requires n <= |log|
  {
    if n == 0 then Nothing()
    else if n - 1 in at then CountsAt(log, at, n - 1).Plus(OlderCounts(log[n - 1]))
    else CountsAt(log, at, n - 1)
  }

  /** What the older records hidden by the entry add up to. */
  function Hidden(log: seq<LogEntry>, e: LogEntry): Counts { CountsAt(log, HiddenAt(log, e), |log|) }

  predicate CoveredByFold(log: seq<LogEntry>, e: LogEntry)
    requires e.PassUsage?
  {
    Covered(e, Jobs(Fold(log)), Namespaces(Fold(log)))
  }

  lemma IdentityPrefix(log: seq<LogEntry>, e: LogEntry)
    requires OneIdentity(log + [e])
    ensures OneIdentity(log)
  {
    assert forall k :: 0 <= k < |log| ==> (log + [e])[k] == log[k];
  }

  /** One more entry covers what it covers itself, and uncovers nothing. */
  lemma CoverageGrows(log: seq<LogEntry>, e: LogEntry, x: LogEntry)
    requires OneIdentity(log + [e]) && x.PassUsage?
    ensures CoveredByFold(log + [e], x) <==> CoveredByFold(log, x) || (e.Request? && Covers(e.record, x))
  {
    var longer := log + [e];
    IdentityPrefix(log, e);
    CoveredByLog(log, x);
    CoveredByLog(longer, x);
    assert longer[|log|] == e && forall k :: 0 <= k < |log| ==> longer[k] == log[k];
  }

  /** What an entry hides is what the ledger covers with it and did not cover without it. */
  lemma HiddenByFold(log: seq<LogEntry>, e: LogEntry, k: nat)
    requires OneIdentity(log + [e]) && k < |log| && log[k].PassUsage?
    ensures Hides(log, e, k) <==> !CoveredByFold(log, log[k]) && CoveredByFold(log + [e], log[k])
    ensures CoveredByFold(log, log[k]) ==> CoveredByFold(log + [e], log[k])
  {
    IdentityPrefix(log, e);
    CoveredByLog(log, log[k]);
    CoverageGrows(log, e, log[k]);
  }

  /** The positions hold what a ledger of those Jobs and namespaces leaves to be counted. */
  ghost predicate LeftAt(at: set<nat>, log: seq<LogEntry>, jobs: set<nat>, namespaces: set<nat>) {
    forall k: nat :: k in at <==> k < |log| && log[k].PassUsage? && !Covered(log[k], jobs, namespaces)
  }

  lemma OlderSumCounted(entries: seq<LogEntry>, x: LogEntry, jobs: set<nat>, namespaces: set<nat>)
    requires x.PassUsage? && !Covered(x, jobs, namespaces)
    ensures Sum(UsageCounts(Uncovered(entries + [x], jobs, namespaces)))
            == Sum(UsageCounts(Uncovered(entries, jobs, namespaces))).Plus(x.usage.counts)
  {
    assert (entries + [x])[..|entries|] == entries;
    OneMoreUsage(Uncovered(entries, jobs, namespaces), x.usage);
  }

  lemma OlderSumSkipped(entries: seq<LogEntry>, x: LogEntry, jobs: set<nat>, namespaces: set<nat>)
    requires x.PassUsage? ==> Covered(x, jobs, namespaces)
    ensures Uncovered(entries + [x], jobs, namespaces) == Uncovered(entries, jobs, namespaces)
  {
    assert (entries + [x])[..|entries|] == entries;
  }

  lemma {:induction false} OlderSumAt(log: seq<LogEntry>, at: set<nat>, jobs: set<nat>, namespaces: set<nat>, n: nat)
    requires LeftAt(at, log, jobs, namespaces) && n <= |log|
    ensures Sum(UsageCounts(Uncovered(log[..n], jobs, namespaces))) == CountsAt(log, at, n)
  {
    if n > 0 {
      OlderSumAt(log, at, jobs, namespaces, n - 1);
      OlderSumNext(log, at, jobs, namespaces, n - 1);
    }
  }

  lemma OlderSumNext(log: seq<LogEntry>, at: set<nat>, jobs: set<nat>, namespaces: set<nat>, n: nat)
    requires LeftAt(at, log, jobs, namespaces) && n < |log|
    requires Sum(UsageCounts(Uncovered(log[..n], jobs, namespaces))) == CountsAt(log, at, n)
    ensures Sum(UsageCounts(Uncovered(log[..n + 1], jobs, namespaces))) == CountsAt(log, at, n + 1)
  {
    assert log[..n + 1] == log[..n] + [log[n]];
    if n in at {
      OlderSumCounted(log[..n], log[n], jobs, namespaces);
    } else {
      OlderSumSkipped(log[..n], log[n], jobs, namespaces);
    }
  }

  /** Where the log still counts its older records. */
  function CountedAt(log: seq<LogEntry>): set<nat> { set k: nat | k < |log| && log[k].PassUsage? && !CoveredByFold(log, log[k]) }

  /** What the log counts of its older records. */
  function OlderUsage(log: seq<LogEntry>): Counts { CountsAt(log, CountedAt(log), |log|) }

  ghost function RequestSum(log: seq<LogEntry>): Counts { SumOver(Fold(log), Fold(log).Keys) }

  lemma TrueUsageInParts(log: seq<LogEntry>)
    ensures TrueUsage(log) == RequestSum(log).Plus(OlderUsage(log))
  {
    OlderSumAt(log, CountedAt(log), Jobs(Fold(log)), Namespaces(Fold(log)), |log|);
    assert log[..|log|] == log;
  }

  /** Below `n` the whole falls into two parts. */
  predicate Parts(whole: set<nat>, kept: set<nat>, gone: set<nat>, n: nat) {
    forall k: nat :: k < n ==> (k in whole <==> k in kept || k in gone) && !(k in kept && k in gone)
  }

  lemma {:induction false} CountsSplit(log: seq<LogEntry>, whole: set<nat>, kept: set<nat>, gone: set<nat>, n: nat)
    requires n <= |log| && Parts(whole, kept, gone, n)
    ensures CountsAt(log, whole, n) == CountsAt(log, kept, n).Plus(CountsAt(log, gone, n))
  {
    if n == 0 {
      NothingSplits(log, whole, kept, gone);
    } else {
      CountsSplit(log, whole, kept, gone, n - 1);
      CountsSplitOne(log, whole, kept, gone, n);
    }
  }

  lemma NothingSplits(log: seq<LogEntry>, whole: set<nat>, kept: set<nat>, gone: set<nat>)
    ensures CountsAt(log, whole, 0) == CountsAt(log, kept, 0).Plus(CountsAt(log, gone, 0))
  {
  }

  lemma CountsSplitOne(log: seq<LogEntry>, whole: set<nat>, kept: set<nat>, gone: set<nat>, n: nat)
    requires 0 < n <= |log| && Parts(whole, kept, gone, n)
    requires CountsAt(log, whole, n - 1) == CountsAt(log, kept, n - 1).Plus(CountsAt(log, gone, n - 1))
    ensures CountsAt(log, whole, n) == CountsAt(log, kept, n).Plus(CountsAt(log, gone, n))
  {
    var c, k, g := OlderCounts(log[n - 1]), CountsAt(log, kept, n - 1), CountsAt(log, gone, n - 1);
    assert k.Plus(g).Plus(c) == k.Plus(c).Plus(g) == k.Plus(g.Plus(c)) by { PlusMoves(k, g, c); }
  }

  lemma PlusMoves(a: Counts, b: Counts, c: Counts)
    ensures a.Plus(b).Plus(c) == a.Plus(c).Plus(b) == a.Plus(b.Plus(c))
  {
  }

  lemma {:induction false} CountsOfPrefix(log: seq<LogEntry>, e: LogEntry, at: set<nat>, n: nat)
    requires n <= |log|
    ensures CountsAt(log + [e], at, n) == CountsAt(log, at, n)
  {
    if n > 0 { CountsOfPrefix(log, e, at, n - 1); }
  }

  // ---------------------------------------------------------------- totals never shrink

  predicate Adds(was: Counts, now: Counts, delta: Counts) {
    now.input == was.input + delta.input && now.cached == was.cached + delta.cached && now.output == was.output + delta.output
  }

  predicate Tokenless(c: Counts) { c.input == 0 && c.cached == 0 && c.output == 0 }

  /** What one more entry adds as a request: all of it, unless the request had ended before. */
  function RequestDelta(log: seq<LogEntry>, e: LogEntry): Counts {
    if e.Request? && !(e.record.requestId in Fold(log) && Fold(log)[e.record.requestId].Terminal()) then e.record.Known() else Nothing()
  }

  /** What it adds as an older record: all of it, unless a request covers it. */
  ghost function OlderDelta(log: seq<LogEntry>, e: LogEntry): Counts {
    if e.PassUsage? && !Covered(e, Jobs(Fold(log + [e])), Namespaces(Fold(log + [e]))) then e.usage.counts else Nothing()
  }

  /** The older records after the entry: its own, and all but the hidden ones. */
  lemma OlderRecordsKept(log: seq<LogEntry>, e: LogEntry)
    requires OneIdentity(log + [e])
    ensures OlderUsage(log + [e]).Plus(Hidden(log, e)) == OlderUsage(log).Plus(OlderDelta(log, e))
  {
    HiddenSplits(log, e);
    OlderAppended(log, e, CountedAt(log), CountedAt(log + [e]), HiddenAt(log, e), OlderDelta(log, e));
  }

  lemma HiddenSplits(log: seq<LogEntry>, e: LogEntry)
    requires OneIdentity(log + [e])
    ensures Parts(CountedAt(log), CountedAt(log + [e]), HiddenAt(log, e), |log|)
    ensures |log| in CountedAt(log + [e]) <==> e.PassUsage? && !CoveredByFold(log + [e], e)
  {
    var longer := log + [e];
    assert longer[|log|] == e;
    forall k: nat | k < |log|
      ensures k in HiddenAt(log, e) <==> k in CountedAt(log) && k !in CountedAt(longer)
      ensures k in CountedAt(longer) ==> k in CountedAt(log)
    {
      assert longer[k] == log[k];
      if log[k].PassUsage? { HiddenByFold(log, e, k); }
    }
  }

  lemma OlderAppended(log: seq<LogEntry>, e: LogEntry, was: set<nat>, now: set<nat>, gone: set<nat>, own: Counts)
    requires Parts(was, now, gone, |log|)
    requires own == if |log| in now then OlderCounts(e) else Nothing()
    ensures CountsAt(log + [e], now, |log| + 1).Plus(CountsAt(log, gone, |log|)) == CountsAt(log, was, |log|).Plus(own)
  {
    CountsSplit(log, was, now, gone, |log|);
    CountsOfPrefix(log, e, now, |log|);
  }

  lemma RequestsKept(log: seq<LogEntry>, e: LogEntry)
    requires CountlessStarts(log)
    ensures Adds(RequestSum(log), RequestSum(log + [e]), RequestDelta(log, e))
  {
    assert (log + [e])[..|log|] == log;
    var records, after := Fold(log), Fold(log + [e]);
    if e.Request? && !(e.record.requestId in records && records[e.record.requestId].Terminal()) {
      var id := e.record.requestId;
      assert after == records[id := e.record];
      SumOverPick(after, after.Keys, id);
      assert after.Keys - {id} == records.Keys - {id};
      SumOverSame(records, after, records.Keys - {id});
      if id in records {
        SumOverPick(records, records.Keys, id);
        StartedIsFree(log, id);
      } else {
        assert records.Keys - {id} == records.Keys;
      }
    }
  }

  lemma StartedIsFree(log: seq<LogEntry>, id: string)
    requires CountlessStarts(log) && id in Fold(log) && Fold(log)[id].status.Started?
    ensures Tokenless(Fold(log)[id].Known())
  {
    FoldHas(log, id);
  }

  function Tokens(c: Counts): nat { c.input + c.output }

  /** Every token counter has grown or stayed. */
  predicate Grown(was: Counts, now: Counts) { was.input <= now.input && was.cached <= now.cached && was.output <= now.output }

  /** And no more of the growth is cached input than is input. */
  predicate HonestlyGrown(was: Counts, now: Counts) { Grown(was, now) && now.cached - was.cached <= now.input - was.input }

  /** Conservation, counter by counter: what the log adds up to afterwards, and what the entry hides, is
      what it added up to before and what the entry adds. */
  lemma UsageConserved(log: seq<LogEntry>, e: LogEntry)
    requires CountlessStarts(log) && OneIdentity(log + [e])
    ensures Adds(TrueUsage(log), TrueUsage(log + [e]).Plus(Hidden(log, e)), RequestDelta(log, e).Plus(OlderDelta(log, e)))
  {
    RequestsKept(log, e);
    OlderRecordsKept(log, e);
    TrueUsageInParts(log);
    TrueUsageInParts(log + [e]);
    SumsAdd(RequestSum(log), RequestSum(log + [e]), RequestDelta(log, e),
            OlderUsage(log), OlderUsage(log + [e]), Hidden(log, e), OlderDelta(log, e));
  }

  lemma SumsAdd(a: Counts, a': Counts, d: Counts, b: Counts, b': Counts, h: Counts, f: Counts)
    requires Adds(a, a', d) && b'.Plus(h) == b.Plus(f)
    ensures Adds(a.Plus(b), a'.Plus(b').Plus(h), d.Plus(f))
  {
  }

  /** Only requests hide, and only older records are not requests. */
  lemma OneKindOfDelta(log: seq<LogEntry>, e: LogEntry)
    ensures e.Request? ==> Tokenless(OlderDelta(log, e))
    ensures !e.Request? ==> Tokenless(Hidden(log, e))
  {
    if !e.Request? { NothingAt(log, HiddenAt(log, e), |log|); }
  }

  lemma {:induction false} NothingAt(log: seq<LogEntry>, at: set<nat>, n: nat)
    requires n <= |log| && forall k :: k in at ==> k >= n
    ensures Tokenless(CountsAt(log, at, n))
  {
    if n > 0 { NothingAt(log, at, n - 1); }
  }

  /** One more entry keeps every token counter from shrinking exactly when the older records it hides
      are no larger than what it brings itself. */
  lemma UsageGrowsExactly(log: seq<LogEntry>, e: LogEntry)
    requires CountlessStarts(log) && OneIdentity(log + [e])
    ensures Grown(TrueUsage(log), TrueUsage(log + [e])) <==> Grown(Hidden(log, e), RequestDelta(log, e))
  {
    UsageConserved(log, e);
    OneKindOfDelta(log, e);
  }

  /** A look at the log before the start tells. */
  predicate HidesNoTokens(log: seq<LogEntry>, r: RequestUsage) {
    forall k :: 0 <= k < |log| && Hides(log, Request(r), k) ==> Tokenless(log[k].usage.counts)
  }

  /** For a start that says: exactly when every older record it hides carries no tokens, which whoever
      logs it can look up before. */
  lemma StartGrowsExactly(log: seq<LogEntry>, r: RequestUsage)
    requires CountlessStarts(log) && OneIdentity(log + [Request(r)]) && r.status.Started? && r.usage.None?
    ensures Grown(TrueUsage(log), TrueUsage(log + [Request(r)]))
            <==> HidesNoTokens(log, r)
  {
    UsageGrowsExactly(log, Request(r));
    StartBringsNoTokens(log, r);
    TokenlessAt(log, HiddenAt(log, Request(r)), |log|);
    HiddenTokenless(log, Request(r));
  }

  lemma StartBringsNoTokens(log: seq<LogEntry>, r: RequestUsage)
    requires r.status.Started? && r.usage.None?
    ensures Tokenless(RequestDelta(log, Request(r)))
  {
  }

  lemma HiddenTokenless(log: seq<LogEntry>, e: LogEntry)
    ensures (forall k: nat :: k < |log| && k in HiddenAt(log, e) ==> Tokenless(OlderCounts(log[k])))
            <==> forall k :: 0 <= k < |log| && Hides(log, e, k) ==> Tokenless(log[k].usage.counts)
  {
    forall k | 0 <= k < |log| ensures k in HiddenAt(log, e) <==> Hides(log, e, k) {}
  }

  lemma {:induction false} TokenlessAt(log: seq<LogEntry>, at: set<nat>, n: nat)
    requires n <= |log|
    ensures Tokenless(CountsAt(log, at, n)) <==> forall k: nat :: k < n && k in at ==> Tokenless(OlderCounts(log[k]))
  {
    if n > 0 { TokenlessAt(log, at, n - 1); }
  }

  /** A request logged before covers what it covers under its ID for good, so repeating it hides nothing. */
  lemma RepeatHidesNothing(log: seq<LogEntry>, r: RequestUsage, i: nat)
    requires i < |log| && log[i].Request?
    requires log[i].record.jobId == r.jobId && log[i].record.namespace == r.namespace
    ensures Tokenless(Hidden(log, Request(r)))
  {
    forall k | 0 <= k < |log| ensures !Hides(log, Request(r), k) {
      if log[k].PassUsage? { assert Covers(r, log[k]) ==> Covers(log[i].record, log[k]); }
    }
    NothingAt(log, HiddenAt(log, Request(r)), |log|);
  }

  // ---------------------------------------------------------------- repeated request IDs

  /** A request under that ID has ended. */
  predicate Ended(log: seq<LogEntry>, id: string) { exists k :: 0 <= k < |log| && EndsAt(log, id, k) }

  lemma EndedByFold(log: seq<LogEntry>, id: string)
    ensures Ended(log, id) <==> id in Fold(log) && Fold(log)[id].Terminal()
  {
    FoldIsLedger(log);
    if k: nat :| k < |log| && EndsAt(log, id, k) {
      EndMeansTerminal(log, id, k);
      var r: RequestUsage :| IsEntry(log, id, r) && r.Terminal();
    }
    if id in Fold(log) && Fold(log)[id].Terminal() { TerminalEntryEnded(log, id, Fold(log)[id]); }
  }

  lemma TerminalEntryEnded(log: seq<LogEntry>, id: string, r: RequestUsage)
    requires IsEntry(log, id, r) && r.Terminal()
    ensures Ended(log, id)
  {
    if !Ended(log, id) {
      var k: nat :| LastMention(log, id, k) && log[k].record == r;
      assert EndsAt(log, id, k);
    }
  }

  lemma DeltaIsKnown(log: seq<LogEntry>, e: LogEntry)
    requires e.Request?
    ensures !Ended(log, e.record.requestId) ==> RequestDelta(log, e) == e.record.Known()
    ensures Ended(log, e.record.requestId) ==> Tokenless(RequestDelta(log, e))
  {
    EndedByFold(log, e.record.requestId);
  }

  lemma AddsWhich(was: Counts, now: Counts, delta: Counts, older: Counts, own: Counts, ended: bool)
    requires Adds(was, now, delta.Plus(older)) && Tokenless(older)
    requires if ended then Tokenless(delta) else delta == own
    ensures Adds(was, now, own) <==> !ended || Tokenless(own)
  {
  }

  /** A request is counted for what it reports exactly when no request under its ID has ended before, or
      it reports no tokens. */
  lemma CountedExactly(log: seq<LogEntry>, e: LogEntry)
    requires CountlessStarts(log) && OneIdentity(log + [e]) && e.Request?
    ensures Adds(TrueUsage(log), TrueUsage(log + [e]).Plus(Hidden(log, e)), e.record.Known())
            <==> !Ended(log, e.record.requestId) || Tokenless(e.record.Known())
  {
    UsageConserved(log, e);
    DeltaIsKnown(log, e);
    assert Tokenless(OlderDelta(log, e)) by { OneKindOfDelta(log, e); }
    AddsWhich(TrueUsage(log), TrueUsage(log + [e]).Plus(Hidden(log, e)), RequestDelta(log, e), OlderDelta(log, e),
              e.record.Known(), Ended(log, e.record.requestId));
  }

  predicate Ends(e: LogEntry) { e.Request? && e.record.Terminal() }

  /** What all ended requests reported, each record as often as it is logged. */
  function Reported(log: seq<LogEntry>): Counts {
    if |log| == 0 then Nothing()
    else
      var init, e := log[..|log| - 1], log[|log| - 1];
      if Ends(e) then Reported(init).Plus(e.record.Known()) else Reported(init)
  }

  /** The entry ends a request under an ID that had ended before. */
  predicate Repeats(log: seq<LogEntry>, e: LogEntry) { Ends(e) && Ended(log, e.record.requestId) }

  /** What was reported under IDs that had ended before. */
  function Repeated(log: seq<LogEntry>): Counts {
    if |log| == 0 then Nothing()
    else
      var init, e := log[..|log| - 1], log[|log| - 1];
      if Repeats(init, e) then Repeated(init).Plus(e.record.Known()) else Repeated(init)
  }

  lemma ReportedLast(log: seq<LogEntry>, e: LogEntry)
    ensures Reported(log + [e]) == if Ends(e) then Reported(log).Plus(e.record.Known()) else Reported(log)
    ensures Repeated(log + [e]) == if Repeats(log, e) then Repeated(log).Plus(e.record.Known()) else Repeated(log)
  {
    assert (log + [e])[..|log|] == log && (log + [e])[|log|] == e;
  }

  /** One more entry: what it reports goes to the sum of the ledger, or to what was repeated. */
  lemma ReportGoesSomewhere(log: seq<LogEntry>, e: LogEntry)
    requires CountlessStarts(log + [e])
    ensures Ends(e) && !Repeats(log, e) ==> RequestDelta(log, e) == e.record.Known()
    ensures !Ends(e) || Repeats(log, e) ==> Tokenless(RequestDelta(log, e))
  {
    assert (log + [e])[|log|] == e;
    if e.Request? { DeltaIsKnown(log, e); }
  }

  lemma AddsUp(was: Counts, now: Counts, delta: Counts, reported: Counts, repeated: Counts, own: Counts)
    requires Adds(was, now, delta) && Adds(was, reported, repeated)
    ensures Tokenless(delta) ==> Adds(now, reported, repeated)
    ensures Tokenless(delta) ==> Adds(now, reported.Plus(own), repeated.Plus(own))
    ensures delta == own ==> Adds(now, reported.Plus(own), repeated)
  {
  }

  lemma NothingReported(log: seq<LogEntry>)
    requires |log| == 0
    ensures Adds(RequestSum(log), Reported(log), Repeated(log))
  {
    EmptyRequestSum(log);
  }

  lemma CountlessPrefix(log: seq<LogEntry>, e: LogEntry)
    requires CountlessStarts(log + [e])
    ensures CountlessStarts(log)
  {
    assert forall k :: 0 <= k < |log| ==> (log + [e])[k] == log[k];
  }

  /** Conservation over a whole log: everything ended requests reported is in the sum of the ledger, or was
      reported under an ID that had ended before. */
  lemma {:induction false} ReportedIsConserved(log: seq<LogEntry>)
    requires CountlessStarts(log)
    ensures Adds(RequestSum(log), Reported(log), Repeated(log))
  {
    if |log| == 0 {
      NothingReported(log);
    } else {
      var init, e := log[..|log| - 1], log[|log| - 1];
      assert log == init + [e];
      CountlessPrefix(init, e);
      ReportedIsConserved(init);
      ReportedOnce(init, e);
    }
  }

  lemma ReportedOnce(log: seq<LogEntry>, e: LogEntry)
    requires CountlessStarts(log + [e]) && Adds(RequestSum(log), Reported(log), Repeated(log))
    ensures Adds(RequestSum(log + [e]), Reported(log + [e]), Repeated(log + [e]))
  {
    CountlessPrefix(log, e);
    RequestsKept(log, e);
    ReportGoesSomewhere(log, e);
    ReportedLast(log, e);
    if Ends(e) {
      AddsUp(RequestSum(log), RequestSum(log + [e]), RequestDelta(log, e), Reported(log), Repeated(log), e.record.Known());
    }
  }

  /** No ended request that reported tokens repeats an ID that had ended. */
  predicate NoneRepeats(log: seq<LogEntry>) {
    forall k :: 0 <= k < |log| && Repeats(log[..k], log[k]) ==> Tokenless(log[k].record.Known())
  }

  lemma NoneRepeatsLast(log: seq<LogEntry>, e: LogEntry)
    ensures NoneRepeats(log + [e]) <==> NoneRepeats(log) && (Repeats(log, e) ==> Tokenless(e.record.Known()))
  {
    var longer := log + [e];
    forall k | 0 <= k < |log| ensures longer[..k] == log[..k] && longer[k] == log[k] {}
    assert longer[..|log|] == log && longer[|log|] == e;
    if NoneRepeats(longer) {
      forall k | 0 <= k < |log| && Repeats(log[..k], log[k]) ensures Tokenless(log[k].record.Known()) {
        assert Repeats(longer[..k], longer[k]);
      }
      assert Repeats(longer[..|log|], longer[|log|]) ==> Tokenless(longer[|log|].record.Known());
    }
  }

  lemma {:induction false} RepeatedTokens(log: seq<LogEntry>)
    ensures Tokenless(Repeated(log)) <==> NoneRepeats(log)
  {
    if |log| != 0 {
      var init, e := log[..|log| - 1], log[|log| - 1];
      assert log == init + [e];
      RepeatedTokens(init);
      RepeatedTokensNext(init, e);
    }
  }

  lemma RepeatedTokensNext(log: seq<LogEntry>, e: LogEntry)
    requires Tokenless(Repeated(log)) <==> NoneRepeats(log)
    ensures Tokenless(Repeated(log + [e])) <==> NoneRepeats(log + [e])
  {
    NoneRepeatsLast(log, e);
    ReportedLast(log, e);
    if Repeats(log, e) { PlusTokenless(Repeated(log), e.record.Known()); }
  }

  lemma PlusTokenless(a: Counts, b: Counts)
    ensures Tokenless(a.Plus(b)) <==> Tokenless(a) && Tokenless(b)
  {
  }

  predicate SameTokens(a: Counts, b: Counts) { a.input == b.input && a.cached == b.cached && a.output == b.output }

  /** The totals hold everything that ended requests reported, beside the older records, exactly when no
      ended request that reported tokens repeats an ID that had ended. */
  lemma AllIsCountedExactly(log: seq<LogEntry>)
    requires CountlessStarts(log)
    ensures SameTokens(TrueUsage(log), Reported(log).Plus(OlderUsage(log))) <==> NoneRepeats(log)
  {
    TrueUsageInParts(log);
    ReportedIsConserved(log);
    RepeatedTokens(log);
    SameOrMore(RequestSum(log), Reported(log), Repeated(log), OlderUsage(log));
  }

  lemma SameOrMore(sum: Counts, reported: Counts, repeated: Counts, older: Counts)
    requires Adds(sum, reported, repeated)
    ensures SameTokens(sum.Plus(older), reported.Plus(older)) <==> Tokenless(repeated)
  {
  }

  /** In particular a request that repeats the ID of one that ended changes no total, whatever it spent. */
  lemma RepeatedRequestIsFree(log: seq<LogEntry>, r: RequestUsage)
    requires CountlessStarts(log) && OneIdentity(log + [Request(r)])
    requires Ended(log, r.requestId)
    ensures Adds(TrueUsage(log), TrueUsage(log + [Request(r)]), Nothing())
  {
    EndedByFold(log, r.requestId);
    FoldHas(log, r.requestId);
    var i :| 0 <= i < |log| && log[i].Request? && log[i].record == Fold(log)[r.requestId];
    SameIdentity(log, r, i);
    RepeatHidesNothing(log, r, i);
    ConservedAlone(log, Request(r));
  }

  lemma ConservedAlone(log: seq<LogEntry>, e: LogEntry)
    requires CountlessStarts(log) && OneIdentity(log + [e]) && e.Request?
    requires Tokenless(Hidden(log, e)) && Tokenless(RequestDelta(log, e))
    ensures Adds(TrueUsage(log), TrueUsage(log + [e]), Nothing())
  {
    UsageConserved(log, e);
    OneKindOfDelta(log, e);
  }

  lemma SameIdentity(log: seq<LogEntry>, r: RequestUsage, i: nat)
    requires OneIdentity(log + [Request(r)]) && i < |log| && log[i].Request? && log[i].record.requestId == r.requestId
    ensures log[i].record.jobId == r.jobId && log[i].record.namespace == r.namespace
  {
    assert (log + [Request(r)])[i] == log[i] && (log + [Request(r)])[|log|] == Request(r);
  }

  /** In an orderly log no entry hides anything. */
  lemma OrderlyHidesNothing(log: seq<LogEntry>, e: LogEntry)
    requires Orderly(log + [e])
    ensures Tokenless(Hidden(log, e))
  {
    var longer := log + [e];
    assert longer[|log|] == e && forall k :: 0 <= k < |log| ==> longer[k] == log[k];
    forall k | 0 <= k < |log| ensures !Hides(log, e, k) {
      if log[k].PassUsage? && e.Request? && Covers(e.record, log[k]) { CoveredLater(log, e, k); }
    }
    NothingAt(log, HiddenAt(log, e), |log|);
  }

  lemma CoveredLater(log: seq<LogEntry>, e: LogEntry, k: nat)
    requires k < |log| && log[k].PassUsage? && CoveredBefore(log + [e], k)
    ensures CoveredIn(log, log[k])
  {
    var longer := log + [e];
    var i :| 0 <= i < k && longer[i].Request? && Covers(longer[i].record, longer[k]);
    assert longer[i] == log[i] && longer[k] == log[k];
  }

  /** An entry that hides no tokens takes none away, and of what it brings no more is cached than is input. */
  lemma UsageGrowsOnce(log: seq<LogEntry>, e: LogEntry)
    requires CountlessStarts(log) && OneIdentity(log + [e]) && Tokenless(Hidden(log, e))
    ensures Grown(TrueUsage(log), TrueUsage(log + [e]))
    ensures HonestCaching(log + [e]) ==> HonestlyGrown(TrueUsage(log), TrueUsage(log + [e]))
  {
    UsageGrowsExactly(log, e);
    if HonestCaching(log + [e]) {
      HonestDeltas(log, e);
      UsageConserved(log, e);
    }
  }

  lemma HonestDeltas(log: seq<LogEntry>, e: LogEntry)
    requires HonestCaching(log + [e])
    ensures CachedWithin(RequestDelta(log, e)) && CachedWithin(OlderDelta(log, e))
  {
    assert (log + [e])[|log|] == e;
  }

  /** Every entry brings at least what it hides. */
  predicate Steady(log: seq<LogEntry>) {
    forall k :: 0 <= k < |log| ==> Grown(Hidden(log[..k], log[k]), RequestDelta(log[..k], log[k]))
  }

  /** Along the whole log, later totals are never below earlier ones. */
  ghost predicate NeverShrinks(log: seq<LogEntry>) {
    forall n, m :: 0 <= n <= m <= |log| ==> Grown(TrueUsage(log[..n]), TrueUsage(log[..m]))
  }

  /** What a log adds up to never shrinks while it is written exactly when every entry brings at least
      what it hides. */
  lemma NeverShrinksExactly(log: seq<LogEntry>)
    requires CountlessStarts(log) && OneIdentity(log)
    ensures NeverShrinks(log) <==> Steady(log)
  {
    forall k | 0 <= k < |log|
      ensures Grown(TrueUsage(log[..k]), TrueUsage(log[..k + 1])) <==> Grown(Hidden(log[..k], log[k]), RequestDelta(log[..k], log[k]))
    {
      assert log[..k + 1] == log[..k] + [log[k]];
      UsageGrowsExactly(log[..k], log[k]);
    }
    if NeverShrinks(log) {
      forall k | 0 <= k < |log| ensures Grown(Hidden(log[..k], log[k]), RequestDelta(log[..k], log[k])) {
        assert Grown(TrueUsage(log[..k]), TrueUsage(log[..k + 1]));
      }
    }
    if Steady(log) {
      forall n, m | 0 <= n <= m <= |log| ensures Grown(TrueUsage(log[..n]), TrueUsage(log[..m])) {
        GrownAlong(log, n, m);
      }
    }
  }

  lemma {:induction false} GrownAlong(log: seq<LogEntry>, n: nat, m: nat)
    requires n <= m <= |log|
    requires forall k :: 0 <= k < |log| ==> Grown(TrueUsage(log[..k]), TrueUsage(log[..k + 1]))
    ensures Grown(TrueUsage(log[..n]), TrueUsage(log[..m]))
    decreases m - n
  {
    if n < m {
      GrownAlong(log, n, m - 1);
      assert Grown(TrueUsage(log[..m - 1]), TrueUsage(log[..m - 1 + 1]));
    }
  }

  /** From that position on no entry hides any tokens. */
  predicate LosslessFrom(log: seq<LogEntry>, n: nat)
    requires n <= |log|
  {
    forall k :: n <= k < |log| ==> Tokenless(Hidden(log[..k], log[k]))
  }

  lemma LosslessLast(log: seq<LogEntry>, e: LogEntry, n: nat)
    requires n <= |log|
    ensures LosslessFrom(log + [e], n) <==> LosslessFrom(log, n) && Tokenless(Hidden(log, e))
  {
    var longer := log + [e];
    assert longer[..|log|] == log && longer[|log|] == e;
    forall k | n <= k < |log| ensures longer[..k] == log[..k] && longer[k] == log[k] {}
    if LosslessFrom(longer, n) {
      forall k | n <= k < |log| ensures Tokenless(Hidden(log[..k], log[k])) {
        assert Tokenless(Hidden(longer[..k], longer[k]));
      }
      assert Tokenless(Hidden(longer[..|log|], longer[|log|]));
    }
  }

  /** The order the harness keeps is more than is needed. */
  lemma {:induction false} OrderlyIsLossless(log: seq<LogEntry>)
    requires Orderly(log)
    ensures LosslessFrom(log, 0)
  {
    if log != [] {
      var init, e := log[..|log| - 1], log[|log| - 1];
      assert log == init + [e];
      OrderlyPrefix(init, [e]);
      OrderlyIsLossless(init);
      OrderlyHidesNothing(init, e);
      LosslessLast(init, e, 0);
    }
  }

  lemma WellLoggedPrefix(log: seq<LogEntry>, e: LogEntry)
    requires CountlessStarts(log + [e]) && OneIdentity(log + [e])
    ensures CountlessStarts(log) && OneIdentity(log)
  {
    assert forall k :: 0 <= k < |log| ==> (log + [e])[k] == log[k];
  }

  /** As long as nothing with tokens is hidden, what a log adds up to never shrinks, whatever happened
      before and whichever IDs are repeated. */
  lemma {:induction false} UsageGrows(log: seq<LogEntry>, more: seq<LogEntry>)
    requires CountlessStarts(log + more) && OneIdentity(log + more) && LosslessFrom(log + more, |log|)
    ensures Grown(TrueUsage(log), TrueUsage(log + more))
    ensures HonestCaching(log + more) ==> HonestlyGrown(TrueUsage(log), TrueUsage(log + more))
    decreases |more|
  {
    if more == [] {
      assert log + more == log;
    } else {
      var init, e := more[..|more| - 1], more[|more| - 1];
      assert log + more == (log + init) + [e];
      WellLoggedPrefix(log + init, e);
      LosslessLast(log + init, e, |log|);
      UsageGrows(log, init);
      UsageGrowsOnce(log + init, e);
      if HonestCaching(log + more) { HonestPrefix(log + init, e); }
    }
  }

  lemma HonestPrefix(log: seq<LogEntry>, e: LogEntry)
    requires HonestCaching(log + [e])
    ensures HonestCaching(log)
  {
    forall k | 0 <= k < |log|
      ensures (log[k].Request? ==> CachedWithin(log[k].record.Known())) && (log[k].PassUsage? ==> CachedWithin(log[k].usage.counts))
    {
      assert (log + [e])[k] == log[k];
    }
  }

  // ---------------------------------------------------------------- the latch

  datatype SpendBudget = SpendBudget(maxTokens: nat, maxCost: real) {
    predicate IsSet() { maxTokens > 0 || maxCost > 0.0 }
  }

  function ExceededBy(budget: SpendBudget, t: UsageTotals): (spent: bool) {
    || (budget.maxTokens > 0 && t.totalTokens >= budget.maxTokens)
    || (budget.maxCost > 0.0 && t.cost.Some? && t.cost.value >= budget.maxCost)
  }

  /** The token ceiling has been reached by that usage. */
  predicate TokensSpentBy(budget: SpendBudget, used: Counts) {
    budget.maxTokens > 0 && TotalTokens(used) >= budget.maxTokens
  }

  /** The cost ceiling has. */
  predicate CostSpentBy(budget: SpendBudget, pricing: Option<Pricing>, used: Counts) {
    budget.maxCost > 0.0 && pricing.Some? && pricing.value.Cost(used) >= budget.maxCost
  }

  predicate SpentBy(budget: SpendBudget, pricing: Option<Pricing>, used: Counts) {
    TokensSpentBy(budget, used) || CostSpentBy(budget, pricing, used)
  }

  ghost predicate Spent(budget: SpendBudget, pricing: Option<Pricing>, log: seq<LogEntry>) {
    SpentBy(budget, pricing, TrueUsage(log))
  }

  /** Where costs can be relied on: nobody reports more cached than input tokens, and nothing saturated. */
  ghost predicate CostsExact(log: seq<LogEntry>) { HonestCaching(log) && Below(TrueUsage(log)) }

  predicate SanePricing(pricing: Option<Pricing>) {
    pricing.Some? ==>
      pricing.value.inputRate >= 0.0 && pricing.value.outputRate >= 0.0
      && (pricing.value.cachedRate.Some? ==> pricing.value.cachedRate.value >= 0.0)
  }

  /** What the ceiling check answers for a log. */
  method BudgetSpent(budget: SpendBudget, pricing: Option<Pricing>, log: seq<LogEntry>) returns (spent: bool)
    ensures TokensSpentBy(budget, TrueUsage(log)) ==> spent
    ensures budget.maxCost <= 0.0 || pricing.None? || CostsExact(log) ==> (spent <==> Spent(budget, pricing, log))
  {
    if !budget.IsSet() { return false; }
    ghost var used;
    var totals;
    totals, used := FromEvents(log, pricing);
    spent := ExceededBy(budget, totals);
    CeilingsDecide(budget, pricing, totals, used);
  }

  lemma CeilingsDecide(budget: SpendBudget, pricing: Option<Pricing>, t: UsageTotals, used: Counts)
    requires t.totalTokens == TotalTokens(used) && (t.cost.None? <==> pricing.None?)
    ensures TokensSpentBy(budget, used) ==> ExceededBy(budget, t)
    ensures budget.maxCost <= 0.0 || pricing.None? || t.cost == Some(pricing.value.Cost(used)) ==>
              (ExceededBy(budget, t) <==> SpentBy(budget, pricing, used))
  {
  }

  function Product(n: nat, rate: real): real { n as real * rate }

  lemma ProductGrows(a: nat, b: nat, rate: real)
    requires a <= b && rate >= 0.0
    ensures Product(a, rate) <= Product(b, rate)
  {
    assert (b - a) as real * rate >= 0.0;
    assert b as real * rate == a as real * rate + (b - a) as real * rate;
  }

  function CachedRate(p: Pricing): real { if p.cachedRate.Some? then p.cachedRate.value else p.inputRate }

  lemma CostInParts(p: Pricing, c: Counts)
    requires CachedWithin(c)
    ensures p.Cost(c) == (Product(c.input - c.cached, p.inputRate) + Product(c.cached, CachedRate(p))
                          + Product(c.output, p.outputRate)) / 1000000.0
  {
  }

  lemma PartsGrow(a: real, b: real, c: real, a': real, b': real, c': real)
    requires a <= a' && b <= b' && c <= c'
    ensures (a + b + c) / 1000000.0 <= (a' + b' + c') / 1000000.0
  {
  }

  lemma CostGrows(pricing: Pricing, was: Counts, now: Counts)
    requires HonestlyGrown(was, now) && CachedWithin(was) && SanePricing(Some(pricing))
    ensures pricing.Cost(was) <= pricing.Cost(now)
  {
    ProductGrows(was.input - was.cached, now.input - now.cached, pricing.inputRate);
    ProductGrows(was.cached, now.cached, CachedRate(pricing));
    ProductGrows(was.output, now.output, pricing.outputRate);
    CostInParts(pricing, was);
    CostInParts(pricing, now);
    PartsGrow(Product(was.input - was.cached, pricing.inputRate), Product(was.cached, CachedRate(pricing)),
              Product(was.output, pricing.outputRate),
              Product(now.input - now.cached, pricing.inputRate), Product(now.cached, CachedRate(pricing)),
              Product(now.output, pricing.outputRate));
  }

  lemma MoreIsSpent(budget: SpendBudget, pricing: Option<Pricing>, was: Counts, now: Counts)
    requires Grown(was, now)
    ensures TokensSpentBy(budget, was) ==> TokensSpentBy(budget, now)
    ensures HonestlyGrown(was, now) && CachedWithin(was) && SanePricing(pricing) && CostSpentBy(budget, pricing, was) ==>
              CostSpentBy(budget, pricing, now)
  {
    if HonestlyGrown(was, now) && CachedWithin(was) && SanePricing(pricing) && pricing.Some? { CostGrows(pricing.value, was, now); }
  }

  lemma NoRequestSum(records: map<string, RequestUsage>, ids: set<string>)
    requires ids == {} && ids <= records.Keys
    ensures Tokenless(SumOver(records, ids))
  {
  }

  lemma EmptyRequestSum(log: seq<LogEntry>)
    requires |log| == 0
    ensures Tokenless(RequestSum(log))
  {
    NoRequestSum(Fold(log), Fold(log).Keys);
  }

  lemma TokenlessParts(log: seq<LogEntry>)
    requires Tokenless(RequestSum(log)) && Tokenless(OlderUsage(log))
    ensures Tokenless(TrueUsage(log))
  {
    TrueUsageInParts(log);
  }

  lemma EmptyUsage(log: seq<LogEntry>)
    requires |log| == 0
    ensures Tokenless(TrueUsage(log))
  {
    EmptyRequestSum(log);
    NothingAt(log, CountedAt(log), |log|);
    TokenlessParts(log);
  }

  lemma {:induction false} HonestSum(records: map<string, RequestUsage>, ids: set<string>)
    requires ids <= records.Keys && forall id :: id in ids ==> CachedWithin(records[id].Known())
    ensures CachedWithin(SumOver(records, ids))
  {
    if |ids| != 0 { HonestSum(records, ids - {Pick(ids)}); }
  }

  lemma {:induction false} HonestAt(log: seq<LogEntry>, at: set<nat>, n: nat)
    requires n <= |log| && HonestCaching(log)
    ensures CachedWithin(CountsAt(log, at, n))
  {
    if n > 0 { HonestAt(log, at, n - 1); }
  }

  /** Honest records add up to an honest total. */
  lemma HonestUsage(log: seq<LogEntry>)
    requires HonestCaching(log)
    ensures CachedWithin(TrueUsage(log))
  {
    forall id | id in Fold(log) ensures CachedWithin(Fold(log)[id].Known()) {
      FoldHas(log, id);
      var i :| 0 <= i < |log| && log[i].Request? && log[i].record == Fold(log)[id];
    }
    HonestSum(Fold(log), Fold(log).Keys);
    HonestAt(log, CountedAt(log), |log|);
    TrueUsageInParts(log);
  }

  /** Reached once, reached for good while nothing with tokens is hidden: the token ceiling always, the cost
      ceiling while costs are exact and no rate is negative. */
  lemma SpentIsALatch(budget: SpendBudget, pricing: Option<Pricing>, log: seq<LogEntry>, more: seq<LogEntry>)
    requires CountlessStarts(log + more) && OneIdentity(log + more) && LosslessFrom(log + more, |log|)
    ensures TokensSpentBy(budget, TrueUsage(log)) ==> TokensSpentBy(budget, TrueUsage(log + more))
    ensures HonestCaching(log) && HonestCaching(log + more) && SanePricing(pricing) && Spent(budget, pricing, log) ==>
              Spent(budget, pricing, log + more)
  {
    UsageGrows(log, more);
    if HonestCaching(log) { HonestUsage(log); }
    MoreIsSpent(budget, pricing, TrueUsage(log), TrueUsage(log + more));
  }

  /** For the token ceiling it is enough that every entry brings at least what it hides. */
  lemma SteadyLatch(budget: SpendBudget, log: seq<LogEntry>, more: seq<LogEntry>)
    requires CountlessStarts(log + more) && OneIdentity(log + more) && Steady(log + more)
    ensures TokensSpentBy(budget, TrueUsage(log)) ==> TokensSpentBy(budget, TrueUsage(log + more))
  {
    NeverShrinksExactly(log + more);
    assert (log + more)[..|log|] == log && (log + more)[..|log + more|] == log + more;
  }

  function Older(): LogEntry { PassUsage(None, Some(1), ModelUsage("m", Counts(100, 0, 0, 1, 0))) }

  function Late(): RequestUsage { RequestUsage("1:1", 1, "m", None, 0, Started, None) }

  lemma StartHides(log: seq<LogEntry>, r: RequestUsage)
    requires CountlessStarts(log) && OneIdentity(log + [Request(r)]) && r.status.Started? && r.usage.None?
    ensures Tokens(TrueUsage(log + [Request(r)])) + Tokens(Hidden(log, Request(r))) == Tokens(TrueUsage(log))
  {
    UsageConserved(log, Request(r));
    OneKindOfDelta(log, Request(r));
    StartBringsNoTokens(log, r);
    TokensConserved(TrueUsage(log), TrueUsage(log + [Request(r)]), Hidden(log, Request(r)),
                    RequestDelta(log, Request(r)), OlderDelta(log, Request(r)));
  }

  lemma TokensConserved(was: Counts, now: Counts, hidden: Counts, request: Counts, older: Counts)
    requires Adds(was, now.Plus(hidden), request.Plus(older)) && Tokenless(request)
    ensures Tokens(now) + Tokens(hidden) == Tokens(was) + Tokens(older)
  {
  }

  lemma HiddenAlone(e: LogEntry, r: RequestUsage)
    requires e.PassUsage? && Covers(r, e)
    ensures Tokens(Hidden([e], Request(r))) == Tokens(e.usage.counts)
  {
    assert Hides([e], Request(r), 0);
    assert Tokenless(CountsAt([e], HiddenAt([e], Request(r)), 0));
  }

  /** The order matters. A review of Snapshot 1 was logged as one older-style record and never completed;
      the Snapshot is reviewed again, and the first request of that run, in the namespace of the Snapshot,
      hides the record: the total falls by its 100 tokens. */
  lemma LateRequestShrinks()
    ensures Tokens(TrueUsage([Older()] + [Request(Late())])) + 100 == Tokens(TrueUsage([Older()]))
  {
    HiddenAlone(Older(), Late());
    StartHides([Older()], Late());
  }

  lemma TokensAdded(was: Counts, now: Counts, hidden: Counts, request: Counts, older: Counts)
    requires Adds(was, now.Plus(hidden), request.Plus(older)) && Tokenless(hidden)
    ensures Tokens(now) == Tokens(was) + Tokens(request) + Tokens(older)
  {
  }

  lemma NothingHidden(log: seq<LogEntry>, e: LogEntry)
    requires CountlessStarts(log) && OneIdentity(log + [e]) && Tokenless(Hidden(log, e))
    ensures Tokens(TrueUsage(log + [e])) == Tokens(TrueUsage(log)) + Tokens(RequestDelta(log, e)) + Tokens(OlderDelta(log, e))
  {
    UsageConserved(log, e);
    TokensAdded(TrueUsage(log), TrueUsage(log + [e]), Hidden(log, e), RequestDelta(log, e), OlderDelta(log, e));
  }

  lemma BroughtInFull(log: seq<LogEntry>, e: LogEntry, was: nat, own: nat)
    requires CountlessStarts(log) && OneIdentity(log + [e]) && Tokenless(Hidden(log, e))
    requires Tokens(TrueUsage(log)) == was && Tokens(RequestDelta(log, e)) + Tokens(OlderDelta(log, e)) == own
    ensures Tokens(TrueUsage(log + [e])) == was + own
  {
    NothingHidden(log, e);
  }

  /** An older record that no request covers is counted in full. */
  lemma UncoveredIsCounted(log: seq<LogEntry>, e: LogEntry)
    requires CountlessStarts(log) && OneIdentity(log + [e]) && e.PassUsage? && !CoveredIn(log, e)
    ensures Tokens(TrueUsage(log + [e])) == Tokens(TrueUsage(log)) + Tokens(e.usage.counts)
  {
    assert Tokenless(Hidden(log, e)) by { OneKindOfDelta(log, e); }
    assert Tokens(RequestDelta(log, e)) + Tokens(OlderDelta(log, e)) == Tokens(e.usage.counts) by { NothingCovers(log, e); }
    BroughtInFull(log, e, Tokens(TrueUsage(log)), Tokens(e.usage.counts));
  }

  lemma NothingCovers(log: seq<LogEntry>, e: LogEntry)
    requires OneIdentity(log + [e]) && e.PassUsage? && !CoveredIn(log, e)
    ensures OlderDelta(log, e) == e.usage.counts && Tokenless(RequestDelta(log, e))
  {
    CoveredByLog(log + [e], e);
    assert (log + [e])[|log|] == e && forall k :: 0 <= k < |log| ==> (log + [e])[k] == log[k];
  }

  lemma EmptyTokens(log: seq<LogEntry>)
    requires |log| == 0
    ensures Tokens(TrueUsage(log)) == 0
  {
    EmptyUsage(log);
  }

  lemma AloneIsCounted(log: seq<LogEntry>)
    requires |log| == 1 && log[0].PassUsage?
    ensures Tokens(TrueUsage(log)) == Tokens(log[0].usage.counts)
  {
    assert log[..0] + [log[0]] == log;
    EmptyTokens(log[..0]);
    UncoveredIsCounted(log[..0], log[0]);
  }

  // ---------------------------------------------------------------- a second review

  lemma StartReports(log: seq<LogEntry>, e: LogEntry, id: string)
    requires !Ends(e)
    ensures Reported(log + [e]) == Reported(log)
    ensures Ended(log + [e], id) <==> Ended(log, id)
  {
    ReportedLast(log, e);
    EndedLast(log, e, id);
  }

  lemma EndReports(log: seq<LogEntry>, e: LogEntry)
    requires Ends(e)
    ensures Tokens(Reported(log + [e])) == Tokens(Reported(log)) + Tokens(e.record.Known())
    ensures Ended(log + [e], e.record.requestId)
  {
    ReportedLast(log, e);
    EndedLast(log, e, e.record.requestId);
  }

  lemma EndedLast(log: seq<LogEntry>, e: LogEntry, id: string)
    ensures Ended(log + [e], id) <==> Ended(log, id) || (Ends(e) && e.record.requestId == id)
  {
    var longer := log + [e];
    forall k: nat | k < |log| ensures EndsAt(longer, id, k) <==> EndsAt(log, id, k) {}
    assert EndsAt(longer, id, |log|) <==> Ends(e) && e.record.requestId == id;
    if k: nat :| k < |log| && EndsAt(log, id, k) { assert EndsAt(longer, id, k); }
  }

  /** A request that hides no tokens and whose ID has not ended brings what it reports. */
  lemma RequestCounted(log: seq<LogEntry>, e: LogEntry)
    requires CountlessStarts(log) && OneIdentity(log + [e]) && e.Request? && Tokenless(Hidden(log, e))
    requires !Ended(log, e.record.requestId)
    ensures Tokens(TrueUsage(log + [e])) == Tokens(TrueUsage(log)) + Tokens(e.record.Known())
  {
    assert Tokens(RequestDelta(log, e)) + Tokens(OlderDelta(log, e)) == Tokens(e.record.Known()) by {
      DeltaIsKnown(log, e);
      OneKindOfDelta(log, e);
    }
    BroughtInFull(log, e, Tokens(TrueUsage(log)), Tokens(e.record.Known()));
  }

  /** One under an ID that has ended brings nothing. */
  lemma RequestUncounted(log: seq<LogEntry>, e: LogEntry)
    requires CountlessStarts(log) && OneIdentity(log + [e]) && e.Request? && Ended(log, e.record.requestId)
    ensures Tokens(TrueUsage(log + [e])) == Tokens(TrueUsage(log))
  {
    var k :| 0 <= k < |log| && EndsAt(log, e.record.requestId, k);
    EndHidesNothing(log, e, k);
    assert Tokens(RequestDelta(log, e)) + Tokens(OlderDelta(log, e)) == 0 by {
      DeltaIsKnown(log, e);
      OneKindOfDelta(log, e);
    }
    BroughtInFull(log, e, Tokens(TrueUsage(log)), 0);
  }

  /** A start and an end of one request, the start without counts. */
  predicate Attempt(start: LogEntry, end: LogEntry, id: string) {
    && start.Request? && start.record.status.Started? && start.record.usage.None? && Ends(end)
    && start.record.requestId == end.record.requestId == id
  }

  lemma FirstAttempt(log: seq<LogEntry>, started: seq<LogEntry>, after: seq<LogEntry>, start: LogEntry, end: LogEntry, id: string)
    requires Attempt(start, end, id) && started == log + [start] && after == started + [end]
    requires CountlessStarts(log) && OneIdentity(after) && !Ended(log, id) && Tokenless(Hidden(log, start))
    ensures Tokens(TrueUsage(after)) == Tokens(TrueUsage(log)) + Tokens(end.record.Known())
    ensures Tokens(Reported(after)) == Tokens(Reported(log)) + Tokens(end.record.Known())
    ensures CountlessStarts(after) && Ended(after, id)
  {
    IdentityPrefix(started, end);
    StartReports(log, start, id);
    EndReports(started, end);
    StartUnmoved(log, start);
    EndCounted(log, start, started, end);
    assert CountlessStarts(after);
  }

  lemma StartUnmoved(log: seq<LogEntry>, e: LogEntry)
    requires CountlessStarts(log) && OneIdentity(log + [e]) && Tokenless(Hidden(log, e))
    requires e.Request? && e.record.status.Started? && e.record.usage.None?
    ensures Tokens(TrueUsage(log + [e])) == Tokens(TrueUsage(log))
  {
    assert Tokens(RequestDelta(log, e)) + Tokens(OlderDelta(log, e)) == 0 by {
      BringsNoTokens(log, e);
      OneKindOfDelta(log, e);
    }
    BroughtInFull(log, e, Tokens(TrueUsage(log)), 0);
  }

  lemma EndCounted(log: seq<LogEntry>, start: LogEntry, started: seq<LogEntry>, end: LogEntry)
    requires started == log + [start] && start.Request? && end.Request? && CountlessStarts(started) && OneIdentity(started + [end])
    requires start.record.requestId == end.record.requestId && !Ended(started, end.record.requestId)
    ensures Tokens(TrueUsage(started + [end])) == Tokens(TrueUsage(started)) + Tokens(end.record.Known())
  {
    assert started[|log|] == start;
    EndHidesNothing(started, end, |log|);
    RequestCounted(started, end);
  }

  lemma SecondAttempt(log: seq<LogEntry>, started: seq<LogEntry>, after: seq<LogEntry>, start: LogEntry, end: LogEntry, id: string)
    requires Attempt(start, end, id) && started == log + [start] && after == started + [end]
    requires CountlessStarts(log) && OneIdentity(after) && Ended(log, id)
    ensures Tokens(TrueUsage(after)) == Tokens(TrueUsage(log))
    ensures Tokens(Reported(after)) == Tokens(Reported(log)) + Tokens(end.record.Known())
  {
    IdentityPrefix(started, end);
    StartReports(log, start, id);
    EndReports(started, end);
    RequestUncounted(log, start);
    RequestUncounted(started, end);
  }

  /** The first request of a review of Snapshot 1, and its end. */
  function Starting(at: nat): RequestUsage { Late().(startedAt := at) }

  function Ending(at: nat, tokens: nat): RequestUsage {
    Starting(at).(status := Succeeded, usage := Some(ModelUsage("m", Counts(tokens, 0, 0, 1, 0))))
  }

  /** Snapshot 1 is reviewed, and the one request of that run reports 100 tokens; it is reviewed again, and
      the one request of the second run, under the same ID, reports 50. Whatever was logged before, only the
      100 reach the total. */
  lemma SecondReviewIsMissing(log: seq<LogEntry>, once: seq<LogEntry>, twice: seq<LogEntry>)
    requires CountlessStarts(log) && OneIdentity(log) && SameOwner(log, Starting(0))
    requires !Ended(log, Late().requestId) && HidesNoTokens(log, Starting(0))
    requires once == log + [Request(Starting(0))] + [Request(Ending(0, 100))]
    requires twice == once + [Request(Starting(1))] + [Request(Ending(1, 50))]
    ensures Tokens(TrueUsage(once)) == Tokens(TrueUsage(log)) + 100 && Tokens(TrueUsage(twice)) == Tokens(TrueUsage(once))
    ensures Tokens(Reported(twice)) == Tokens(Reported(log)) + 150
  {
    var start, first, again, second := Request(Starting(0)), Request(Ending(0, 100)), Request(Starting(1)), Request(Ending(1, 50));
    ReviewsBelongTogether(log, [start, first, again, second], Starting(0), twice);
    StartLossless(log, Starting(0));
    OneIdentityPrefix(once, again, second);
    FirstAttempt(log, log + [start], once, start, first, Late().requestId);
    SecondAttempt(once, once + [again], twice, again, second, Late().requestId);
  }

  lemma OneIdentityPrefix(log: seq<LogEntry>, a: LogEntry, b: LogEntry)
    requires OneIdentity(log + [a] + [b])
    ensures OneIdentity(log)
  {
    IdentityPrefix(log + [a], b);
    IdentityPrefix(log, a);
  }

  lemma ReviewsBelongTogether(log: seq<LogEntry>, more: seq<LogEntry>, r: RequestUsage, longer: seq<LogEntry>)
    requires OneIdentity(log) && SameOwner(log, r) && longer == log + more
    requires forall k :: 0 <= k < |more| ==> more[k].Request? && SameOwner([more[k]], r) && more[k].record.requestId == r.requestId
    ensures OneIdentity(longer)
  {
    forall k | 0 <= k < |longer| && longer[k].Request? && longer[k].record.requestId == r.requestId
      ensures longer[k].record.jobId == r.jobId && longer[k].record.namespace == r.namespace
    {
      if k < |log| { assert longer[k] == log[k]; } else { assert [more[k - |log|]][0] == longer[k]; }
    }
    forall k | |log| <= k < |longer| ensures longer[k] == more[k - |log|] {}
    assert forall k :: 0 <= k < |log| ==> longer[k] == log[k];
  }

  // ---------------------------------------------------------------- concurrent runs

  /** One model run: it checks the ceiling, records the start, sends, and records the end. */
  datatype Phase = Idle | Cleared | InFlight(record: RequestUsage) | Stopped {
    predicate MayFinish() { Cleared? || InFlight? }
  }

  datatype State = State(log: seq<LogEntry>, runs: seq<Phase>, finished: nat)

  predicate Checks(spent: bool, s: State, s': State, n: nat) {
    n < |s.runs| && s.runs[n].Idle? && s' == s.(runs := s.runs[n := if spent then Stopped else Cleared])
  }

  /** The logged requests under that ID belong to the same Job and namespace: an ID begins with the namespace,
      which is a Job or a Snapshot. It may be one that an earlier run in the namespace used. */
  predicate SameOwner(log: seq<LogEntry>, r: RequestUsage) {
    forall k :: 0 <= k < |log| && log[k].Request? && log[k].record.requestId == r.requestId ==>
      log[k].record.jobId == r.jobId && log[k].record.namespace == r.namespace
  }

  predicate Starts(s: State, s': State, n: nat, r: RequestUsage) {
    && n < |s.runs| && s.runs[n].Cleared?
    && r.status.Started? && r.usage.None? && SameOwner(s.log, r)
    && s' == s.(log := s.log + [Request(r)], runs := s.runs[n := InFlight(r)])
  }

  /** The attempt may end in any way; the next one, a retry or another turn, starts with a check. */
  predicate Finishes(s: State, s': State, n: nat, status: RequestStatus, usage: Option<ModelUsage>, next: Phase) {
    && n < |s.runs| && s.runs[n].InFlight? && !status.Started? && (next.Idle? || next.Stopped?)
    && s' == s.(log := s.log + [Request(s.runs[n].record.(status := status, usage := usage))],
                runs := s.runs[n := next], finished := s.finished + 1)
  }

  predicate Quits(s: State, s': State, n: nat) {
    n < |s.runs| && (s.runs[n].Idle? || s.runs[n].Cleared?) && s' == s.(runs := s.runs[n := Stopped])
  }

  /** Anything else that is logged, old pass-level records included. */
  predicate Logs(s: State, s': State, e: LogEntry) { !e.Request? && s' == s.(log := s.log + [e]) }

  /** The check answers for the log it reads; where costs are not exact only the token ceiling is certain. */
  ghost predicate Answers(budget: SpendBudget, pricing: Option<Pricing>, log: seq<LogEntry>, spent: bool) {
    && (TokensSpentBy(budget, TrueUsage(log)) ==> spent)
    && (CostsExact(log) && Spent(budget, pricing, log) ==> spent)
  }

  ghost predicate Step(budget: SpendBudget, pricing: Option<Pricing>, s: State, s': State) {
    || (exists n: nat, spent: bool :: Checks(spent, s, s', n) && Answers(budget, pricing, s.log, spent))
    || (exists n: nat, r :: Starts(s, s', n, r))
    || (exists n: nat, status, usage, next :: Finishes(s, s', n, status, usage, next))
    || (exists n: nat :: Quits(s, s', n))
    || (exists e :: Logs(s, s', e))
  }

  /** Every request in flight has its start in the log. */
  predicate StartsLogged(s: State) {
    forall n :: 0 <= n < |s.runs| && s.runs[n].InFlight? ==>
      exists k :: 0 <= k < |s.log| && s.log[k] == Request(s.runs[n].record)
  }

  ghost predicate Inv(s: State) { CountlessStarts(s.log) && OneIdentity(s.log) && StartsLogged(s) }

  lemma InvKept(budget: SpendBudget, pricing: Option<Pricing>, s: State, s': State)
    requires Inv(s) && Step(budget, pricing, s, s')
    ensures Inv(s') && s.log <= s'.log
  {
    if n: nat, r :| Starts(s, s', n, r) {
      LoggedStill(s, s', n);
    } else if n: nat, status, usage, next :| Finishes(s, s', n, status, usage, next) {
      var start :| 0 <= start < |s.log| && s.log[start] == Request(s.runs[n].record);
      LoggedStill(s, s', n);
    } else if e :| Logs(s, s', e) {
      if s.runs != [] { LoggedStill(s, s', 0); }
    }
  }

  /** If the step is a start, it hides no older record with tokens. */
  ghost predicate StartsHideNothing(s: State, s': State) {
    forall n: nat, r :: Starts(s, s', n, r) ==> HidesNoTokens(s.log, r)
  }

  lemma StartLossless(log: seq<LogEntry>, r: RequestUsage)
    requires HidesNoTokens(log, r)
    ensures Tokenless(Hidden(log, Request(r)))
  {
    TokenlessAt(log, HiddenAt(log, Request(r)), |log|);
    HiddenTokenless(log, Request(r));
  }

  /** Ends have the identity of their start and hide nothing more, and nothing but a request hides at all. */
  lemma StepLossless(budget: SpendBudget, pricing: Option<Pricing>, s: State, s': State, from: nat)
    requires Inv(s) && Step(budget, pricing, s, s') && StartsHideNothing(s, s')
    requires from <= |s.log| && LosslessFrom(s.log, from)
    ensures s.log <= s'.log && LosslessFrom(s'.log, from)
  {
    if n: nat, r :| Starts(s, s', n, r) {
      StartLossless(s.log, r);
      LosslessLast(s.log, Request(r), from);
    } else if n: nat, status, usage, next :| Finishes(s, s', n, status, usage, next) {
      var start :| 0 <= start < |s.log| && s.log[start] == Request(s.runs[n].record);
      var end := s.runs[n].record.(status := status, usage := usage);
      RepeatHidesNothing(s.log, end, start);
      LosslessLast(s.log, Request(end), from);
    } else if e :| Logs(s, s', e) {
      OneKindOfDelta(s.log, e);
      LosslessLast(s.log, e, from);
    }
  }

  lemma LoggedStill(s: State, s': State, n: nat)
    requires StartsLogged(s) && n < |s.runs| && |s'.runs| == |s.runs|
    requires |s'.log| == |s.log| + 1 && s.log <= s'.log && s'.runs == s.runs[n := s'.runs[n]]
    requires s'.runs[n].InFlight? ==> s'.runs[n] == s.runs[n] || s'.log[|s.log|] == Request(s'.runs[n].record)
    ensures StartsLogged(s')
  {
    forall m | 0 <= m < |s'.runs| && s'.runs[m].InFlight?
      ensures exists k :: 0 <= k < |s'.log| && s'.log[k] == Request(s'.runs[m].record)
    {
      if s'.runs[m] == s.runs[m] {
        var k :| 0 <= k < |s.log| && s.log[k] == Request(s.runs[m].record);
        assert s'.log[k] == Request(s'.runs[m].record);
      } else {
        assert s'.log[|s.log|] == Request(s'.runs[m].record);
      }
    }
  }

  /** The runs that have passed their check and may still finish a request. */
  function Pending(runs: seq<Phase>): (n: nat)
    ensures n <= |runs|
  {
    if runs == [] then 0 else Pending(runs[..|runs| - 1]) + if runs[|runs| - 1].MayFinish() then 1 else 0
  }

  lemma {:induction false} PendingAt(runs: seq<Phase>, n: nat, p: Phase)
    requires n < |runs|
    ensures Pending(runs[n := p]) + (if runs[n].MayFinish() then 1 else 0) == Pending(runs) + (if p.MayFinish() then 1 else 0)
  {
    if n == |runs| - 1 {
      assert runs[n := p][..n] == runs[..n];
    } else {
      PendingAt(runs[..|runs| - 1], n, p);
      assert runs[n := p][..|runs| - 1] == runs[..|runs| - 1][n := p];
    }
  }

  /** The ceiling is reached, and whoever checks is told so. */
  ghost predicate CeilingReached(budget: SpendBudget, pricing: Option<Pricing>, log: seq<LogEntry>) {
    TokensSpentBy(budget, TrueUsage(log)) || (CostsExact(log) && Spent(budget, pricing, log))
  }

  /** After the ceiling nobody new passes the check. */
  lemma FinishingSpendsAPass(budget: SpendBudget, pricing: Option<Pricing>, s: State, s': State)
    requires Step(budget, pricing, s, s') && CeilingReached(budget, pricing, s.log)
    ensures s'.finished + Pending(s'.runs) <= s.finished + Pending(s.runs)
  {
    if n: nat, spent: bool :| Checks(spent, s, s', n) && Answers(budget, pricing, s.log, spent) {
      PendingAt(s.runs, n, s'.runs[n]);
    } else if n: nat, r :| Starts(s, s', n, r) {
      PendingAt(s.runs, n, s'.runs[n]);
    } else if n: nat, status, usage, next :| Finishes(s, s', n, status, usage, next) {
      PendingAt(s.runs, n, s'.runs[n]);
    } else if n: nat :| Quits(s, s', n) {
      PendingAt(s.runs, n, s'.runs[n]);
    }
  }

  ghost predicate IsRun(budget: SpendBudget, pricing: Option<Pricing>, run: seq<State>) {
    && run != [] && Inv(run[0])
    && forall k :: 0 <= k < |run| - 1 ==> Step(budget, pricing, run[k], run[k + 1])
  }

  lemma {:induction false} RunInv(budget: SpendBudget, pricing: Option<Pricing>, run: seq<State>, n: nat, m: nat)
    requires IsRun(budget, pricing, run) && n <= m < |run|
    ensures Inv(run[m]) && run[n].log <= run[m].log
    decreases m
  {
    if m > 0 {
      RunInv(budget, pricing, run, if n < m then n else m - 1, m - 1);
      assert Step(budget, pricing, run[m - 1], run[m - 1 + 1]);
      InvKept(budget, pricing, run[m - 1], run[m]);
    }
  }

  ghost predicate StartHidesNothingAt(run: seq<State>, k: nat)
    requires k + 1 < |run|
  {
    StartsHideNothing(run[k], run[k + 1])
  }

  /** The log has only grown since, and lost nothing. */
  predicate Extends(was: seq<LogEntry>, now: seq<LogEntry>) { was <= now && LosslessFrom(now, |was|) }

  lemma NextExtends(budget: SpendBudget, pricing: Option<Pricing>, run: seq<State>, n: nat, k: nat)
    requires IsRun(budget, pricing, run) && n <= k && k + 1 < |run| && StartHidesNothingAt(run, k)
    requires Extends(run[n].log, run[k].log)
    ensures Extends(run[n].log, run[k + 1].log)
  {
    RunInv(budget, pricing, run, k, k);
    assert Step(budget, pricing, run[k], run[k + 1]);
    StepLossless(budget, pricing, run[k], run[k + 1], |run[n].log|);
  }

  lemma ExtendsItself(log: seq<LogEntry>)
    ensures Extends(log, log)
  {
  }

  lemma RunExtends(budget: SpendBudget, pricing: Option<Pricing>, run: seq<State>, n: nat, m: nat)
    requires IsRun(budget, pricing, run) && n <= m < |run|
    requires forall k :: n <= k < m ==> StartHidesNothingAt(run, k)
    ensures Extends(run[n].log, run[m].log)
  {
    ExtendsItself(run[n].log);
    ghost var holds := seq(|run|, k requires 0 <= k < |run| => Extends(run[n].log, run[k].log));
    forall k | n <= k < m && holds[k] ensures holds[k + 1] { NextExtends(budget, pricing, run, n, k); }
    StaysTrue(holds, n, m);
  }

  lemma StillReached(budget: SpendBudget, pricing: Option<Pricing>, was: seq<LogEntry>, now: seq<LogEntry>)
    requires CountlessStarts(now) && OneIdentity(now) && Extends(was, now)
    requires CeilingReached(budget, pricing, was)
    requires TokensSpentBy(budget, TrueUsage(was)) || (SanePricing(pricing) && CostsExact(now))
    ensures CeilingReached(budget, pricing, now)
  {
    var more := now[|was|..];
    assert now == was + more;
    SpentIsALatch(budget, pricing, was, more);
  }

  /** No step from then on raises what is finished plus what may still finish. */
  predicate NoNewPasses(run: seq<State>, n: nat, m: nat) {
    forall k :: n <= k < m && k < |run| - 1 ==>
      run[k + 1].finished + Pending(run[k + 1].runs) <= run[k].finished + Pending(run[k].runs)
  }

  lemma {:induction false} FinishedBounded(run: seq<State>, n: nat, m: nat)
    requires n <= m < |run| && NoNewPasses(run, n, m)
    ensures run[m].finished + Pending(run[m].runs) <= run[n].finished + Pending(run[n].runs)
    decreases m - n
  {
    if n < m {
      FinishedBounded(run, n, m - 1);
      assert run[m - 1 + 1].finished + Pending(run[m - 1 + 1].runs) <= run[m - 1].finished + Pending(run[m - 1].runs);
    }
  }

  lemma NoNewPass(budget: SpendBudget, pricing: Option<Pricing>, run: seq<State>, n: nat, k: nat)
    requires IsRun(budget, pricing, run) && n <= k < |run| - 1 && CeilingReached(budget, pricing, run[n].log)
    requires forall j :: n <= j < k ==> StartHidesNothingAt(run, j)
    requires TokensSpentBy(budget, TrueUsage(run[n].log)) || (SanePricing(pricing) && CostsExact(run[k].log))
    ensures run[k + 1].finished + Pending(run[k + 1].runs) <= run[k].finished + Pending(run[k].runs)
  {
    RunInv(budget, pricing, run, n, k);
    RunExtends(budget, pricing, run, n, k);
    StillReached(budget, pricing, run[n].log, run[k].log);
    assert Step(budget, pricing, run[k], run[k + 1]);
    FinishingSpendsAPass(budget, pricing, run[k], run[k + 1]);
  }

  /** Once a ceiling is reached, at most as many requests still finish as runs had passed their check by
      then; with N runs, at most N, whichever IDs they repeat, as long as no start hides tokens. For the cost
      ceiling, while costs are exact. */
  lemma OvershootBounded(budget: SpendBudget, pricing: Option<Pricing>, run: seq<State>, n: nat, m: nat)
    requires IsRun(budget, pricing, run) && n <= m < |run| && CeilingReached(budget, pricing, run[n].log)
    requires forall k :: n <= k < m - 1 ==> StartHidesNothingAt(run, k)
    requires TokensSpentBy(budget, TrueUsage(run[n].log))
             || (SanePricing(pricing) && forall k :: n <= k < m ==> CostsExact(run[k].log))
    ensures run[m].finished - run[n].finished <= Pending(run[n].runs) <= |run[n].runs|
  {
    forall k | n <= k < m && k < |run| - 1
      ensures run[k + 1].finished + Pending(run[k + 1].runs) <= run[k].finished + Pending(run[k].runs)
    {
      NoNewPass(budget, pricing, run, n, k);
    }
    FinishedBounded(run, n, m);
  }

  // A start that hides tokens opens the ceiling again. One run has passed its check when the usage of the
  // abandoned review is logged and reaches a ceiling of 100 tokens; its own first request hides that usage,
  // and so a second request passes the check.

  /** What a request that failed without known counts leaves in the log. */
  function Failing(r: RequestUsage): RequestUsage { r.(status := Failed) }

  function TwoRequests(log: seq<LogEntry>, r: RequestUsage, q: RequestUsage): seq<State> {
    var started := log + [Request(r)];
    var ended := started + [Request(Failing(r))];
    var again := ended + [Request(q)];
    [State(log, [Cleared], 0), State(started, [InFlight(r)], 0), State(ended, [Idle], 1), State(ended, [Cleared], 1),
     State(again, [InFlight(q)], 1), State(again + [Request(Failing(q))], [Stopped], 2)]
  }

  /** The same run makes both requests, if the check in between finds the ceiling free. */
  lemma TwoRequestsRun(budget: SpendBudget, log: seq<LogEntry>, r: RequestUsage, q: RequestUsage)
    requires CountlessStarts(log) && OneIdentity(log) && SameOwner(log, r)
    requires r.status.Started? && r.usage.None? && q.status.Started? && q.usage.None?
    requires SameOwner(log + [Request(r)] + [Request(Failing(r))], q)
    requires !TokensSpentBy(budget, TrueUsage(log + [Request(r)] + [Request(Failing(r))]))
    ensures IsRun(budget, None, TwoRequests(log, r, q))
  {
    var run := TwoRequests(log, r, q);
    assert Starts(run[0], run[1], 0, r);
    assert Finishes(run[1], run[2], 0, Failed, None, Idle);
    assert Checks(false, run[2], run[3], 0) && Answers(budget, None, run[2].log, false);
    assert Starts(run[3], run[4], 0, q);
    assert Finishes(run[4], run[5], 0, Failed, None, Stopped);
    forall k | 0 <= k < |run| - 1 ensures Step(budget, None, run[k], run[k + 1]) {
      assert k == 0 || k == 1 || k == 2 || k == 3 || k == 4;
    }
  }

  /** An end without counts adds and hides nothing. */
  lemma FailingIsFree(log: seq<LogEntry>, e: LogEntry, start: nat)
    requires CountlessStarts(log) && OneIdentity(log + [e]) && e.Request? && Tokenless(e.record.Known())
    requires start < |log| && log[start].Request? && log[start].record.requestId == e.record.requestId
    ensures Tokens(TrueUsage(log + [e])) == Tokens(TrueUsage(log))
  {
    EndHidesNothing(log, e, start);
    assert Tokens(RequestDelta(log, e)) + Tokens(OlderDelta(log, e)) == 0 by {
      OneKindOfDelta(log, e);
      BringsNoTokens(log, e);
    }
    BroughtInFull(log, e, Tokens(TrueUsage(log)), 0);
  }

  lemma EndHidesNothing(log: seq<LogEntry>, e: LogEntry, start: nat)
    requires OneIdentity(log + [e]) && e.Request?
    requires start < |log| && log[start].Request? && log[start].record.requestId == e.record.requestId
    ensures Tokenless(Hidden(log, e))
  {
    SameIdentity(log, e.record, start);
    RepeatHidesNothing(log, e.record, start);
  }

  lemma BringsNoTokens(log: seq<LogEntry>, e: LogEntry)
    requires e.Request? && Tokenless(e.record.Known())
    ensures Tokenless(RequestDelta(log, e))
  {
  }

  lemma OneRunTwoEnds(run: seq<State>, log: seq<LogEntry>, r: RequestUsage, q: RequestUsage)
    requires run == TwoRequests(log, r, q)
    ensures run[5].finished - run[0].finished == 2 > |run[0].runs|
  {
  }

  lemma StillOpen(budget: SpendBudget, log: seq<LogEntry>, r: RequestUsage)
    requires CountlessStarts(log) && OneIdentity(log) && SameOwner(log, r) && r.status.Started? && r.usage.None?
    requires Tokens(TrueUsage(log + [Request(r)])) < budget.maxTokens
    ensures !TokensSpentBy(budget, TrueUsage(log + [Request(r)] + [Request(Failing(r))]))
  {
    var started := log + [Request(r)];
    assert started[|log|] == Request(r);
    FailingIsFree(started, Request(Failing(r)), |log|);
  }

  lemma HidingOpens(budget: SpendBudget, log: seq<LogEntry>, r: RequestUsage, q: RequestUsage)
    requires CountlessStarts(log) && OneIdentity(log) && SameOwner(log, r)
    requires r.status.Started? && r.usage.None? && q.status.Started? && q.usage.None?
    requires q.namespace == r.namespace && q.jobId == r.jobId && SameOwner(log, q)
    requires TokensSpentBy(budget, TrueUsage(log)) && Tokens(TrueUsage(log + [Request(r)])) < budget.maxTokens
    ensures var run := TwoRequests(log, r, q);
            && IsRun(budget, None, run) && CeilingReached(budget, None, run[0].log)
            && run[5].finished - run[0].finished > |run[0].runs|
  {
    StillOpen(budget, log, r);
    TwoRequestsRun(budget, log, r, q);
    OneRunTwoEnds(TwoRequests(log, r, q), log, r, q);
  }

  /** Without the condition on starts the bound fails: one run, and two requests that finish. */
  lemma HidingOpensTheCeiling(budget: SpendBudget, log: seq<LogEntry>, r: RequestUsage, q: RequestUsage)
    requires budget.maxTokens == 100 && log == [Older()] && r == Late() && q == Late().(requestId := "1:2")
    ensures var run := TwoRequests(log, r, q);
            && IsRun(budget, None, run) && CeilingReached(budget, None, run[0].log)
            && run[5].finished - run[0].finished > |run[0].runs|
  {
    OlderOpens(log, r);
    HidingOpens(budget, log, r, q);
  }

  lemma OlderOpens(log: seq<LogEntry>, r: RequestUsage)
    requires log == [Older()] && r == Late()
    ensures Tokens(TrueUsage(log)) == 100 && Tokens(TrueUsage(log + [Request(r)])) == 0
  {
    AloneIsCounted(log);
    LateRequestShrinks();
  }
}
