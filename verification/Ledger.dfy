/** The request ledger: one record per model request, whatever the log repeats (src/usage.rs:95-111). */
module Ledger {
  import opened Wrappers
  import opened Text

  /** Token and request counts; without a bound here, capped where the source saturates. */
  datatype Counts = Counts(input: nat, cached: nat, output: nat, requests: nat, unreported: nat) {
    function Plus(o: Counts): Counts {
      Counts(input + o.input, cached + o.cached, output + o.output, requests + o.requests, unreported + o.unreported)
    }
  }

  function Nothing(): Counts { Counts(0, 0, 0, 0, 0) }

  datatype ModelUsage = ModelUsage(model: string, counts: Counts)

  datatype RequestStatus = Started | Succeeded | Failed | Cancelled | Interrupted | NotSent

  datatype RequestUsage = RequestUsage(
    requestId: string, namespace: nat, model: string, jobId: Option<nat>, startedAt: nat, status: RequestStatus,
    usage: Option<ModelUsage>)
  {
    /** A request without known counts is unknown, never free; one that was not sent is free. */
    function Known(): Counts {
      if status.NotSent? then Nothing()
      else if usage.Some? then usage.value.counts
      else Counts(0, 0, 0, 1, 1)
    }

    predicate Terminal() { !status.Started? }
  }

  /** An entry of the log, as far as accounting reads it. */
  datatype LogEntry =
    | Request(record: RequestUsage)
    | Unreadable
    | PassUsage(jobId: Option<nat>, passId: Option<nat>, usage: ModelUsage)
    | Unrelated

  // ---------------------------------------------------------------- what the ledger should hold

  predicate Mentions(log: seq<LogEntry>, id: string, k: nat) {
    k < |log| && log[k].Request? && log[k].record.requestId == id
  }

  predicate EndsAt(log: seq<LogEntry>, id: string, k: nat) { Mentions(log, id, k) && log[k].record.Terminal() }

  ghost predicate FirstEnd(log: seq<LogEntry>, id: string, k: nat) {
    EndsAt(log, id, k) && forall j: nat :: j < k ==> !EndsAt(log, id, j)
  }

  ghost predicate LastMention(log: seq<LogEntry>, id: string, k: nat) {
    Mentions(log, id, k) && forall j: nat :: j > k ==> !Mentions(log, id, j)
  }

  /** The first terminal record of the request; while there is none, the latest start. */
  ghost predicate IsEntry(log: seq<LogEntry>, id: string, r: RequestUsage) {
    || (exists k: nat :: FirstEnd(log, id, k) && log[k].record == r)
    || ((forall j: nat :: !EndsAt(log, id, j)) && exists k: nat :: LastMention(log, id, k) && log[k].record == r)
  }

  /** Whatever is appended later, the first terminal record stays the record of the request. */
  lemma FirstEndWins(log: seq<LogEntry>, more: seq<LogEntry>, id: string, r: RequestUsage)
    requires IsEntry(log, id, r) && r.Terminal()
    ensures IsEntry(log + more, id, r)
    ensures forall q :: IsEntry(log + more, id, q) ==> q == r
  {
    var k: nat :| FirstEnd(log, id, k) && log[k].record == r;
    assert (log + more)[..|log|] == log;
    forall j: nat | j < k ensures !EndsAt(log + more, id, j) { assert !EndsAt(log, id, j); }
    assert FirstEnd(log + more, id, k);
  }

  // ---------------------------------------------------------------- the fold

  /** One turn of the loop. */
  function Record(records: map<string, RequestUsage>, e: LogEntry): map<string, RequestUsage> {
    if !e.Request? then records
    else if e.record.requestId in records && records[e.record.requestId].Terminal() then records
    else records[e.record.requestId := e.record]
  }

  function Fold(log: seq<LogEntry>): map<string, RequestUsage> {
    if |log| == 0 then map[] else Record(Fold(log[..|log| - 1]), log[|log| - 1])
  }

  predicate KeyedByRequest(records: map<string, RequestUsage>) {
    forall id :: id in records ==> records[id].requestId == id
  }

  lemma EntryAppended(log: seq<LogEntry>, e: LogEntry, id: string, r: RequestUsage)
    ensures !(e.Request? && e.record.requestId == id) ==> (IsEntry(log + [e], id, r) <==> IsEntry(log, id, r))
  {
    var longer := log + [e];
    forall k: nat | k < |log| ensures Mentions(longer, id, k) <==> Mentions(log, id, k) {}
    if !(e.Request? && e.record.requestId == id) {
      forall k: nat ensures EndsAt(longer, id, k) <==> EndsAt(log, id, k) {}
      forall k: nat ensures Mentions(longer, id, k) <==> Mentions(log, id, k) {}
      forall k: nat ensures FirstEnd(longer, id, k) <==> FirstEnd(log, id, k) {}
      forall k: nat ensures LastMention(longer, id, k) <==> LastMention(log, id, k) {}
    }
  }

  lemma EntryReplaced(log: seq<LogEntry>, r: RequestUsage)
    requires forall j: nat :: !EndsAt(log, r.requestId, j)
    ensures forall q :: IsEntry(log + [Request(r)], r.requestId, q) <==> q == r
  {
    var longer, id := log + [Request(r)], r.requestId;
    forall k: nat | k < |log| ensures !EndsAt(longer, id, k) { assert !EndsAt(log, id, k); }
    assert Mentions(longer, id, |log|);
    if r.Terminal() { assert FirstEnd(longer, id, |log|); } else { assert LastMention(longer, id, |log|); }
  }

  /** The fold keeps exactly the entries the log means. */
  lemma {:induction false} FoldIsLedger(log: seq<LogEntry>)
    ensures KeyedByRequest(Fold(log))
    ensures forall id, r :: IsEntry(log, id, r) <==> id in Fold(log) && Fold(log)[id] == r
  {
    if log != [] {
      var init, e := log[..|log| - 1], log[|log| - 1];
      assert log == init + [e];
      FoldIsLedger(init);
      forall id, r ensures IsEntry(log, id, r) <==> id in Fold(log) && Fold(log)[id] == r {
        EntryAppended(init, e, id, r);
        if e.Request? && e.record.requestId == id { EntryAtId(init, e.record, r); }
      }
    } else {
      forall id, r ensures !IsEntry(log, id, r) {}
    }
  }

  lemma EntryAtId(init: seq<LogEntry>, mine: RequestUsage, r: RequestUsage)
    requires KeyedByRequest(Fold(init))
    requires forall id, q :: IsEntry(init, id, q) <==> id in Fold(init) && Fold(init)[id] == q
    ensures var after := Record(Fold(init), Request(mine));
            IsEntry(init + [Request(mine)], mine.requestId, r) <==> mine.requestId in after && after[mine.requestId] == r
  {
    var id, records := mine.requestId, Fold(init);
    if id in records && records[id].Terminal() {
      assert IsEntry(init, id, records[id]);
      FirstEndWins(init, [Request(mine)], id, records[id]);
    } else {
      forall j: nat ensures !EndsAt(init, id, j) { if EndsAt(init, id, j) { EndMeansTerminal(init, id, j); } }
      EntryReplaced(init, mine);
    }
  }

  lemma {:induction false} EndMeansTerminal(log: seq<LogEntry>, id: string, j: nat)
    requires EndsAt(log, id, j)
    ensures exists r: RequestUsage :: IsEntry(log, id, r) && r.Terminal()
    decreases j
  {
    if i: nat :| i < j && EndsAt(log, id, i) {
      EndMeansTerminal(log, id, i);
    } else {
      assert FirstEnd(log, id, j);
      assert IsEntry(log, id, log[j].record);
    }
  }

  // ---------------------------------------------------------------- the listing

  predicate Earlier(a: RequestUsage, b: RequestUsage) {
    a.startedAt < b.startedAt || (a.startedAt == b.startedAt && Before(a.requestId, b.requestId))
  }

  ghost predicate InOrder(xs: seq<RequestUsage>) { forall i, k :: 0 <= i < k < |xs| ==> Earlier(xs[i], xs[k]) }

  lemma EarlierTransitive(a: RequestUsage, b: RequestUsage, c: RequestUsage)
    requires Earlier(a, b) && Earlier(b, c)
    ensures Earlier(a, c)
  {
    if a.startedAt == b.startedAt == c.startedAt { BeforeTransitive(a.requestId, b.requestId, c.requestId); }
  }

  /** Puts a record of another request into its place. */
  method InsertEntry(r: RequestUsage, xs: seq<RequestUsage>) returns (ys: seq<RequestUsage>)
    requires InOrder(xs) && forall x :: x in xs ==> x.requestId != r.requestId
    ensures InOrder(ys) && |ys| == |xs| + 1
    ensures forall y :: y in ys <==> y == r || y in xs
  {
    var i := 0;
    while i < |xs| && Earlier(xs[i], r)
      invariant 0 <= i <= |xs|
      invariant forall k :: 0 <= k < i ==> Earlier(xs[k], r)
    {
      i := i + 1;
    }
    if i < |xs| { BeforeTotal(xs[i].requestId, r.requestId); }
    forall k | i <= k < |xs| ensures Earlier(r, xs[k]) {
      if k > i { EarlierTransitive(r, xs[i], xs[k]); }
    }
    ys := xs[..i] + [r] + xs[i..];
    assert xs == xs[..i] + xs[i..];
  }

  /** One record per request, in the order the requests started. */
  method RequestLedger(log: seq<LogEntry>) returns (ledger: seq<RequestUsage>)
    ensures InOrder(ledger)
    ensures forall r :: r in ledger <==> IsEntry(log, r.requestId, r)
    ensures Lists(ledger, Fold(log))
  {
    var records: map<string, RequestUsage> := map[];
    for k := 0 to |log|
      invariant records == Fold(log[..k])
    {
      assert log[..k + 1][..k] == log[..k];
      if log[k].Request? {
        var record := log[k].record;
        if !(record.requestId in records && records[record.requestId].Terminal()) {
          records := records[record.requestId := record];
        }
      }
    }
    assert log[..|log|] == log;
    FoldIsLedger(log);
    ledger := SortedValues(records);
  }

  ghost predicate Lists(xs: seq<RequestUsage>, records: map<string, RequestUsage>) {
    && (forall r :: r in xs <==> r.requestId in records && records[r.requestId] == r)
    && |xs| == |records|
  }

  method SortedValues(records: map<string, RequestUsage>) returns (xs: seq<RequestUsage>)
    requires KeyedByRequest(records)
    ensures InOrder(xs) && Lists(xs, records)
  {
    xs := [];
    var left := records.Keys;
    while left != {}
      invariant left <= records.Keys && InOrder(xs)
      invariant forall r :: r in xs <==> r.requestId in records && r.requestId !in left && records[r.requestId] == r
      invariant |xs| + |left| == |records.Keys|
      decreases left
    {
      var id :| id in left;
      xs := InsertEntry(records[id], xs);
      left := left - {id};
    }
  }
}
