/** The ledger writer of one model run: it asks before each request and records each start and end
    (src/accounting.rs:56-190). */
module Accounting {
  import opened Wrappers
  import opened Ledger
  import opened Totals
  import opened Usage
  import opened Spend

  /** What the harness reports about one attempt. */
  datatype RequestRecord = RequestRecord(sequence: string, startedAt: nat, status: RequestStatus, counts: Option<Counts>)

  /** An entry with the Issue it was logged for. */
  datatype Logged = Logged(entry: LogEntry, issueId: Option<nat>)

  /** What accounting reads: the entries of imported archives are left out. */
  function Relevant(log: seq<Logged>, archived: set<nat>): seq<LogEntry> {
    if log == [] then []
    else
      var last := log[|log| - 1];
      Relevant(log[..|log| - 1], archived)
        + if last.issueId.Some? && last.issueId.value in archived then [] else [last.entry]
  }

  lemma RelevantLast(log: seq<Logged>, x: Logged, archived: set<nat>)
    requires x.issueId.None? || x.issueId.value !in archived
    ensures Relevant(log + [x], archived) == Relevant(log, archived) + [x.entry]
  {
    assert (log + [x])[..|log|] == log;
  }

  /** A running operation; only those that wait for a model are cancelled at the ceiling. */
  datatype Operation = Operation(jobId: Option<nat>, askingModel: bool)

  /** The log, the mode and the operations all runs share. */
  class Ceiling {
    var log: seq<Logged>
    var frozen: bool
    var cancelled: set<nat>
    const archived: set<nat>
    const active: map<nat, Operation>
    const budget: SpendBudget
    const pricing: Option<Pricing>

    constructor (budget: SpendBudget, pricing: Option<Pricing>, archived: set<nat>, active: map<nat, Operation>)
      ensures log == [] && !frozen && cancelled == {} && this.budget == budget && this.pricing == pricing
      ensures this.archived == archived && this.active == active
    {
      this.budget, this.pricing, this.archived, this.active := budget, pricing, archived, active;
      log, frozen, cancelled := [], false, {};
    }

    function Entries(): seq<LogEntry>
      reads this`log
    {
      Relevant(log, archived)
    }
  }

  /** The ledger still has a request of that Job in flight. */
  predicate InFlight(records: map<string, RequestUsage>, jobId: Option<nat>) {
    exists id :: id in records && records[id].jobId == jobId && records[id].status.Started?
  }

  /** The operations a run that finds the ceiling reached cancels: all others with a request in flight. */
  function Overspending(active: map<nat, Operation>, current: Option<nat>, entries: seq<LogEntry>): set<nat> {
    set op | op in active && active[op].askingModel && Some(op) != current && InFlight(Fold(entries), active[op].jobId)
  }

  class RequestAccounting {
    const shared: Ceiling
    const model: string
    const namespace: nat
    const prefix: string
    const jobId: Option<nat>
    const issueId: Option<nat>
    /** The run may freeze the scheduler and cancel operations; a diagnostic may not. */
    const controlled: bool
    const operation: Option<nat>

    /** `prefix` is the namespace as text. */
    constructor (shared: Ceiling, model: string, namespace: nat, prefix: string, jobId: Option<nat>, issueId: Option<nat>,
                 controlled: bool, operation: Option<nat>)
      ensures this.shared == shared && this.model == model && this.namespace == namespace && this.prefix == prefix
      ensures this.jobId == jobId && this.issueId == issueId && this.controlled == controlled && this.operation == operation
    {
      this.shared, this.model, this.namespace, this.prefix := shared, model, namespace, prefix;
      this.jobId, this.issueId, this.controlled, this.operation := jobId, issueId, controlled, operation;
    }

    /** The entry a record becomes: a start carries no counts, and both halves of a request carry the
        run's identity. */
    function EntryOf(r: RequestRecord): RequestUsage {
      RequestUsage(prefix + ":" + r.sequence, namespace, model, jobId, r.startedAt, r.status,
                   if r.counts.None? then None else Some(ModelUsage(model, r.counts.value)))
    }

    /** Reads what is relevant of the log. When a ceiling is reached a controlled run freezes everything,
        once, says so in the log, once, and cancels whoever still has a request in flight. */
    method BudgetReason() returns (spent: bool)
      modifies shared`log, shared`frozen, shared`cancelled
      ensures Answers(shared.budget, shared.pricing, old(shared.Entries()), spent)
      ensures spent && CostsExact(old(shared.Entries())) ==> Spent(shared.budget, shared.pricing, old(shared.Entries()))
      ensures shared.frozen == (old(shared.frozen) || (spent && controlled))
      ensures shared.log == if spent && controlled && !old(shared.frozen) then old(shared.log) + [Logged(Unrelated, None)]
                            else old(shared.log)
      ensures shared.cancelled == old(shared.cancelled)
                + if spent && controlled then Overspending(shared.active, operation, old(shared.Entries())) else {}
    {
      var entries := shared.Entries();
      spent := BudgetSpent(shared.budget, shared.pricing, entries);
      if spent && controlled {
        if !shared.frozen {
          shared.log := shared.log + [Logged(Unrelated, None)];
          shared.frozen := true;
        }
        shared.cancelled := shared.cancelled + Overspending(shared.active, operation, entries);
      }
    }

    method BeforeRequest() returns (allowed: bool)
      modifies shared`log, shared`frozen, shared`cancelled
      ensures Answers(shared.budget, shared.pricing, old(shared.Entries()), !allowed)
      ensures !allowed && controlled ==> shared.frozen
      ensures allowed ==>
                shared.log == old(shared.log) && shared.frozen == old(shared.frozen) && shared.cancelled == old(shared.cancelled)
    {
      var spent := BudgetReason();
      allowed := !spent;
    }

    /** One entry per record; the end of a request is followed by another look at the ceiling, so whoever
        crosses it freezes everything by itself. */
    method Record(r: RequestRecord)
      modifies shared`log, shared`frozen, shared`cancelled
      ensures old(shared.log) + [Logged(Request(EntryOf(r)), issueId)] <= shared.log
      ensures forall k :: |old(shared.log)| < k < |shared.log| ==> shared.log[k] == Logged(Unrelated, None)
      ensures r.status.Started? ==>
                shared.log == old(shared.log) + [Logged(Request(EntryOf(r)), issueId)] && shared.frozen == old(shared.frozen)
      ensures var entries := Relevant(old(shared.log) + [Logged(Request(EntryOf(r)), issueId)], shared.archived);
              !r.status.Started? && controlled && CeilingReached(shared.budget, shared.pricing, entries) ==>
                shared.frozen && Overspending(shared.active, operation, entries) <= shared.cancelled
    {
      shared.log := shared.log + [Logged(Request(EntryOf(r)), issueId)];
      if !r.status.Started? {
        var _ := BudgetReason();
      }
    }

    /** What a run of a live Issue records is always among what is relevant. */
    lemma RecordedIsRelevant(log: seq<Logged>, r: RequestRecord)
      requires issueId.None? || issueId.value !in shared.archived
      ensures Relevant(log + [Logged(Request(EntryOf(r)), issueId)], shared.archived)
              == Relevant(log, shared.archived) + [Request(EntryOf(r))]
    {
      RelevantLast(log, Logged(Request(EntryOf(r)), issueId), shared.archived);
    }

    /** Recording a start keeps what the shared log adds up to exactly when no older record with tokens, of
        this run's Job or namespace, has been counted in it so far. */
    lemma RecordGrowsExactly(r: RequestRecord, log: seq<Logged>)
      requires r.status.Started? && r.counts.None? && (issueId.None? || issueId.value !in shared.archived)
      requires CountlessStarts(Relevant(log, shared.archived))
      requires OneIdentity(Relevant(log + [Logged(Request(EntryOf(r)), issueId)], shared.archived))
      ensures Grown(TrueUsage(Relevant(log, shared.archived)),
                    TrueUsage(Relevant(log + [Logged(Request(EntryOf(r)), issueId)], shared.archived)))
              <==> HidesNoTokens(Relevant(log, shared.archived), EntryOf(r))
    {
      RecordedIsRelevant(log, r);
      StartGrowsExactly(Relevant(log, shared.archived), EntryOf(r));
    }

    /** The requests of `LateRequestShrinks` and `SecondReviewIsMissing` are what runs in the namespace of
        Snapshot 1, outside any Job, record for their first request. */
    lemma ReviewsAreRecorded(at: nat, tokens: nat)
      requires namespace == 1 && prefix == "1" && model == "m" && jobId.None?
      ensures EntryOf(RequestRecord("1", 0, Started, None)) == Late()
      ensures EntryOf(RequestRecord("1", at, Started, None)) == Starting(at)
      ensures EntryOf(RequestRecord("1", at, Succeeded, Some(Counts(tokens, 0, 0, 1, 0)))) == Ending(at, tokens)
    {
    }
  }
}
