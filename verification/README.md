# The control plane of the Broccoli DevOps agent, modelled and proved in Dafny

This project models the part of the repository that decides: which Issues, Jobs and ActionRuns exist, who may
change them, when an Issue counts as resolved, what a freeze stops, what a restart may touch, and what the model
relay may spend. Teams, the Platform, the Collector, the policy model and the operators may answer anything.

`dafny verify dfyconfig.toml` checks the whole project with Dafny 4.11.

## How it is laid out

| files | what they hold |
|---|---|
| `Wrappers`, `Text`, `Policy`, `Domain` | values: records with their transition functions, the authority matrix, runbook classification |
| `Records` | `ActionRecord` and `JobRecord`, the same transitions as methods that write fields, proved all-or-nothing; recovery and reviews rewrite records through them |
| `Matching`, `Reconciliation`, `Verification` | the greedy proposal matching, the derived Issue status, the after-Snapshot judgment |
| `Store`, `StateStores` (`StateStore.dfy`) | the store as a value, and as an object with its compare-and-set methods |
| `Protocol*` | the concurrent scheduler: any number of threads, one step per store operation, three locks; a guarantee every step gives, what every thread relies on, the invariant, theorems over whole runs, progress, and two reachable witnesses: an Issue that is verified and resolved, and an approval that overtakes a claim |
| `ModeLog`, `Recovery`, `RecoveryPhases`, `TopSchedulers`, `RecoveryTheorems` | the mode as the log records it, and recovery as methods of `TopScheduler` |
| `Cancelling` | `JobCanceller`: one Job stopped while everybody else goes on writing |
| `Passes`, `FollowUp`, `Queue` | the pass loop over an arbitrary Team, follow-ups after racing approvals, and the drain of the execution queue |
| `Lanes` | one lock per target: mutual exclusion, no deadlock, bounded length |
| `Ledger`, `Totals`, `Usage`, `Spend`, `Accounting` | the request ledger, saturating totals, the ceilings as a latch, the overshoot of concurrent runs, and the writer of one run |
| `InboxView` (`Inbox.dfy`), `Session` | the inbox, and importing a session |
| `Chunked` | the chunked-body decoder and a sender it undoes |

## How the concurrent part is proved

`Protocol.Step` is one thread doing one store operation with the values it read earlier, under whichever of
`lifecycle_lock`, `triage_lock` and the mode lock it holds; releasing a lock is a step of its own.
`ProtocolInvariant.Guarantee` says what one step may do to everybody else: records only evolve, new records appear
only on archives or, under the lifecycle lock, on live Issues, nothing starts unless the mode allows it. `PcHolds`
says what a thread may still believe between two of its operations. `ProtocolStability` shows that the one never
breaks the other, `ProtocolStore` and `ProtocolProof` carry the store invariant through every step, and the
theorems follow. The base fact is `Domain.RewriteEvolves`: every rewrite of an ActionRun raises a version number,
so a compare-and-set that succeeds proves that nobody wrote in between.

## What turned out differently than documented

- The store's comment on `claim_idempotency_key` and its body agree that a key is claimed by scanning the other
  ActionRuns; there is no claim table, so a stored proposal blocks others before its own claim is answered. The model
  follows that.
- `approve_action` also accepts an ActionRun that is still `Proposed`, whose claim nobody has answered. In every reachable
  state in which somebody holds the key of a stored proposal of a live Issue, approving it by its ID makes two ActionRuns
  share the key (`ApprovalCanOvertakeTheClaim`), and such states are reachable (`ApprovingAProposalBypassesTheClaim`). Over
  whole runs keys stay exclusive exactly when no such approval is written (`ExclusiveExactly`). A caller is safe if it
  first asks the store's own scan (`AtMostOnePerKey`); the permission list never shows proposals, and approving what it
  shows needs no check.
- Recovery reads every revising Job, imported ones included, and an imported item that still asks for review cannot be
  given one. Recovery succeeds exactly when every revising Job points at an item that can be reviewed (`AllReviewable`);
  `ArchiveCanBlockRecovery` is an import that makes it refuse. Without archives the condition always holds.
- What the log adds up to can shrink: the first request of a Job or namespace hides the older-style records of it that were
  counted so far. One more entry keeps the totals exactly when what it hides is no more than what it brings
  (`UsageGrowsExactly`); for a start, exactly when no older record it hides carries tokens, which can be looked up before it
  is logged (`StartGrowsExactly`). A review of a Snapshot that was logged as one older-style record and never completed
  (src/runner.rs:856-925) and is taken up again, in the namespace of that Snapshot (src/judge.rs:330-337), is such a case
  (`LateRequestShrinks`). A log never shrinks while it is written exactly when every entry is of the first kind
  (`NeverShrinksExactly`). While no later entry hides tokens the ceilings are latches (`SpentIsALatch`) and the overshoot is
  bounded (`OvershootBounded`); logging requests before older-style records of their Job is enough, as the harness does
  (`OrderlyIsLossless`). One start that hides tokens opens a reached ceiling again, and a single run then ends two requests
  after it was reached (`HidingOpensTheCeiling`).
- Requests are known by an ID, a sequence that restarts with every run (crates/harness/src/agent.rs:341, 488) under the
  namespace, so a second review of one Snapshot repeats the IDs of the first. What a request reports is added exactly when
  no request under its ID has ended before or it reports no tokens (`CountedExactly`); the totals hold everything that was
  reported exactly when no end with tokens repeats an ended ID (`AllIsCountedExactly`); `SecondReviewIsMissing` is a
  second review whose 50 tokens are missing.
- A mode that a person sets while a recovery is open in the log is lost at the next start, unless it was in force anyway
  (`HumanModeIsRead`).
- Importing a session appends its events unread, so the next start reads the last mode event of the file that lies outside
  a recovery, and the mode from before only where there is none (`ImportedMode`, `ImportKeepsMode`, `ImportCanFreeze`). A file that repeats an ID passes every check
  and then leaves its Issue behind without a log, so that it cannot be imported again (`ImportSession`).
- A chunk whose size ends inside a multi-byte character ends the decoding (`ReadIffWholeCharacters`).

## Model

| member | source | states |
|---|---|---|
| Policy.MutatingIgnoresLists | src/policy.rs:516-560 | whether a runbook counts as changing machine state depends on its name alone, never on operators' lists or on arguments |
| Policy.NotRequiredIsAutomatic | src/policy.rs:676-860 | nobody is asked exactly for a proposal that is no repeat and that the policy grants by its own lists and catalog: every target in scope and of the right kind, the capability granted, all required arguments there, and the class automatic in the mode; whatever is not refused stays inside the targets granted to the Job; no decision approves in a person's name |
| Domain.RewriteEvolves | src/domain/action.rs:277-473 | every successful rewrite of an ActionRun keeps its identity, raises its version (so no ABA), never un-releases a key, never brings work back to unstarted, and keeps the record consistent |
| Domain.JobRewriteEvolves | src/domain/job.rs:612-739 | the same for Jobs: identity, strictly growing version, terminal Jobs change only by their one review |
| Records.ActionRecord.TransitionTo | src/domain/action.rs:435-473 | the field-by-field transition does exactly what the function says, or nothing |
| Records.ActionRecord.ApplyApproval | src/domain/action.rs:277-291 | an approval is written only after the transition it implies was legal |
| Records.ActionRecord.Approve | src/domain/action.rs:294-298 | succeeds exactly on proposals and requests; then the record is ready and approved under that name, and otherwise nothing changed |
| Records.ActionRecord.Deny | src/domain/action.rs:304-308 | succeeds exactly on unfinished records that are not being verified; then reason, rejection and cancellation are all there, and otherwise nothing changed |
| Records.ActionRecord.WaitForHuman | src/domain/action.rs:312-316 | parks exactly what has not been verified or parked yet, with its reason, or changes nothing |
| Records.ActionRecord.RecordReview | src/domain/action.rs:321-337 | succeeds exactly on an unreviewed denied, blocked or failed action, which then asks for no review any more |
| Records.ActionRecord.RecordExecutionResult | src/domain/action.rs:375-397 | succeeds exactly from Running, although fields are written before the transition is checked, and never reaches Succeeded |
| Records.ActionRecord.RecordVerification | src/domain/action.rs:405-429 | succeeds exactly from Verifying and records grade and Snapshot with the verdict |
| Records.JobRecord.Complete | src/domain/job.rs:676-689 | the result is recorded with the status its outcome implies or not at all |
| Records.JobRecord.RecordReview | src/domain/job.rs:612-627 | succeeds exactly on an unreviewed failed or stalled Job and changes the review alone |
| Records.JobRecord.SupersedeWith | src/domain/job.rs:695-706 | succeeds exactly on unfinished Jobs; the successor links back and inherits nothing but the Issue |
| Matching.MaterializedIffMatching | src/domain/job.rs:558-577 | the check holds exactly when some assignment gives every proposal an action of the Job of its own |
| Matching.MaterializedIgnoresOrder | src/domain/job.rs:558-577 | the order in which actions are listed cannot change the answer |
| Matching.ProposalsMaterialized | src/domain/job.rs:558-577 | the greedy `position` and `swap_remove` loop answers true exactly on bag inclusion, so greed never loses a matching |
| Reconciliation.RemediationIgnoresLists | src/scheduler.rs:2668-2679 | whether an action remediated something does not depend on the lists at the time of asking |
| Reconciliation.ResolvedIffSettledWithGround | src/scheduler.rs:2681-2792 | `Resolved` is derived exactly when all is finished, reviewed and materialized and there is a confirmed solution or a verified mutation of the latest pass with no follow-up wanted |
| Recovery.DeriveIgnoresOrder | src/scheduler.rs:2681-2792 | the derived status does not depend on the order in which the store lists records |
| Verification.GradeTargets | src/scheduler.rs:1789-1882 | the loop passes exactly when there are targets and each is present, Healthy, seen after the start, probed, and not queueing after a purge; Strong exactly when one was not Healthy before |
| Verification.Judge | src/scheduler.rs:1737-1893 | dry runs and observations are graded as such, everything else by the after Snapshot |
| Verification.RemediationWasSeen | src/scheduler.rs:1710-1893 | a Weak or Strong grade means a real action whose every target was Healthy in the after Snapshot, and Strong that one was not before |
| StateStores.StateStore.UpdateActionRunIf | src/store/memory.rs:223-233 | replaces the record exactly when the stored one equals the expected one, and changes nothing otherwise |
| StateStores.StateStore.UpdateJobIf | src/store/memory.rs:164-174 | the same for Jobs |
| StateStores.StateStore.UpdateIssueIf | src/store/memory.rs:105-115 | the same for Issues |
| StateStores.StateStore.InsertActionRun | src/store/memory.rs:203-210 | an ID is taken once |
| StateStores.StateStore.AppendEvent | src/store/memory.rs:342-349 | the log only grows, and its numbers are positions |
| StateStores.StateStore.ClaimIdempotencyKey | src/store/memory.rs:236-249 | a key is free exactly when every other run with it is Cancelled, Failed or VerificationFailed; otherwise the smallest holder is named |
| ProtocolProof.InvKept | src/scheduler.rs:202-2040 | the invariant survives every step of every operation of every thread, and no step exceeds what the others tolerate |
| ProtocolProof.RunInv | src/scheduler.rs:202-2040 | it holds in every state of every run, however operations interleave |
| ProtocolTheorems.ClosedIssuesAreQuiet | src/scheduler.rs:234-290 | whenever the lifecycle lock is free, a closed Issue has no unfinished Job and no action that is proposed, waiting for approval or ready |
| ProtocolTheorems.ResolvedIsSettled | src/scheduler.rs:1936-1987 | although Jobs and ActionRuns are read at different moments while others write, everything on the Issue is finished, reviewed and materialized at the moment it becomes Resolved |
| ProtocolTheorems.ResolvedIsRemediated | src/scheduler.rs:901-930 | an Issue that reconciliation resolves has a succeeded, real, mutating action, and a stored Snapshot shows every target of it Healthy after it started |
| ProtocolTheorems.SolvedIsBacked | src/scheduler.rs:969-1019 | every recorded `Solved` has such an action behind it and everything it touched Healthy in the Snapshot it was reasoned over |
| ProtocolTheorems.RemediationStays | src/scheduler.rs:2668-2679 | no later step takes that ground away |
| ProtocolWitness.ResolutionHappens | src/scheduler.rs:1710-1987 | a run in which a Snapshot is captured, the restart of a server is judged by it, and reconciliation resolves the Issue, so these theorems speak about something |
| ProtocolRuns.ResolutionLasts | src/scheduler.rs:1936-1987 | whatever anybody does later, such an Issue stays Resolved, settled, and backed by a remediation that was seen to work |
| ProtocolRuns.NothingStartsWhileFrozen | src/scheduler.rs:1578-1617 | from a full freeze until the next mode change nothing starts: what has started had started before |
| ProtocolRuns.NothingRunsAnewWhileFrozen | src/scheduler.rs:2087-2093 | whatever is Running during a freeze was already started when it began |
| ProtocolRuns.StartsAreAuthorized | src/scheduler.rs:1578-1617 | whatever starts was Ready on a live Issue, and either automatic under the matrix within its Job's grant or approved by a named person |
| ProtocolRuns.StartsOnce | src/scheduler.rs:1578-1617 | an action's command is handed to the Platform at most once in any run, however many callers compete |
| ProtocolProgress.WorkingCanStep | src/scheduler.rs:202-2040 | whoever is at work and does not wait for a lock can take its next step, whatever the others did |
| ProtocolProgress.SomebodyCanStep | src/scheduler.rs:202-2040 | in every reachable state in which an operation is under way some operation can go on: the three locks never deadlock |
| ProtocolRuns.NoAba | src/ports.rs:459-462 | if an ActionRun is as it was read, nobody wrote it in between |
| ProtocolRuns.NoJobAba | src/domain/job.rs:713-739 | the same for Jobs |
| ProtocolRuns.RewritesBounded | src/scheduler.rs:248-288 | an ActionRun is rewritten at most six times in any run, five changes of status and one review, so retry loops on conflicts end |
| ProtocolRuns.OneLiveIssuePerKey | src/scheduler.rs:475-617 | at most one live Issue carries a deduplication key |
| ProtocolRuns.JudgeNeverReachesTop | src/domain/issue.rs:46-51 | no sequence of acceptances and merges lifts a Judge's Issue to the place kept for people |
| ProtocolRuns.OneIssuePerReport | src/scheduler.rs:391-432 | a human report opens at most one Issue |
| ProtocolClaims.ExclusiveKept | src/scheduler.rs:1281-1309 | no step of any thread gives a key a second holder, unless it writes an approval of a proposal whose key another action holds |
| ProtocolClaims.AtMostOnePerKey | src/scheduler.rs:1281-1309 | if every approval of a proposal is written while the scan of the store finds no other holder, at most one ActionRun per key waits, is ready, runs, is verified or succeeded |
| ProtocolClaims.ApprovalCanOvertakeTheClaim | src/scheduler.rs:1447-1485 | from every reachable state with a stored proposal of a live Issue whose key another action holds, an operator who approves it by its ID makes two holders of one key |
| ProtocolWitness.ApprovingAProposalBypassesTheClaim | src/scheduler.rs:1241-1485 | such a state is reached while the second of two equal proposals of a pass waits for the answer to its claim |
| ProtocolClaims.ApprovalExact | src/scheduler.rs:1447-1485 | one step keeps keys exclusive exactly when it does not write such an approval |
| ProtocolClaims.ExclusiveExactly | src/scheduler.rs:1281-1485 | over any run, keys are exclusive at every moment exactly when they were at the start and no such approval was written |
| ModeLog.PersistedMode | src/scheduler.rs:2351-2383 | the loop reads back the last mode a person set outside recovery, and whether a recovery that touched something awaits a person |
| ModeLog.SetToOneMode | src/scheduler.rs:2344-2350 | a log names exactly one mode, so the loop's answer is the only one possible |
| ModeLog.RecoveryKeepsMode | src/scheduler.rs:2344-2383 | what recovery logs, whole or cut off anywhere, never changes that mode |
| ModeLog.HumanModeIsRead | src/scheduler.rs:2610-2651 | what a person sets is what the next start reads, exactly when no recovery is open in the log or nothing was to change |
| TopSchedulers.TopScheduler.SetMode | src/scheduler.rs:2610-2651 | a mode change and its one event |
| Cancelling.JobCanceller.CancelJobRecord | src/scheduler.rs:202-230 | while others write between any two of its operations: the Job ends finished, a result recorded meanwhile is never replaced, the cancellation is written and logged together or not at all, the Team is signalled exactly when it has a handle, and the loop meets at most four conflicts |
| TopSchedulers.TopScheduler.CancelIssueWork | src/scheduler.rs:234-290 | stops every unfinished Job and unstarted or parked action of the Issue and nothing else, keeping the store sound after every single write |
| TopSchedulers.TopScheduler.ReconcileIssue | src/scheduler.rs:1936-1987 | writes exactly the derived status, when there is one and the move is legal, and clears what it closes |
| TopSchedulers.TopScheduler.ReviewAction | src/scheduler.rs:1533-1554 | takes an item out of the inbox exactly when it is in it, reconciles its Issue, and names each refusal |
| TopSchedulers.TopScheduler.ReviewJob | src/scheduler.rs:1557-1568 | the same for failed and stalled Jobs |
| TopSchedulers.TopScheduler.VerifyAction | src/scheduler.rs:1710-1923 | records the judgment of a fresh Snapshot, or a failed verification when none could be taken, exactly on a Verifying action, and reconciles its Issue |
| RecoveryPhases.InterruptedJobLegal | src/domain/job.rs:713-739 | no Job is ever stored as Queued, so failing an interrupted one is always a legal transition |
| TopSchedulers.TopScheduler.FailInterruptedJobs | src/scheduler.rs:2152-2181 | leaves no Job of ours queued or running, and never meets an illegal transition |
| TopSchedulers.TopScheduler.InterruptActions | src/scheduler.rs:2183-2261 | leaves no action of ours proposed, running or verifying, and changes nothing when there was none |
| TopSchedulers.TopScheduler.ReconstructReviews | src/scheduler.rs:2263-2304 | succeeds exactly when every revising Job points at a reviewable item, and then no review is missing |
| TopSchedulers.TopScheduler.Recover | src/scheduler.rs:2124-2342 | from any store a crash can leave: succeeds exactly when all lost reviews can be written; leaves nothing that claims to be running; keeps live queues; ends in the mode rule; a second recovery changes no record; every write on the way leaves a store recovery can start from |
| Recovery.ReconcileSteadies | src/scheduler.rs:1936-1987 | reconciling twice is reconciling once, and reconciling one Issue does not unsettle another |
| RecoveryTheorems.EveryCrashIsRecoverable | src/scheduler.rs:2097-2342 | every state of every run of the concurrent protocol is one recovery accepts |
| RecoveryTheorems.RecoveredStoreStartsAgain | src/scheduler.rs:2097-2342 | what recovery leaves satisfies everything the protocol assumes at its start |
| RecoveryTheorems.QueueSurvivesRecovery | src/scheduler.rs:2199-2236 | ready and requested actions of live Issues are unchanged on Issues that stay live, and nothing else claims progress |
| RecoveryTheorems.ArchiveCanBlockRecovery | src/scheduler.rs:2263-2304 | a sound store with an import on which recovery refuses |
| Passes.ChainBudget | src/runner.rs:764-767 | along a chain the budget falls by exactly one per pass |
| Passes.Runner.FollowUpStop | src/runner.rs:1371-1412 | every reason to stop says what the pass looks like, and going on means every proposal settled and one was carried out |
| Passes.Runner.DrivePasses | src/runner.rs:1251-1367 | ends for every Team; a result is a nonempty chain of at most budget plus one linked passes in which exactly the last does not go on; even a failing call dispatches no more Jobs than the budget, each with one unit less |
| FollowUp.RipeIsSettled | src/runner.rs:1470-1486 | a listing that passes the checks proves that the pass has no proposal left to turn into an action |
| FollowUp.OneFollowUpPerPass | src/runner.rs:1451-1499 | however approvals interleave, they dispatch at most one follow-up for a pass |
| FollowUp.FollowUpOfSettledPass | src/runner.rs:1470-1499 | at the dispatch all proposals have actions, all actions are terminal and at least one was carried out |
| Queue.QueueOf | src/runner.rs:1722-1731 | exactly the ready actions of ours, oldest first |
| Queue.QueueRunner.ExecuteAndVerify | src/runner.rs:1664-1698 | an action comes back still ready only when the mode refused it, and records only ever evolve |
| Queue.QueueRunner.Resume | src/runner.rs:1718-1741 | lists the ready actions of ours as they are after the mode change and two writes of others, and drains that queue in order; without a new freeze every queued action has left it for good, and a freeze stops it at the first action that stays ready |
| Lanes.ExecutionLanes.LaneFor | src/platform.rs:104-113 | one target always means the same lock and two targets never share one |
| Lanes.SortedTargets | src/platform.rs:117-120 | every target once, in strictly ascending order |
| Lanes.LanesExclude | src/platform.rs:116-127 | two actions that hold their lanes at the same time have no target in common |
| Lanes.NoDeadlock | src/platform.rs:98-127 | in every reachable state with an unfinished caller, some caller can go on without being cancelled |
| Lanes.EveryoneFinishes | src/platform.rs:116-127 | runs have bounded length and end with every caller done |
| Ledger.FirstEndWins | src/usage.rs:100-106 | the first terminal record of a request stays its record for every extension of the log |
| Ledger.FoldIsLedger | src/usage.rs:91-111 | the fold keeps, for each request, exactly the first terminal record or else the latest start |
| Ledger.RequestLedger | src/usage.rs:91-111 | one record per request, in starting order, and exactly those records |
| Totals.AddItem | src/usage.rs:269-290 | saturating early, group by group, gives the same saturated total as saturating once at the end |
| Usage.FromUsages | src/usage.rs:326-377 | totals, cost, per-model sums and per-model costs of a list of records, passes in 32 bits, each model once and the models by tokens, the sum in 64 bits, equals in the order of their first records |
| Usage.FromEvents | src/usage.rs:261-318 | the totals are min(limit, true sum), every request counted once and covered older records not at all, whatever the grouping; without saturation the cost is that of the true sum |
| Usage.CostOfSum | src/usage.rs:138-147 | pricing a sum equals summing prices when cached tokens are part of the input |
| Spend.UsageGrows | src/usage.rs:261-318 | a longer log whose later entries hide no tokens never adds up to less, in any token counter |
| Spend.OrderlyIsLossless | src/usage.rs:289-301 | a log in which requests come before the older-style records of their Job or namespace hides no tokens |
| Spend.UsageConserved | src/usage.rs:261-318 | what the log adds up to after one more entry, plus what the entry hides, is what it added up to before plus what the entry brings, counter by counter |
| Spend.UsageGrowsExactly | src/usage.rs:261-318 | one more entry of any kind keeps every token counter from shrinking exactly when what it hides is no more than what it brings |
| Spend.StartGrowsExactly | src/usage.rs:289-301 | logging a start keeps the totals exactly when no older record it hides carries tokens |
| Spend.NeverShrinksExactly | src/usage.rs:171-190 | the totals never shrink while a log is written exactly when every entry brings at least what it hides |
| Spend.RepeatedRequestIsFree | src/usage.rs:91-111 | a request under the ID of one that ended changes no total |
| Spend.CountedExactly | src/usage.rs:91-111 | what a request reports is added to the totals exactly when no request under its ID has ended or it reports no tokens |
| Spend.AllIsCountedExactly | src/usage.rs:91-111 | the totals of a log hold every token that ended requests and counted older records reported exactly when no end with tokens repeats an ended ID |
| Spend.SecondReviewIsMissing | src/usage.rs:91-111 | whatever was logged before, a second review under the same request ID reports 50 tokens that no total shows |
| Spend.SpentIsALatch | src/usage.rs:171-190 | while no later entry hides tokens a token ceiling that was reached stays reached; so does a cost ceiling while costs are exact and no rate is negative |
| Spend.SteadyLatch | src/usage.rs:171-190 | a token ceiling stays reached in every log whose entries bring at least what they hide |
| Spend.LateRequestShrinks | src/usage.rs:289-301 | the order matters: the first request of a second review of a Snapshot hides the older record of the first one, and the total falls by its tokens |
| Spend.BudgetSpent | src/accounting.rs:56-78 | the check answers spent whenever the token ceiling is reached, and exactly when a ceiling is reached where costs are exact or no cost ceiling applies |
| Spend.OvershootBounded | src/accounting.rs:111-190 | once a ceiling is reached and while no start hides tokens, at most as many requests still finish as runs had passed their check, under whatever IDs; with N runs, at most N |
| Spend.HidingOpensTheCeiling | src/accounting.rs:111-190 | the condition matters: after one start that hides tokens a single run ends two requests although the ceiling had been reached |
| Accounting.RequestAccounting.BudgetReason | src/accounting.rs:56-102 | looks at what is logged outside archives; a reached ceiling freezes everything, once, is logged once, and cancels exactly the other operations with a request in flight; a run without control does neither |
| Accounting.RequestAccounting.BeforeRequest | src/accounting.rs:111-116 | no request is allowed once a ceiling is reached, and an allowed one changes nothing |
| Accounting.RequestAccounting.Record | src/accounting.rs:118-190 | one entry per record with the identity of the run, starts without counts, and whoever crosses the token ceiling, or the cost ceiling while costs are exact, freezes everything and cancels the others |
| Accounting.RequestAccounting.RecordGrowsExactly | src/accounting.rs:118-190 | over the entries outside archives, recording a start keeps the totals exactly when no older record with tokens, of the Job or namespace of the run, was counted so far |
| InboxView.ReviewSplits | src/runner.rs:2243-2256 | on records the controller wrote, the three review buckets split `needs_review` without overlap or remainder |
| InboxView.ReachableIsWellKept | src/runner.rs:2234-2256 | every store the protocol can reach satisfies what the inbox relies on |
| InboxView.SortActions | src/runner.rs:2234-2256 | every bucket holds exactly the stored actions of ours that belong in it, each once |
| InboxView.ComputeInbox | src/runner.rs:2234-2295 | the whole inbox, failed Jobs and undecided diagnoses included, is exactly what the store says |
| InboxView.ImportIsInvisible | src/session.rs:263-401 | an import changes neither the inbox, nor what recovery looks at, nor the queue a resume drains |
| Session.ImportSession | src/session.rs:263-430 | succeeds exactly when nothing of the session is here, no Artifact or Snapshot contradicts a stored one and the file repeats no ID; refused files change nothing, a repeated ID leaves an Issue without its log, and in every case what is ours stays as it was |
| Session.ImportKeepsMode | src/session.rs:389-405 | a file without mode events leaves the mode the next start reads, and whether a recovery awaits a person, as they were |
| Session.ImportedMode | src/session.rs:389-405 | for every file: the next start reads the last mode event of the file outside a recovery, an open one of the log included, and the mode from before exactly when there is none |
| Session.ImportCanFreeze | src/session.rs:389-405 | a file whose log is a freeze makes the next start read a freeze, exactly when it was frozen already or no recovery is open in the log |
| Chunked.DecodeChunked | src/collector.rs:832-855 | the loop ends on every input and computes the decoding |
| Chunked.RoundTrip | src/collector.rs:832-855 | decoding undoes encoding for any nonempty chunks, blanks, extensions, case and leading zeros, whatever follows |
| Chunked.WholeBody | src/collector.rs:832-855 | the last chunk ends the body and trailers are not read |
| Chunked.ReadIffWholeCharacters | src/collector.rs:847-852 | a chunk is read exactly when its size ends between two characters of what is there |

## Left out

- HTTP and event-stream API, command line, terminal and web consoles, rendering, translations, deck builder and the `cloud/` scripts: presentation and I/O.
- Probes, process spawning, SSH, the model relay and the harness: they appear as answers of any kind.
- Fields nothing decides on: titles, descriptions, summaries, artifacts, operation IDs, earlier-pass history, `updated_at`, Job usage. The six fields of a proposal are one field `intent` of an ActionRun.
- Events that no decision reads back, except that each may be appended at any moment.
- Rejection of findings older than a closure, the policy model's triage and the rule-5 repeat scan: every answer they could give is allowed.
- Candidate validation on intake, which only turns candidates away.
- Captures during admission: a step may name any Snapshot that exists, and anybody may add Snapshots.
- A task that is aborted while it holds a lock: locks are given back by steps only. Recovery covers the crash of the whole process after any store operation.
- Listing order: the store sorts by creation time and ID; the model allows every order and proves that the derived status does not depend on it.
- TopSchedulers.TopScheduler.CancelJobRecord: the operation where nobody interferes; the loop under interference is `Cancelling.JobCanceller.CancelJobRecord`.
- TopSchedulers.TopScheduler.Recover: one clock value for the whole recovery, and no operator cancels it half-way.
- `record_action_verification` (src/scheduler.rs:1674-1699), which takes the verdict from its caller and has none: every recorded verdict is the judgment of a stored Snapshot or a failed capture.
- Passes.Runner.DrivePasses: the Jobs of the store and a two-valued mode stand for the store and scheduler; closing the Issue and interruption are free choices.
- FollowUp.OneFollowUpPerPass: for the approval path only; the pass loop dispatches follow-ups outside that lock.
- Lanes.NoDeadlock: lanes are named by their targets, which `LaneFor` justifies; a caller's run of commands is one step.
- Totals.AddItem: passes wrap at 32 bits, as in release builds; a debug build would stop there.
- Usage.FromUsages: costs are exact reals instead of floating point; the sum that models are sorted by wraps at 64 bits, as in release builds.
- Spend.SpentIsALatch: the cost ceiling needs that nobody reports more cached than input tokens and that no counter saturated; past saturation a growing share of cached input could make a cost fall.
- Accounting.RequestAccounting.BudgetReason: the cost ceiling is promised while costs are exact; an operation is known by its number, its Job and whether it asks a model.
- Spend.OvershootBounded: requests under one ID have one Job and one namespace; cancelling active operations on exhaustion only ends runs earlier.
- Session.ImportSession: an Artifact is known by the hash of its bytes; reading and writing the bodies cannot fail.
- Chunked.DecodeChunked: sizes near the limit of the machine word are compared without wrap-around, which ends the reading in both.
- State import as a step of `Protocol` writes one record at a time and checks only what keeps archives apart.
- Settings write-back, activity registry, topology validation, artifact digests: easier members.
