/** Idempotency keys: at most one ActionRun per key is past its claim (src/scheduler.rs:1281-1309,
    src/store/memory.rs, src/domain/action.rs:349-354). */
module ProtocolClaims {
  import opened Wrappers
  import opened Policy
  import opened Domain
  import opened Reconciliation
  import opened Store
  import opened Protocol
  import opened ProtocolInvariant
  import opened ProtocolProof
  import opened ProtocolRuns

  /** The thread has passed the claim for that proposal and is about to move it on. */
  predicate Passes(p: Pc, id: Id) {
    && p.OnAction?
    && match p.a
       case Claimed(action, _) => action.id == id
       case ActionWrite(action, op, _) =>
         action.id == id && action.status.Proposed? && (op.OpApply? || op.OpWait?)
       case _ => false
  }

  /** Past the claim and not released. */
  ghost predicate HoldsKey(s: State, id: Id) {
    && id in s.st.actions && s.st.Ours(s.st.actions[id].issueId)
    && s.st.actions[id].HoldsIdempotencyClaim()
    && (s.st.actions[id].status.Proposed? ==> exists u :: u in s.pc && Passes(s.pc[u], id))
  }

  ghost predicate ClaimsExclusive(s: State) {
    forall a, b :: HoldsKey(s, a) && HoldsKey(s, b) && s.st.actions[a].key == s.st.actions[b].key ==> a == b
  }

  /** About to write an approval over a proposal that is still as it was read. */
  predicate ApprovesProposal(s: State, t: Tid, id: Id) {
    && t in s.pc && s.pc[t].OnAction? && s.pc[t].a.ActionWrite? && s.pc[t].a.op.OpApprove?
    && s.pc[t].a.action.id == id && s.pc[t].a.action.status.Proposed?
    && s.st.Holds(s.pc[t].a.action) && s.st.Ours(s.pc[t].a.action.issueId)
  }

  /** The approval is about to overtake a claim that somebody else holds. */
  ghost predicate Bypasses(s: State, t: Tid) {
    exists a, b :: ApprovesProposal(s, t, a) && HoldsKey(s, b) && a != b && s.st.actions[b].key == s.st.actions[a].key
  }

  /** What a caller can check in the store: before a proposal is approved, the scan that answers claims
      finds nobody else. Requests on the permission list are no proposals and need no check. */
  predicate ChecksFirst(s: State, t: Tid) {
    if t in s.pc && s.pc[t].OnAction? && s.pc[t].a.ActionWrite? && s.pc[t].a.op.OpApprove? && s.pc[t].a.action.status.Proposed?
    then !ClaimBlocked(s.st, s.pc[t].a.action)
    else true
  }

  lemma CheckedApprovalNeverBypasses(s: State, t: Tid)
    requires KeyedById(s.st) && ChecksFirst(s, t)
    ensures !Bypasses(s, t)
  {
    forall a, b | ApprovesProposal(s, t, a) && HoldsKey(s, b) && a != b ensures s.st.actions[b].key != s.st.actions[a].key {
      assert !BlocksClaim(s.st.actions[b], s.pc[t].a.action.key, a);
    }
  }

  /** The claim step itself: the scan under the store's lock found no other holder. */
  ghost predicate ClaimStep(s: State, s': State, t: Tid, id: Id)
    requires t in s.pc
  {
    && s.pc[t].OnAction? && s.pc[t].a.Admitted? && s.pc[t].a.action.id == id
    && !ClaimBlocked(s.st, s.pc[t].a.action) && s'.st == s.st
  }

  // ---------------------------------------------------------------- where a pass comes from

  lemma PassFromAction(s: State, s': State, t: Tid, a: ActionPc, id: Id)
    requires t in s.pc && t in s'.pc && s.pc[t] == OnAction(a) && StepAction(s, s', t, a)
    requires Passes(s'.pc[t], id)
    ensures Passes(s.pc[t], id) || ClaimStep(s, s', t, id)
  {
  }

  lemma PassFromExecute(s: State, s': State, t: Tid, x: ExecutePc, id: Id)
    requires t in s.pc && t in s'.pc && s.pc[t] == Executing(x) && StepExecute(s, s', t, x)
    requires x.ExecuteMissingReleasing? ==> x.action.status.Ready?
    ensures !Passes(s'.pc[t], id)
  {
  }

  lemma PassFromElsewhere(s: State, s': State, t: Tid, id: Id)
    requires Step(s, s', t) && !s.pc[t].OnAction? && !s.pc[t].Executing?
    ensures !Passes(s'.pc[t], id)
  {
    assert AtPc(s, t, s.pc[t]);
  }

  /** A thread that has passed has passed just now, by the scan, or had passed before. */
  lemma PassOrigin(s: State, s': State, t: Tid, id: Id)
    requires Step(s, s', t) && PcHolds(s, s.pc[t])
    requires Passes(s'.pc[t], id)
    ensures Passes(s.pc[t], id) || ClaimStep(s, s', t, id)
  {
    assert AtPc(s, t, s.pc[t]);
    match s.pc[t]
    case OnAction(a) => PassFromAction(s, s', t, a, id);
    case Executing(x) => PassFromExecute(s, s', t, x, id);
    case _ => PassFromElsewhere(s, s', t, id);
  }

  // ---------------------------------------------------------------- where a claim comes from

  /** Only a thread that passed moves a proposal on without releasing it. */
  predicate MovesOn(s: State, s': State, id: Id) {
    && id in s.st.actions && id in s'.st.actions
    && s.st.actions[id].status.Proposed? && !s'.st.actions[id].status.Proposed?
    && s'.st.actions[id].HoldsIdempotencyClaim()
  }

  lemma MoveFromAction(s: State, s': State, t: Tid, a: ActionPc, id: Id)
    requires t in s.pc && t in s'.pc && s.pc[t] == OnAction(a) && StepAction(s, s', t, a)
    requires MovesOn(s, s', id) && ActionConsistent(s.st.actions[id])
    requires KeyedById(s.st) && s.st.Ours(s.st.actions[id].issueId)
    ensures Passes(s.pc[t], id) || ApprovesProposal(s, t, id)
  {
    WrittenByAction(s, s', t, a, id);
    ProposalMoves(a.action, a.op, a.now);
  }

  lemma WrittenByAction(s: State, s': State, t: Tid, a: ActionPc, id: Id)
    requires t in s.pc && t in s'.pc && StepAction(s, s', t, a)
    requires id in s.st.actions && id in s'.st.actions && s'.st.actions[id] != s.st.actions[id]
    requires s.st.actions[id].id == id
    ensures a.ActionWrite? && a.action == s.st.actions[id]
    ensures a.op.Run(a.action, a.now).Ok? && s'.st.actions[id] == a.op.Run(a.action, a.now).value
  {
    if a.ActionWrite? && a.op.Run(a.action, a.now).Ok? { RewriteEvolves(a.action, a.op, a.now); }
  }

  lemma ProposalMoves(a: ActionRun, op: ActionOp, now: nat)
    requires a.status.Proposed? && ActionConsistent(a) && op.Run(a, now).Ok? && op.Run(a, now).value.HoldsIdempotencyClaim()
    ensures op.OpApply? || op.OpWait? || op.OpApprove?
  {
  }

  lemma MoveFromExecute(s: State, s': State, t: Tid, x: ExecutePc, id: Id)
    requires t in s.pc && t in s'.pc && StepExecute(s, s', t, x)
    ensures !MovesOn(s, s', id)
  {
    if x.ExecuteLive? && OpStart.Run(x.action, x.now).Ok? { RewriteEvolves(x.action, OpStart, x.now); }
  }

  lemma MoveFromClear(s: State, s': State, t: Tid, c: ClearPc, id: Id)
    requires t in s.pc && t in s'.pc && StepClear(s, s', t, c)
    ensures !MovesOn(s, s', id)
  {
    if c.CancelAction? && OpCancel.Run(c.action, c.now).Ok? { RewriteEvolves(c.action, OpCancel, c.now); }
  }

  lemma MoveFromOther(s: State, s': State, t: Tid, o: OtherPc, id: Id)
    requires t in s.pc && t in s'.pc && StepOther(s, s', t, o)
    ensures !MovesOn(s, s', id)
  {
  }

  lemma DispatchLeavesActions(s: State, s': State, t: Tid, d: DispatchPc)
    requires t in s.pc && t in s'.pc && StepDispatch(s, s', t, d)
    ensures s'.st.actions == s.st.actions
  {
  }

  lemma JobLeavesActions(s: State, s': State, t: Tid, j: JobPc)
    requires t in s.pc && t in s'.pc && StepJob(s, s', t, j)
    ensures s'.st.actions == s.st.actions
  {
  }

  lemma ReconcileLeavesActions(s: State, s': State, t: Tid, r: ReconcilePc)
    requires t in s.pc && t in s'.pc && StepReconcile(s, s', t, r)
    ensures s'.st.actions == s.st.actions
  {
  }

  lemma IntakeLeavesActions(s: State, s': State, t: Tid, i: IntakePc)
    requires t in s.pc && t in s'.pc && StepIntake(s, s', t, i)
    ensures s'.st.actions == s.st.actions
  {
  }

  lemma LockedLeavesActions(s: State, s': State, t: Tid, task: Task)
    requires t in s.pc && t in s'.pc && StepLocked(s, s', t, task)
    ensures s'.st.actions == s.st.actions
  {
  }

  lemma LockingLeavesActions(s: State, s': State, t: Tid)
    requires t in s.pc && t in s'.pc && StepLocking(s, s', t)
    ensures s'.st.actions == s.st.actions
  {
  }

  lemma ActionsUntouched(s: State, s': State, t: Tid)
    requires Step(s, s', t)
    requires !s.pc[t].OnAction? && !s.pc[t].Executing? && !s.pc[t].Clearing? && !s.pc[t].Other?
    ensures s'.st.actions == s.st.actions
  {
    assert AtPc(s, t, s.pc[t]);
    match s.pc[t]
    case Locked(task) => LockedLeavesActions(s, s', t, task);
    case Dispatching(d) => DispatchLeavesActions(s, s', t, d);
    case OnJob(j) => JobLeavesActions(s, s', t, j);
    case Reconciling(r) => ReconcileLeavesActions(s, s', t, r);
    case Intaking(i) => if StepIntake(s, s', t, i) { IntakeLeavesActions(s, s', t, i); } else { LockingLeavesActions(s, s', t); }
    case _ => LockingLeavesActions(s, s', t);
  }

  lemma MoveOrigin(s: State, s': State, t: Tid, id: Id)
    requires Step(s, s', t) && KeyedById(s.st)
    requires MovesOn(s, s', id) && ActionConsistent(s.st.actions[id]) && s.st.Ours(s.st.actions[id].issueId)
    ensures Passes(s.pc[t], id) || ApprovesProposal(s, t, id)
  {
    assert AtPc(s, t, s.pc[t]);
    match s.pc[t]
    case OnAction(a) => MoveFromAction(s, s', t, a, id);
    case Executing(x) => MoveFromExecute(s, s', t, x, id);
    case Clearing(c) => MoveFromClear(s, s', t, c, id);
    case Other(o) => MoveFromOther(s, s', t, o, id);
    case _ => ActionsUntouched(s, s', t);
  }

  /** New records of ours are proposals nobody has claimed for yet. */
  lemma NewIsProposed(s: State, s': State, t: Tid, id: Id)
    requires Step(s, s', t) && id !in s.st.actions && id in s'.st.actions
    requires s'.st.Ours(s'.st.actions[id].issueId)
    ensures s'.st.actions[id].status.Proposed?
  {
    assert AtPc(s, t, s.pc[t]);
    match s.pc[t]
    case OnAction(a) => NewFromAction(s, s', t, a, id);
    case Executing(x) => NewFromExecute(s, s', t, x, id);
    case Clearing(c) => NewFromClear(s, s', t, c, id);
    case Other(o) => NewFromOther(s, s', t, o, id);
    case _ => ActionsUntouched(s, s', t);
  }

  lemma NewFromAction(s: State, s': State, t: Tid, a: ActionPc, id: Id)
    requires t in s.pc && t in s'.pc && StepAction(s, s', t, a) && id !in s.st.actions && id in s'.st.actions
    ensures s'.st.actions[id].status.Proposed?
  {
    if a.ActionWrite? && a.op.Run(a.action, a.now).Ok? { RewriteEvolves(a.action, a.op, a.now); }
  }

  lemma NewFromExecute(s: State, s': State, t: Tid, x: ExecutePc, id: Id)
    requires t in s.pc && t in s'.pc && StepExecute(s, s', t, x)
    ensures id in s'.st.actions ==> id in s.st.actions
  {
    if x.ExecuteLive? && OpStart.Run(x.action, x.now).Ok? { RewriteEvolves(x.action, OpStart, x.now); }
  }

  lemma NewFromClear(s: State, s': State, t: Tid, c: ClearPc, id: Id)
    requires t in s.pc && t in s'.pc && StepClear(s, s', t, c)
    ensures id in s'.st.actions ==> id in s.st.actions
  {
    if c.CancelAction? && OpCancel.Run(c.action, c.now).Ok? { RewriteEvolves(c.action, OpCancel, c.now); }
  }

  lemma NewFromOther(s: State, s': State, t: Tid, o: OtherPc, id: Id)
    requires t in s.pc && t in s'.pc && StepOther(s, s', t, o) && id !in s.st.actions && id in s'.st.actions
    ensures !s'.st.Ours(s'.st.actions[id].issueId)
  {
  }

  // ---------------------------------------------------------------- one step

  ghost predicate Known(s: State) {
    forall t, id :: t in s.pc && Passes(s.pc[t], id) ==> id in s.st.actions
  }

  lemma PassersKnow(s: State)
    requires Inv(s)
    ensures Known(s)
  {
    forall t, id | t in s.pc && Passes(s.pc[t], id) ensures id in s.st.actions {
      assert PcHolds(s, s.pc[t]);
    }
  }

  lemma PasserBefore(s: State, s': State, t: Tid, u: Tid, id: Id)
    requires Step(s, s', t) && PcHolds(s, s.pc[t]) && LocksGuarded(s, s', t)
    requires u in s'.pc && Passes(s'.pc[u], id)
    ensures (u in s.pc && Passes(s.pc[u], id)) || ClaimStep(s, s', t, id)
  {
    if u == t { PassOrigin(s, s', t, id); }
  }

  /** Whoever holds a key after the step held it before, has just been granted it, or is being approved. */
  ghost predicate HadGround(s: State, s': State, t: Tid, id: Id)
    requires t in s.pc
  {
    HoldsKey(s, id) || ClaimStep(s, s', t, id) || ApprovesProposal(s, t, id)
  }

  lemma HolderBefore(s: State, s': State, t: Tid, id: Id)
    requires Context(s, t) && PcHolds(s, s.pc[t]) && Step(s, s', t)
    requires Known(s) && Guarantee(s, s', t) && HoldsKey(s', id)
    ensures HadGround(s, s', t, id)
  {
    if id !in s.st.actions {
      NewIsProposed(s, s', t, id);
      var u :| u in s'.pc && Passes(s'.pc[u], id);
      PasserBefore(s, s', t, u, id);
    } else {
      HolderWas(s, s', t, id);
    }
  }

  lemma HolderWas(s: State, s': State, t: Tid, id: Id)
    requires Context(s, t) && PcHolds(s, s.pc[t]) && Step(s, s', t)
    requires Guarantee(s, s', t) && HoldsKey(s', id) && id in s.st.actions
    ensures HadGround(s, s', t, id)
  {
    StillOurs(s, s', t, id);
    if s'.st.actions[id].status.Proposed? {
      ProposalHolderWas(s, s', t, id);
    } else if s.st.actions[id].status.Proposed? {
      MoveOrigin(s, s', t, id);
    }
  }

  lemma ProposalHolderWas(s: State, s': State, t: Tid, id: Id)
    requires t in s.pc && PcHolds(s, s.pc[t]) && Step(s, s', t) && LocksGuarded(s, s', t)
    requires HoldsKey(s', id) && s'.st.actions[id].status.Proposed?
    requires id in s.st.actions && s.st.Ours(s.st.actions[id].issueId) && s.st.actions[id].HoldsIdempotencyClaim()
    ensures HadGround(s, s', t, id)
  {
    var u :| u in s'.pc && Passes(s'.pc[u], id);
    PasserBefore(s, s', t, u, id);
  }

  lemma StillOurs(s: State, s': State, t: Tid, id: Id)
    requires KeyedById(s.st) && RecordsFine(s.st) && Guarantee(s, s', t) && HoldsKey(s', id) && id in s.st.actions
    ensures s.st.Ours(s.st.actions[id].issueId) && s.st.actions[id].HoldsIdempotencyClaim()
    ensures s.st.actions[id].key == s'.st.actions[id].key && ActionConsistent(s.st.actions[id])
  {
    assert ActionEvolves(s.st.actions[id], s'.st.actions[id]);
    assert ActionFine(s.st, s.st.actions[id]);
  }

  /** Exclusivity survives every step of every thread but an approval that overtakes a claim. */
  lemma ExclusiveKept(s: State, s': State, t: Tid)
    requires Inv(s) && Step(s, s', t) && !Bypasses(s, t) && ClaimsExclusive(s)
    ensures ClaimsExclusive(s')
  {
    InvKept(s, s', t);
    InvContext(s, t);
    PassersKnow(s);
    HoldersStayOne(s, s', t);
  }

  lemma HoldersStayOne(s: State, s': State, t: Tid)
    requires Context(s, t) && PcHolds(s, s.pc[t]) && Step(s, s', t) && Known(s) && Guarantee(s, s', t)
    requires !Bypasses(s, t) && ClaimsExclusive(s)
    ensures ClaimsExclusive(s')
  {
    forall a, b | HoldsKey(s', a) && HoldsKey(s', b) && s'.st.actions[a].key == s'.st.actions[b].key ensures a == b {
      HolderBefore(s, s', t, a);
      HolderBefore(s, s', t, b);
      SameHolder(s, s', t, a, b);
    }
  }

  lemma SameHolder(s: State, s': State, t: Tid, a: Id, b: Id)
    requires t in s.pc && PcHolds(s, s.pc[t]) && KeyedById(s.st) && Guarantee(s, s', t) && ClaimsExclusive(s) && !Bypasses(s, t)
    requires HoldsKey(s', a) && HoldsKey(s', b) && s'.st.actions[a].key == s'.st.actions[b].key
    requires HadGround(s, s', t, a) && HadGround(s, s', t, b)
    ensures a == b
  {
    if ClaimStep(s, s', t, a) {
      ScanExcludes(s, s', t, a, b);
    } else if ClaimStep(s, s', t, b) {
      ScanExcludes(s, s', t, b, a);
    } else {
      HeldApart(s, s', t, a, b);
    }
  }

  lemma HeldApart(s: State, s': State, t: Tid, a: Id, b: Id)
    requires ClaimsExclusive(s) && !Bypasses(s, t) && Guarantee(s, s', t)
    requires HoldsKey(s, a) || ApprovesProposal(s, t, a)
    requires HoldsKey(s, b) || ApprovesProposal(s, t, b)
    requires s'.st.actions[a].key == s'.st.actions[b].key
    ensures a == b
  {
    assert ActionEvolves(s.st.actions[a], s'.st.actions[a]) && ActionEvolves(s.st.actions[b], s'.st.actions[b]);
  }

  lemma ScanExcludes(s: State, s': State, t: Tid, a: Id, b: Id)
    requires t in s.pc && PcHolds(s, s.pc[t]) && KeyedById(s.st) && ClaimStep(s, s', t, a)
    requires HoldsKey(s', a) && HoldsKey(s', b) && s'.st.actions[a].key == s'.st.actions[b].key
    ensures a == b
  {
    var action := s.pc[t].a.action;
    assert KnowsAction(s.st, action);
  }

  // ---------------------------------------------------------------- an approval that overtakes a claim

  /** Such an approval always goes through, and then two actions with one key are past their claims. */
  lemma BypassingLosesExclusivity(s: State, s': State, t: Tid)
    requires Inv(s) && Step(s, s', t) && Bypasses(s, t)
    ensures !ClaimsExclusive(s')
  {
    var a, b :| ApprovesProposal(s, t, a) && HoldsKey(s, b) && a != b && s.st.actions[b].key == s.st.actions[a].key;
    ApprovalWritten(s, s', t, s.pc[t].a.action, s.pc[t].a.op, s.pc[t].a.now);
    BothHold(s, s', t, s.pc[t].a.action, b);
  }

  lemma ApprovalWritten(s: State, s': State, t: Tid, a: ActionRun, op: ActionOp, now: nat)
    requires Step(s, s', t) && s.pc[t] == OnAction(ActionWrite(a, op, now))
    requires op.OpApprove? && a.status.Proposed? && s.st.Holds(a)
    ensures s'.pc == s.pc[t := WaitLifecycle(Reconcile(a.issueId))] && s'.st.issues == s.st.issues
    ensures exists next: ActionRun :: next.status.Ready? && SameAction(a, next) && s'.st.actions == s.st.actions[a.id := next]
  {
    assert AtPc(s, t, OnAction(ActionWrite(a, op, now)));
    assert op.Run(a, now).Ok?;
  }

  lemma BothHold(s: State, s': State, t: Tid, a: ActionRun, b: Id)
    requires ApprovesProposal(s, t, a.id) && s.pc[t].a.action == a
    requires HoldsKey(s, b) && a.id != b && s.st.actions[b].key == a.key
    requires s'.pc == s.pc[t := WaitLifecycle(Reconcile(a.issueId))] && s'.st.issues == s.st.issues
    requires exists next: ActionRun :: next.status.Ready? && SameAction(a, next) && s'.st.actions == s.st.actions[a.id := next]
    ensures !ClaimsExclusive(s')
  {
    assert HoldsKey(s', a.id);
    if s.st.actions[b].status.Proposed? {
      var u :| u in s.pc && Passes(s.pc[u], b);
      assert u != t && Passes(s'.pc[u], b);
    }
    assert HoldsKey(s', b);
  }

  /** One step keeps keys exclusive exactly when it is not such an approval. */
  lemma ApprovalExact(s: State, s': State, t: Tid)
    requires Inv(s) && ClaimsExclusive(s) && Step(s, s', t)
    ensures ClaimsExclusive(s') <==> !Bypasses(s, t)
  {
    if Bypasses(s, t) { BypassingLosesExclusivity(s, s', t); } else { ExclusiveKept(s, s', t); }
  }

  // ---------------------------------------------------------------- whole runs

  /** No approval that was written up to that moment overtook a claim. */
  ghost predicate NobodyBypasses(run: seq<State>, k: nat)
    requires k < |run|
  {
    forall n, t :: 0 <= n < k && Step(run[n], run[n + 1], t) ==> !Bypasses(run[n], t)
  }

  lemma ExclusiveNext(run: seq<State>, k: nat)
    requires IsRun(run) && k + 1 < |run| && ClaimsExclusive(run[k]) && NobodyBypasses(run, k + 1)
    ensures ClaimsExclusive(run[k + 1])
  {
    RunInv(run, k);
    var t := RunStep(run, k);
    ExclusiveKept(run[k], run[k + 1], t);
  }

  lemma {:induction false} OneHolderPerKey(run: seq<State>, k: nat)
    requires IsRun(run) && k < |run| && ClaimsExclusive(run[0]) && NobodyBypasses(run, k)
    ensures ClaimsExclusive(run[k])
  {
    if k > 0 {
      OneHolderPerKey(run, k - 1);
      ExclusiveNext(run, k - 1);
    }
  }

  lemma BypassShows(run: seq<State>, n: nat, t: Tid)
    requires IsRun(run) && n + 1 < |run| && Step(run[n], run[n + 1], t) && Bypasses(run[n], t)
    ensures !ClaimsExclusive(run[n + 1])
  {
    RunInv(run, n);
    BypassingLosesExclusivity(run[n], run[n + 1], t);
  }

  /** Any interleaving, any length: every key has at most one action past its claim at every moment
      exactly when that was so at the start and no approval of a proposal was written over a held key. */
  lemma ExclusiveExactly(run: seq<State>)
    requires IsRun(run)
    ensures (forall k :: 0 <= k < |run| ==> ClaimsExclusive(run[k]))
            <==> ClaimsExclusive(run[0]) && NobodyBypasses(run, |run| - 1)
  {
    if ClaimsExclusive(run[0]) && NobodyBypasses(run, |run| - 1) {
      forall k | 0 <= k < |run| ensures ClaimsExclusive(run[k]) { OneHolderPerKey(run, k); }
    }
    forall n, t | 0 <= n < |run| - 1 && Step(run[n], run[n + 1], t) && Bypasses(run[n], t) ensures !ClaimsExclusive(run[n + 1]) {
      BypassShows(run, n, t);
    }
  }

  predicate PastProposal(a: ActionRun) {
    a.status in {WaitingForApproval, WaitingForHuman, Ready, Running, Verifying, Succeeded}
  }

  /** The approvals of proposals that were written found the scan clear at that moment. */
  ghost predicate ApprovalsChecked(run: seq<State>, k: nat)
    requires k < |run|
  {
    forall n, t :: 0 <= n < k && Step(run[n], run[n + 1], t) ==> ChecksFirst(run[n], t)
  }

  lemma CheckedNobodyBypasses(run: seq<State>, k: nat)
    requires IsRun(run) && k < |run| && ApprovalsChecked(run, k)
    ensures NobodyBypasses(run, k)
  {
    forall n, t | 0 <= n < k && Step(run[n], run[n + 1], t) ensures !Bypasses(run[n], t) {
      RunContext(run, n, t);
      CheckedApprovalNeverBypasses(run[n], t);
    }
  }

  /** If whoever approves a proposal first asks the store's own scan, an idempotency key has at most one
      ActionRun that waits, is ready, runs, is verified or succeeded. */
  lemma AtMostOnePerKey(run: seq<State>, k: nat, a: Id, b: Id)
    requires IsRun(run) && k < |run| && ClaimsExclusive(run[0]) && ApprovalsChecked(run, k)
    requires a in run[k].st.actions && b in run[k].st.actions
    requires run[k].st.Ours(run[k].st.actions[a].issueId) && run[k].st.Ours(run[k].st.actions[b].issueId)
    requires PastProposal(run[k].st.actions[a]) && PastProposal(run[k].st.actions[b])
    requires run[k].st.actions[a].key == run[k].st.actions[b].key
    ensures a == b
  {
    CheckedNobodyBypasses(run, k);
    OneHolderPerKey(run, k);
    TwoHolders(run[k], a, b);
  }

  lemma TwoHolders(s: State, a: Id, b: Id)
    requires ClaimsExclusive(s) && a in s.st.actions && b in s.st.actions && s.st.actions[a].key == s.st.actions[b].key
    requires s.st.Ours(s.st.actions[a].issueId) && s.st.Ours(s.st.actions[b].issueId)
    requires PastProposal(s.st.actions[a]) && PastProposal(s.st.actions[b])
    ensures a == b
  {
    assert HoldsKey(s, a) && HoldsKey(s, b);
  }

  // ---------------------------------------------------------------- and nothing in the code prevents it

  lemma OperatorReads(start: State, s: State, t: Tid, a: ActionRun, who: string) returns (s': State)
    requires Reaches(start, s) && t in s.pc && s.pc[t].Idle? && s.st.Holds(a)
    ensures s' == Goto(s, t, OnAction(ApproveRead(a, who))) && Reaches(start, s')
  {
    s' := Goto(s, t, OnAction(ApproveRead(a, who)));
    assert Begins(s, OnAction(ApproveRead(a, who)));
    assert Step(s, s', t);
    ReachesNext(start, s, s', t);
  }

  lemma OperatorDecides(start: State, s: State, t: Tid, a: ActionRun, who: string) returns (s': State)
    requires Reaches(start, s) && t in s.pc && s.pc[t] == OnAction(ApproveRead(a, who)) && s.st.LiveIssue(a.issueId)
    ensures s' == Goto(s, t, OnAction(ActionWrite(a, OpApprove(who), 0))) && Reaches(start, s')
  {
    s' := Goto(s, t, OnAction(ActionWrite(a, OpApprove(who), 0)));
    assert StepAction(s, s', t, ApproveRead(a, who));
    assert Step(s, s', t);
    ReachesNext(start, s, s', t);
  }

  lemma OperatorWrites(start: State, s: State, t: Tid, a: ActionRun, who: string) returns (s': State)
    requires Reaches(start, s) && t in s.pc && s.pc[t] == OnAction(ActionWrite(a, OpApprove(who), 0))
    ensures Step(s, s', t) && Reaches(start, s')
  {
    s' := if OpApprove(who).Run(a, 0).Err? || !s.st.Holds(a) then Goto(s, t, Idle)
          else Save(s, s.st.PutAction(OpApprove(who).Run(a, 0).value), t, WaitLifecycle(Reconcile(a.issueId)));
    assert StepAction(s, s', t, ActionWrite(a, OpApprove(who), 0));
    assert Step(s, s', t);
    ReachesNext(start, s, s', t);
  }

  /** `approve_action` asks for a live Issue and nothing else. So from every reachable state in which a
      proposal is stored whose key somebody holds, an operator at hand can make two actions share it. */
  lemma ApprovalCanOvertakeTheClaim(start: State, s: State, t: Tid, a: ActionRun, b: Id, who: string) returns (s': State)
    requires Reaches(start, s) && t in s.pc && s.pc[t].Idle?
    requires s.st.Holds(a) && a.status.Proposed? && s.st.LiveIssue(a.issueId)
    requires HoldsKey(s, b) && b != a.id && s.st.actions[b].key == a.key
    ensures Reaches(start, s') && !ClaimsExclusive(s')
  {
    var read := OperatorReads(start, s, t, a, who);
    var decided := OperatorDecides(start, read, t, a, who);
    StillHeld(s, decided, t, a, b, who);
    s' := OperatorWrites(start, decided, t, a, who);
    ReachedInv(start, decided);
    BypassingLosesExclusivity(decided, s', t);
  }

  lemma StillHeld(s: State, s': State, t: Tid, a: ActionRun, b: Id, who: string)
    requires t in s.pc && s.pc[t].Idle? && s.st.Holds(a) && a.status.Proposed? && s.st.LiveIssue(a.issueId)
    requires HoldsKey(s, b) && b != a.id && s.st.actions[b].key == a.key
    requires s' == Goto(s, t, OnAction(ActionWrite(a, OpApprove(who), 0)))
    ensures Bypasses(s', t)
  {
    if s.st.actions[b].status.Proposed? {
      var u :| u in s.pc && Passes(s.pc[u], b);
      assert Passes(s'.pc[u], b);
    }
    assert ApprovesProposal(s', t, a.id) && HoldsKey(s', b);
  }
}
