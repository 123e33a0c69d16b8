/** Whether the after Snapshot shows an action's effect (src/scheduler.rs:1687-1893). */
module Verification {
  import opened Wrappers
  import opened Policy
  import opened Domain

  datatype Verdict = Verdict(passed: bool, evidence: Option<VerificationEvidence>)

  /** `metrics.iter().find(name == "queue.depth")`: later readings of the same name are not looked at. */
  function QueueDepth(metrics: seq<Metric>): (depth: Option<real>)
    ensures depth.None? <==> forall m :: m in metrics ==> m.name != "queue.depth"
    ensures depth.Some? ==> Metric("queue.depth", depth.value) in metrics
  {
    if metrics == [] then None
    else if metrics[0].name == "queue.depth" then Some(metrics[0].value)
    else QueueDepth(metrics[1..])
  }

  /** The effect is visible on one target: it is there, Healthy, seen after the start, every named
      probe ran on it, and a purged queue is empty. */
  ghost predicate EffectShown(after: Snapshot, target: string, startedAt: nat, probes: seq<string>, purge: bool) {
    exists r: ResourceState ::
      && FindResource(after.resources, target) == Some(r)
      && r.health.Healthy?
      && startedAt < r.observedAt
      && (forall p :: p in probes ==> "probe." + p in r.facts)
      && (purge && QueueDepth(r.metrics).Some? ==> QueueDepth(r.metrics).value <= 0.0)
  }

  predicate WasHealthy(before: Option<Snapshot>, target: string) {
    before.Some? && HealthyIn(before.value, target)
  }

  /** What a real action that is not known to be an observation has to show. */
  ghost predicate Shows(a: ActionRun, after: Snapshot, purge: bool) {
    && a.intent.targets != []
    && forall t :: t in a.intent.targets ==> EffectShown(after, t, StartOf(a), a.intent.probes, purge)
  }

  function StartOf(a: ActionRun): nat { if a.startedAt.Some? then a.startedAt.value else a.createdAt }

  method ProbesRan(facts: seq<string>, probes: seq<string>) returns (all: bool)
    ensures all <==> forall p :: p in probes ==> "probe." + p in facts
  {
    all := true;
    for i := 0 to |probes|
      invariant all <==> forall p :: p in probes[..i] ==> "probe." + p in facts
    {
      if "probe." + probes[i] !in facts { all := false; }
      assert probes[..i + 1] == probes[..i] + [probes[i]];
    }
    assert probes[..|probes|] == probes;
  }

  /** One turn of the loop: whether the target shows the effect, and whether it got as far as being
      compared with the before Snapshot. */
  method TargetShows(a: ActionRun, after: Snapshot, target: string, purge: bool) returns (shown: bool, compared: bool)
    ensures shown <==> EffectShown(after, target, StartOf(a), a.intent.probes, purge)
    ensures shown ==> compared
  {
    var found := FindResource(after.resources, target);
    if found.None? { return false, false; }
    var resource := found.value;
    if !resource.health.Healthy? { return false, false; }
    if resource.observedAt <= StartOf(a) { return false, false; }
    compared := true;
    shown := ProbesRan(resource.facts, a.intent.probes);
    if purge && QueueDepth(resource.metrics).Some? && QueueDepth(resource.metrics).value > 0.0 { shown := false; }
  }

  /** The loop over the targets. A target whose probes did not run may still count as changed, which is
      why evidence is graded only when everything passed. */
  method GradeTargets(a: ActionRun, after: Snapshot, before: Option<Snapshot>, purge: bool) returns (v: Verdict)
    ensures v.passed <==> Shows(a, after, purge)
    ensures v.evidence == if !v.passed then None
                          else if exists t :: t in a.intent.targets && !WasHealthy(before, t) then Some(Strong)
                          else Some(Weak)
  {
    var targets := a.intent.targets;
    var passed := targets != [];
    var changed := false;
    for i := 0 to |targets|
      invariant passed <==> targets != [] && forall t :: t in targets[..i] ==> EffectShown(after, t, StartOf(a), a.intent.probes, purge)
      invariant passed ==> (changed <==> exists t :: t in targets[..i] && !WasHealthy(before, t))
    {
      var shown, compared := TargetShows(a, after, targets[i], purge);
      assert targets[..i + 1] == targets[..i] + [targets[i]];
      if !shown { passed := false; }
      if compared && !WasHealthy(before, targets[i]) { changed := true; }
    }
    assert targets[..|targets|] == targets;
    v := Verdict(passed, if !passed then None else if changed then Some(Strong) else Some(Weak));
  }

  /** Dry runs and observations pass by themselves; everything else is graded, unknown runbooks too. */
  ghost predicate VerdictFor(a: ActionRun, lists: ClassificationLists, after: Snapshot, before: Option<Snapshot>, v: Verdict) {
    var opClass := Classify(lists, a.intent.runbook, a.intent.arguments);
    if a.dryRun then v == Verdict(true, Some(DryRun))
    else if opClass.Some? && !opClass.value.IsMutating() then v == Verdict(true, Some(Observation))
    else
      && (v.passed <==> Shows(a, after, opClass == Some(QueuePurge)))
      && (v.evidence == Some(Strong) <==> v.passed && exists t :: t in a.intent.targets && !WasHealthy(before, t))
      && (v.evidence == Some(Weak) <==> v.passed && forall t :: t in a.intent.targets ==> WasHealthy(before, t))
      && (v.evidence.None? <==> !v.passed)
  }

  method Judge(a: ActionRun, lists: ClassificationLists, after: Snapshot, before: Option<Snapshot>) returns (v: Verdict)
    ensures VerdictFor(a, lists, after, before, v)
  {
    var opClass := Classify(lists, a.intent.runbook, a.intent.arguments);
    if a.dryRun { return Verdict(true, Some(DryRun)); }
    if opClass.Some? && !opClass.value.IsMutating() { return Verdict(true, Some(Observation)); }
    v := GradeTargets(a, after, before, opClass == Some(QueuePurge));
  }

  /** Only `mq.purge` is held to an empty queue, whatever the lists say. */
  lemma PurgeIgnoresLists(lists: ClassificationLists, runbook: string, arguments: seq<NamedValue>)
    ensures Classify(lists, runbook, arguments) == Some(QueuePurge) <==> runbook == "mq.purge"
  {
  }

  /** A recorded remediation therefore means that every target was seen Healthy after the start. */
  lemma RemediationWasSeen(a: ActionRun, lists: ClassificationLists, after: Snapshot, before: Option<Snapshot>, v: Verdict)
    requires VerdictFor(a, lists, after, before, v) && v.evidence in {Some(Weak), Some(Strong)}
    ensures !a.dryRun && a.intent.targets != []
    ensures MutatingRunbook(a.intent.runbook) || Classify(lists, a.intent.runbook, a.intent.arguments).None?
    ensures forall t :: t in a.intent.targets ==> HealthyIn(after, t)
    ensures v.evidence == Some(Strong) ==> exists t :: t in a.intent.targets && HealthyIn(after, t) && !WasHealthy(before, t)
  {
    MutatingIgnoresLists(lists, a.intent.runbook, a.intent.arguments);
    forall t | t in a.intent.targets ensures HealthyIn(after, t) {
      assert EffectShown(after, t, StartOf(a), a.intent.probes,
                         Classify(lists, a.intent.runbook, a.intent.arguments) == Some(QueuePurge));
    }
  }
}
