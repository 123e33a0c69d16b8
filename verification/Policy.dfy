/** Runbook classification, the authority matrix, and the decision for one proposal (src/policy.rs). */
module Policy {
  import opened Wrappers
  import opened Text

  datatype NamedValue = NamedValue(name: string, value: string)

  datatype OperationMode = Rehearsal | ContestLocked | PostContest

  datatype ResourceKind =
    | BroccoliServer | Worker | Frontend | Gateway | PrinterStation | BalloonStation | Printer
    | Redis | PostgreSql | ObjectStorage | OtherKind

  /** Controlled operation proposed by a Team; an ActionRun copies it field by field. */
  datatype Proposal = Proposal(
    runbook: string,
    targets: seq<string>,
    arguments: seq<NamedValue>,
    reason: string,
    expectedEffect: string,
    probes: seq<string>)

  datatype Authority = Auto | Approve | Deny | HumanOnly

  datatype ApprovalState = Unevaluated | NotRequired | Pending | Approved | Rejected

  function ApprovalOf(a: Authority): ApprovalState {
    match a
    case Auto => NotRequired
    case Approve => Pending
    case Deny => Rejected
    case HumanOnly => Rejected
  }

  datatype OperationClass =
    | Observe | WorkerRestart | WorkerStart | ServerRestart | FrontendRestart | StationRestart
    | DlqRequeue | QueuePurge | ConfigTunable | ConfigContest | ConfigSecurity
    | FirewallAllowKnown | FirewallDeny | WasmDeploy | BundleDeploy | Rollback
    | DbReadonly | DbMaintain | DbMigrate | DbWrite | RedisDestructive
    | StorageDestructive | StorageDaemon | MachineReboot | Shell | ModeChange
    | RedisRestart | PostgresRestart
  {
    predicate IsMutating() {
      !Observe? && !DbReadonly?
    }

    function TargetKinds(): Option<set<ResourceKind>> {
      if Observe? || FirewallAllowKnown? || FirewallDeny? || MachineReboot? || Shell? || ModeChange? then None
      else if WorkerRestart? || WorkerStart? then Some({Worker})
      else if ServerRestart? then Some({BroccoliServer})
      else if FrontendRestart? then Some({Frontend, Gateway})
      else if StationRestart? then Some({PrinterStation, BalloonStation, Printer})
      else if DlqRequeue? || QueuePurge? || RedisDestructive? || RedisRestart? then Some({Redis})
      else if ConfigTunable? || ConfigContest? || ConfigSecurity? then
        Some({BroccoliServer, Worker, Frontend, Gateway, PrinterStation, BalloonStation})
      else if WasmDeploy? || BundleDeploy? || Rollback? then Some({BroccoliServer, Frontend, Worker})
      else if StorageDestructive? || StorageDaemon? then Some({ObjectStorage})
      else Some({PostgreSql})
    }

    function Capability(): string {
      if Observe? then "observe"
      else if WorkerRestart? || WorkerStart? || ServerRestart? || FrontendRestart? || RedisRestart? || StationRestart?
      then "operate.restart"
      else if DlqRequeue? || QueuePurge? || RedisDestructive? then "operate.queue"
      else if ConfigTunable? || ConfigContest? || ConfigSecurity? then "operate.config"
      else if FirewallAllowKnown? || FirewallDeny? then "operate.firewall"
      else if WasmDeploy? || BundleDeploy? || Rollback? then "operate.deploy"
      else if StorageDestructive? || StorageDaemon? then "operate.storage"
      else if MachineReboot? then "operate.machine"
      else if Shell? then "operate.shell"
      else if ModeChange? then "operate.mode"
      else "operate.database"
    }

    /** One row of the matrix; the mode selects the column. */
    function AuthorityIn(mode: OperationMode): Authority {
      if Observe? || WorkerRestart? || StationRestart? || DbReadonly? then Auto
      else if ModeChange? then HumanOnly
      else if Shell? then Deny
      else if FirewallDeny? || StorageDaemon? || MachineReboot? then Approve
      else if DbWrite? then if mode.PostContest? then Approve else Deny
      else if QueuePurge? || ConfigContest? || WasmDeploy? || BundleDeploy?
              || DbMigrate? || RedisDestructive? || StorageDestructive?
      then if mode.ContestLocked? then Deny else Approve
      else if ConfigSecurity? then if mode.ContestLocked? then Deny else Approve
      else if mode.ContestLocked? then Approve else Auto
    }
  }

  /** Operator lists; they may be edited between two decisions. */
  datatype ClassificationLists = ClassificationLists(
    tunableKeys: seq<string>, contestKeys: seq<string>, securityKeys: seq<string>,
    knownPrefixes: seq<string>)

  /** The runbooks whose class depends on nothing but their name. */
  function FixedRunbook(runbook: string): Option<OperationClass> {
    if runbook in {"service.status", "log.tail", "redis.ping", "redis.info", "storage.check", "infra.resources", "app.health"}
    then Some(Observe)
    else if runbook in {"postgres.check", "postgres.locks", "db.query_readonly"} then Some(DbReadonly)
    else if runbook in {"redis.restart", "redis.start"} then Some(RedisRestart)
    else if runbook in {"postgres.start", "postgres.restart"} then Some(PostgresRestart)
    else if runbook in {"storage.start", "storage.restart", "storage.remount", "ceph.restart_daemon"} then Some(StorageDaemon)
    else if runbook == "worker.restart" then Some(WorkerRestart)
    else if runbook == "worker.start" then Some(WorkerStart)
    else if runbook == "server.restart" then Some(ServerRestart)
    else if runbook in {"frontend.restart", "gateway.reload"} then Some(FrontendRestart)
    else if runbook == "station.restart" then Some(StationRestart)
    else if runbook == "mq.dlq_requeue" then Some(DlqRequeue)
    else if runbook == "mq.purge" then Some(QueuePurge)
    else if runbook in {"ufw.deny", "ufw.delete"} then Some(FirewallDeny)
    else if runbook == "wasm.install" then Some(WasmDeploy)
    else if runbook == "bundle.install" then Some(BundleDeploy)
    else if runbook in {"bundle.rollback", "wasm.rollback"} then Some(Rollback)
    else if runbook == "db.maintain" then Some(DbMaintain)
    else if runbook == "db.migrate" then Some(DbMigrate)
    else if runbook in {"redis.flush", "redis.del"} then Some(RedisDestructive)
    else if runbook == "storage.delete" then Some(StorageDestructive)
    else if runbook == "machine.reboot" then Some(MachineReboot)
    else if runbook == "mode.set" then Some(ModeChange)
    else None
  }

  /** The first argument of that name; the empty text when there is none. */
  function ArgumentOrEmpty(arguments: seq<NamedValue>, name: string): string {
    if arguments == [] then ""
    else if arguments[0].name == name then arguments[0].value
    else ArgumentOrEmpty(arguments[1..], name)
  }

  function Classify(lists: ClassificationLists, runbook: string, arguments: seq<NamedValue>): Option<OperationClass> {
    if runbook == "config.set" then
      var key := ArgumentOrEmpty(arguments, "key");
      Some(if key in lists.securityKeys then ConfigSecurity
           else if key in lists.tunableKeys then ConfigTunable
           else ConfigContest)
    else if runbook == "ufw.allow" then
      var address := ArgumentOrEmpty(arguments, "address");
      Some(if exists p :: p in lists.knownPrefixes && p != "" && p <= address
           then FirewallAllowKnown else FirewallDeny)
    else FixedRunbook(runbook)
  }

  predicate ClassifiesMutating(lists: ClassificationLists, runbook: string, arguments: seq<NamedValue>) {
    var opClass := Classify(lists, runbook, arguments);
    opClass.Some? && opClass.value.IsMutating()
  }

  /** The runbook names alone that change machine state. */
  predicate MutatingRunbook(runbook: string) {
    || runbook == "config.set" || runbook == "ufw.allow"
    || (FixedRunbook(runbook).Some? && FixedRunbook(runbook).value !in {Observe, DbReadonly})
  }

  /** Operators may edit their lists between the run and the reconciliation: whether an action counts
      as a mutation is decided by the runbook name, never by the lists or the arguments. */
  lemma MutatingIgnoresLists(lists: ClassificationLists, runbook: string, arguments: seq<NamedValue>)
    ensures ClassifiesMutating(lists, runbook, arguments) <==> MutatingRunbook(runbook)
  {
    if runbook != "config.set" && runbook != "ufw.allow" {
      assert Classify(lists, runbook, arguments) == FixedRunbook(runbook);
    }
  }

  predicate IsMetacharacter(c: char) { c in {';', '|', '&', '`', '$', '\n', '>', '<'} }

  predicate TakesNoArguments(runbook: string) {
    runbook in {"redis.info", "redis.ping", "redis.restart", "redis.start",
                "postgres.check", "postgres.locks", "postgres.start", "postgres.restart",
                "storage.check", "storage.start", "storage.restart", "infra.resources", "app.health"}
  }

  function RequiredArguments(runbook: string): set<string> {
    if runbook == "config.set" then {"key", "value"}
    else if runbook in {"ufw.allow", "ufw.deny", "ufw.delete"} then {"address"}
    else if runbook == "redis.del" then {"key"}
    else if runbook == "storage.delete" then {"object"}
    else if runbook == "db.query_readonly" then {"statement"}
    else {}
  }

  predicate ValidArguments(runbook: string, arguments: seq<NamedValue>) {
    && (TakesNoArguments(runbook) ==> arguments == [])
    && (forall r :: r in RequiredArguments(runbook) ==>
          exists k :: 0 <= k < |arguments| && arguments[k].name == r && !IsBlank(arguments[k].value))
    && (forall k, c :: 0 <= k < |arguments| && c in arguments[k].value ==> !IsMetacharacter(c))
  }

  function TargetKindsFor(runbook: string, opClass: OperationClass): Option<set<ResourceKind>> {
    if runbook in {"redis.ping", "redis.info"} then Some({Redis})
    else if runbook == "storage.check" then Some({ObjectStorage})
    else if runbook == "infra.resources" then Some({PostgreSql, Redis, ObjectStorage})
    else if runbook == "app.health" then Some({BroccoliServer, Frontend})
    else opClass.TargetKinds()
  }

  datatype AuthorityPolicy = AuthorityPolicy(lists: ClassificationLists, catalog: map<string, ResourceKind>)

  /** What a Job was granted. */
  datatype Scope = Scope(capabilities: seq<string>, targets: seq<string>)

  predicate TargetInScope(policy: AuthorityPolicy, p: Proposal, opClass: OperationClass, scope: Scope, target: string) {
    && target in scope.targets
    && target in policy.catalog
    && var kinds := TargetKindsFor(p.runbook, opClass);
       kinds.None? || policy.catalog[target] in kinds.value
  }

  predicate InScope(policy: AuthorityPolicy, p: Proposal, opClass: OperationClass, scope: Scope) {
    && p.targets != []
    && opClass.Capability() in scope.capabilities
    && (forall t :: t in p.targets ==> TargetInScope(policy, p, opClass, scope, t))
    && ValidArguments(p.runbook, p.arguments)
  }

  datatype Decision = Decision(opClass: Option<OperationClass>, approval: ApprovalState)

  /** The matrix row after scope checks and the repeat-rate escalation. */
  function Decide(policy: AuthorityPolicy, p: Proposal, scope: Scope, mode: OperationMode, repeated: bool): Decision {
    var opClass := Classify(policy.lists, p.runbook, p.arguments);
    if opClass.None? then Decision(None, Rejected)
    else if !InScope(policy, p, opClass.value, scope) then Decision(opClass, Rejected)
    else
      var base := opClass.value.AuthorityIn(mode);
      Decision(opClass, ApprovalOf(if base.Auto? && repeated then Approve else base))
  }

  /** Inside the Job's grant, with targets of the right kind and valid arguments, and of a class that is
      automatic in the mode: all of it by the lists and the catalog of that policy. */
  predicate GrantedBy(policy: AuthorityPolicy, p: Proposal, scope: Scope, mode: OperationMode) {
    var opClass := Classify(policy.lists, p.runbook, p.arguments);
    opClass.Some? && InScope(policy, p, opClass.value, scope) && opClass.value.AuthorityIn(mode).Auto?
  }

  /** What "no human was asked" means in a store that does not say under which policy it was decided. */
  ghost predicate AutomaticFor(p: Proposal, scope: Scope, mode: OperationMode) {
    exists policy :: GrantedBy(policy, p, scope, mode)
  }

  /** The policy never approves in anybody's name; it asks nobody exactly for a proposal that it grants and
      that is no repeat, and whatever it does not refuse stays inside
      the Job's targets. */
  lemma NotRequiredIsAutomatic(policy: AuthorityPolicy, p: Proposal, scope: Scope, mode: OperationMode, repeated: bool)
    ensures var d := Decide(policy, p, scope, mode, repeated);
            && d.approval in {NotRequired, Pending, Rejected}
            && (d.approval == NotRequired <==> !repeated && GrantedBy(policy, p, scope, mode))
            && (d.approval == NotRequired ==> AutomaticFor(p, scope, mode))
            && (d.approval != Rejected ==> p.targets != [] && (forall t :: t in p.targets ==> t in scope.targets))
  {
    if Decide(policy, p, scope, mode, repeated).approval != Rejected {
      forall t | t in p.targets ensures t in scope.targets {
        assert TargetInScope(policy, p, Classify(policy.lists, p.runbook, p.arguments).value, scope, t);
      }
    }
  }
}
