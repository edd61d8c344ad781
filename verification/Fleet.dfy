/**
Operations and the tasks that carry them out: dispatch, the claim gate and the fleet callback
(internal/api/handlers_fleet.go, internal/api/handlers_tasks.go, internal/database/operations.go).

Dispatch is modelled write by write, because a worker can claim and finish a task while the handler
that published it is still running. One turn of the claim loop and one callback are one step each.
*/
module Fleet {
  import opened Wrappers
  import opened Capacity
  import opened Resize
  import Q = Queue

  type OpId = string
  type InstanceId = string
  type Host = string
  type NodeId = string
  type TaskId = string

  datatype Action =
    | ProvisionApp | StartApp | ResumeApp | ReactivateApp | StopApp | PauseApp | PauseAppStorage | ResizeApp
    | DeprovisionApp | RestoreBackup | InspectApp | BackupDatabase | BackupVolumes | DeleteBackup | TestStorage

  datatype OpStatus = PendingDispatch | Queued | InProgress | OpSucceeded | OpFailed | OpCancelled

  predicate Terminal(s: OpStatus) { s.OpSucceeded? || s.OpFailed? || s.OpCancelled? }

  /** migrationStep is blank unless the operation was dispatched by a migration. */
  datatype Operation = Operation(
    instance: InstanceId, node: NodeId, task: TaskId, action: Action, status: OpStatus, migrationStep: string,
    resizeTarget: Option<Tier>)

  predicate Suboperation(op: Operation) { op.migrationStep != "" }

  /** The payload of a queued command. */
  datatype Task = Task(operation: OpId, instance: InstanceId, node: NodeId, action: Action)

  datatype Instance = Instance(
    node: Option<NodeId>, tech: string, commercial: string, needRestarting: bool, setupCompleted: bool, tier: Tier,
    inspected: string)

  datatype RouteStatus = Pending | Active | Failed | Disabled
  datatype Route = Route(instance: InstanceId, status: RouteStatus)

  /** A callback as decoded; evidenceValid and portsSaved are the outcomes of the checks it is put through. */
  datatype Result = Result(
    operation: OpId, task: TaskId, node: NodeId, success: bool, error: string,
    evidenceValid: bool, portsSaved: bool, hasSetup: bool, setupFailed: bool, target: Option<Tier>, inspected: string)

  /**
  What a callback finds: the tiers of the definition, the policy rule and the clock; recomputed says whether
  policy writes succeed.
  */
  datatype Setting = Setting(defined: seq<Tier>, limits: Limits, now: int, recomputed: bool)

  /** What callbacks change besides operations and commands. */
  datatype Site = Site(instances: map<InstanceId, Instance>, nodes: map<NodeId, Node>, routes: map<Host, Route>)

  // ---- Effects of an accepted callback ----

  predicate Restarts(a: Action) { a.StartApp? || a.ResumeApp? || a.ReactivateApp? }

  /** A reported success counts only with image evidence and, in a migration, with the ports stored. */
  predicate Succeeds(op: Operation, r: Result) {
    && r.success
    && (Restarts(op.action) ==> r.evidenceValid)
    && (Suboperation(op) && (op.action.StartApp? || op.action.ResumeApp?) ==> r.portsSaved)
  }

  function WithInstance(s: Site, i: InstanceId, inst: Instance): Site { s.(instances := s.instances[i := inst]) }

  /** ReleaseNodeCommitment of an instance's tier on its node, skipped for a tier without resources. */
  function ReleaseTier(s: Site, i: InstanceId, at: Setting): Site {
    if i in s.instances && s.instances[i].node.Some? && s.instances[i].tier.size.Positive()
        && s.instances[i].node.value in s.nodes
    then
      var n := s.instances[i].node.value;
      var row := Release(s.nodes[n], s.instances[i].tier.size);
      s.(nodes := s.nodes[n := Refreshed(row, at.limits, at.now, at.recomputed)])
    else s
  }

  function ActivateRoutes(s: Site, i: InstanceId): Site {
    s.(routes := map h | h in s.routes ::
        if s.routes[h].instance == i && !s.routes[h].status.Disabled?
        then s.routes[h].(status := Active) else s.routes[h])
  }

  function FailRoutes(s: Site, i: InstanceId): Site {
    s.(routes := map h | h in s.routes ::
        if s.routes[h].instance == i then s.routes[h].(status := Failed) else s.routes[h])
  }

  function DeleteRoutes(s: Site, i: InstanceId): Site {
    s.(routes := map h | h in s.routes && s.routes[h].instance != i :: s.routes[h])
  }

  /** handleResizeCallback */
  function SettleResize(s: Site, op: Operation, r: Result, success: bool, at: Setting): Site {
    if r.target.None? || op.instance !in s.instances || s.instances[op.instance].node.None? then s
    else
      var inst := s.instances[op.instance];
      var n := inst.node.value;
      var target := if success then ResolvedTarget(op.resizeTarget, r.target.value, at.defined) else r.target;
      if target.None? then s
      else
        var t := if success then WithInstance(s, op.instance, inst.(tier := target.value)) else s;
        var back := Resize.Back(inst.tier.size, target.value.size, success);
        if n in s.nodes && Grows(back)
        then t.(nodes := t.nodes[n := Refreshed(Release(t.nodes[n], back), at.limits, at.now, at.recomputed)]) else t
  }

  /** The technical status a callback moves the instance to, if any. */
  function NextTech(op: Operation, r: Result, success: bool): string {
    if success then
      match op.action
      case ProvisionApp | StartApp | ResumeApp | ReactivateApp | ResizeApp | BackupDatabase | BackupVolumes => "running"
      case StopApp | PauseApp => "stopped"
      case PauseAppStorage => "paused_for_storage"
      case RestoreBackup => "paused"
      case _ => ""
    else if op.action.BackupDatabase? || op.action.BackupVolumes? then "running"
    else if op.action.RestoreBackup? then "paused"
    else if op.action.ProvisionApp? && r.setupFailed then "setup_failed"
    else "failed"
  }

  /** Removal of an instance: it is settled as deprovisioned, or kept as a failed setup, and its routes go. */
  function SettleDeprovision(s: Site, op: Operation, at: Setting): Site {
    if op.instance !in s.instances then DeleteRoutes(s, op.instance)
    else
      var inst := s.instances[op.instance];
      if inst.tech == "setup_failed" then
        DeleteRoutes(WithInstance(s, op.instance, inst.(commercial := "cancelled")), op.instance)
      else
        var gone := WithInstance(s, op.instance, inst.(commercial := "cancelled", tech := "deprovisioned"));
        DeleteRoutes(ReleaseTier(gone, op.instance, at), op.instance)
  }

  function SetTech(s: Site, i: InstanceId, tech: string): Site {
    if i in s.instances then WithInstance(s, i, s.instances[i].(tech := tech)) else s
  }

  function CancelContract(s: Site, i: InstanceId): Site {
    if i in s.instances then WithInstance(s, i, s.instances[i].(commercial := "cancelled")) else s
  }

  function NoteSetup(s: Site, i: InstanceId, hasSetup: bool): Site {
    if i in s.instances
    then WithInstance(s, i, s.instances[i].(setupCompleted := s.instances[i].setupCompleted || hasSetup)) else s
  }

  function ClearRestart(s: Site, i: InstanceId): Site {
    if i in s.instances then WithInstance(s, i, s.instances[i].(needRestarting := false)) else s
  }

  function NoteInspection(s: Site, i: InstanceId, data: string): Site {
    if i in s.instances then WithInstance(s, i, s.instances[i].(inspected := data)) else s
  }

  /** The branch of the callback for a task that succeeded. */
  function SettleSuccess(s: Site, op: Operation, r: Result, at: Setting): Site {
    match op.action
    case ProvisionApp =>
      if Suboperation(op) then s
      else ActivateRoutes(NoteSetup(s, op.instance, r.hasSetup), op.instance)
    case StartApp | ResumeApp | ReactivateApp =>
      if Suboperation(op) then s
      else ActivateRoutes(ClearRestart(s, op.instance), op.instance)
    case ResizeApp => SettleResize(s, op, r, true, at)
    case DeprovisionApp => if Suboperation(op) then s else SettleDeprovision(s, op, at)
    case InspectApp => if r.inspected == "" then s else NoteInspection(s, op.instance, r.inspected)
    case _ => s
  }

  /** The branch for a task that failed. */
  function SettleFailure(s: Site, op: Operation, r: Result, at: Setting): Site {
    match op.action
    case ProvisionApp =>
      if Suboperation(op) then s
      else
        var t := if r.setupFailed then CancelContract(s, op.instance) else s;
        FailRoutes(ReleaseTier(t, op.instance, at), op.instance)
    case ResizeApp => SettleResize(s, op, r, false, at)
    case _ => s
  }

  /** Everything an accepted callback does to the site. */
  function Settle(s: Site, op: Operation, r: Result, at: Setting): Site {
    var success := Succeeds(op, r);
    var t := if success then SettleSuccess(s, op, r, at) else SettleFailure(s, op, r, at);
    var next := NextTech(op, r, success);
    if next != "" && !op.action.DeprovisionApp? && !Suboperation(op) then SetTech(t, op.instance, next) else t
  }

  /** The actions that the migration coordinator dispatches. */
  predicate DispatchedByMigration(a: Action) {
    a.PauseApp? || a.ProvisionApp? || a.ResumeApp? || a.StartApp? || a.DeprovisionApp? || a.RestoreBackup?
    || a.BackupDatabase? || a.BackupVolumes?
  }

  /**
  The callback of a migration's sub-operation leaves instances, node commitments and routes exactly
  as they were, for either outcome. Of all actions, only a resize or an inspection could do otherwise.
  */
  lemma SuboperationCallbackInert(s: Site, op: Operation, r: Result, at: Setting)
    requires Suboperation(op)
    ensures DispatchedByMigration(op.action) ==> Settle(s, op, r, at) == s
    ensures Settle(s, op, r, at) != s ==> op.action.ResizeApp? || op.action.InspectApp?
  {
  }

  /** The node that the callback of this operation may give capacity back on. */
  function HostOf(s: Site, op: Operation): Option<NodeId> {
    if op.instance in s.instances then s.instances[op.instance].node else None
  }

  /**
  From s to q only instance i, the counters and policy of its host and its routes change; the instance stays
  where it is.
  */
  predicate Only(s: Site, q: Site, i: InstanceId, host: Option<NodeId>) {
    && q.instances.Keys == s.instances.Keys && q.nodes.Keys == s.nodes.Keys && q.routes.Keys <= s.routes.Keys
    && (forall j :: j in s.instances && j != i ==> q.instances[j] == s.instances[j])
    && (i in s.instances ==> q.instances[i].node == s.instances[i].node)
    && (forall n :: n in s.nodes ==> SamePlace(s.nodes[n], q.nodes[n]))
    && (forall n :: n in s.nodes && host != Some(n) ==> q.nodes[n] == s.nodes[n])
    && (forall h :: h in s.routes && s.routes[h].instance != i ==> h in q.routes && q.routes[h] == s.routes[h])
    && (forall h :: h in q.routes ==> q.routes[h].instance == s.routes[h].instance)
  }

  lemma OnlyTransitive(s: Site, q: Site, t: Site, i: InstanceId, host: Option<NodeId>)
    requires Only(s, q, i, host) && Only(q, t, i, host)
    ensures Only(s, t, i, host)
  {
  }

  lemma RoutesOnly(s: Site, i: InstanceId, host: Option<NodeId>)
    ensures Only(s, ActivateRoutes(s, i), i, host) && Only(s, FailRoutes(s, i), i, host)
    ensures Only(s, DeleteRoutes(s, i), i, host)
  {
  }

  lemma ColumnOnly(s: Site, i: InstanceId, inst: Instance, host: Option<NodeId>)
    ensures Only(s, s, i, host)
    ensures i in s.instances && inst.node == s.instances[i].node ==> Only(s, WithInstance(s, i, inst), i, host)
  {
  }

  lemma ReleaseOnly(s: Site, op: Operation, at: Setting)
    ensures Only(s, ReleaseTier(s, op.instance, at), op.instance, HostOf(s, op))
  {
    hide Size.Positive, HealthReasons, AvailabilityReasons;
  }

  lemma ResizeOnly(s: Site, op: Operation, r: Result, success: bool, at: Setting)
    ensures Only(s, SettleResize(s, op, r, success, at), op.instance, HostOf(s, op))
  {
    hide ResolvedTarget, Growth, Grows, HealthReasons, AvailabilityReasons;
  }

  lemma ColumnsOnly(s: Site, i: InstanceId, host: Option<NodeId>, text: string, flag: bool)
    ensures Only(s, s, i, host) && Only(s, SetTech(s, i, text), i, host) && Only(s, CancelContract(s, i), i, host)
    ensures Only(s, NoteSetup(s, i, flag), i, host) && Only(s, ClearRestart(s, i), i, host)
    ensures Only(s, NoteInspection(s, i, text), i, host)
  {
    hide Only, WithInstance;
    if i in s.instances {
      var x := s.instances[i];
      ColumnOnly(s, i, x.(tech := text), host);
      ColumnOnly(s, i, x.(commercial := "cancelled"), host);
      ColumnOnly(s, i, x.(setupCompleted := x.setupCompleted || flag), host);
      ColumnOnly(s, i, x.(needRestarting := false), host);
      ColumnOnly(s, i, x.(inspected := text), host);
    } else {
      ColumnOnly(s, i, Instance(None, "", "", false, false, Tier("", Size(0, 0)), ""), host);
    }
  }

  lemma DeprovisionOnly(s: Site, op: Operation, at: Setting)
    ensures Only(s, SettleDeprovision(s, op, at), op.instance, HostOf(s, op))
  {
    hide Only, ReleaseTier, DeleteRoutes;
    var i, host := op.instance, HostOf(s, op);
    RoutesOnly(s, i, host);
    if i in s.instances {
      var x := s.instances[i];
      var kept := WithInstance(s, i, x.(commercial := "cancelled"));
      var gone := WithInstance(s, i, x.(commercial := "cancelled", tech := "deprovisioned"));
      ColumnOnly(s, i, x.(commercial := "cancelled"), host);
      ColumnOnly(s, i, x.(commercial := "cancelled", tech := "deprovisioned"), host);
      RoutesOnly(kept, i, host);
      OnlyTransitive(s, kept, DeleteRoutes(kept, i), i, host);
      ReleaseOnly(gone, op, at);
      var released := ReleaseTier(gone, i, at);
      OnlyTransitive(s, gone, released, i, host);
      RoutesOnly(released, i, host);
      OnlyTransitive(s, released, DeleteRoutes(released, i), i, host);
    }
  }

  lemma SuccessOnly(s: Site, op: Operation, r: Result, at: Setting)
    ensures Only(s, SettleSuccess(s, op, r, at), op.instance, HostOf(s, op))
  {
    hide Only, SettleResize, SettleDeprovision, ActivateRoutes, NoteSetup, ClearRestart, NoteInspection, HostOf;
    var i, host := op.instance, HostOf(s, op);
    ColumnsOnly(s, i, host, r.inspected, r.hasSetup);
    RoutesOnly(NoteSetup(s, i, r.hasSetup), i, host);
    RoutesOnly(ClearRestart(s, i), i, host);
    OnlyTransitive(s, NoteSetup(s, i, r.hasSetup), ActivateRoutes(NoteSetup(s, i, r.hasSetup), i), i, host);
    OnlyTransitive(s, ClearRestart(s, i), ActivateRoutes(ClearRestart(s, i), i), i, host);
    ResizeOnly(s, op, r, true, at);
    DeprovisionOnly(s, op, at);
  }

  lemma FailureOnly(s: Site, op: Operation, r: Result, at: Setting)
    ensures Only(s, SettleFailure(s, op, r, at), op.instance, HostOf(s, op))
  {
    hide Only, SettleResize, ReleaseTier, FailRoutes, CancelContract;
    var i, host := op.instance, HostOf(s, op);
    ColumnsOnly(s, i, host, "", false);
    var t := if r.setupFailed then CancelContract(s, i) else s;
    SameHost(s, t, op);
    ReleaseOnly(t, op, at);
    OnlyTransitive(s, t, ReleaseTier(t, i, at), i, host);
    RoutesOnly(ReleaseTier(t, i, at), i, host);
    OnlyTransitive(s, ReleaseTier(t, i, at), FailRoutes(ReleaseTier(t, i, at), i), i, host);
    ResizeOnly(s, op, r, false, at);
  }

  lemma SameHost(s: Site, t: Site, op: Operation)
    requires Only(s, t, op.instance, HostOf(s, op))
    ensures HostOf(t, op) == HostOf(s, op)
  {
  }

  /**
  A callback touches its own instance, the counters and policy of that instance's node and its routes, and
  nothing else.
  */
  lemma SettleFrame(s: Site, op: Operation, r: Result, at: Setting)
    ensures Only(s, Settle(s, op, r, at), op.instance, HostOf(s, op))
  {
    hide Only, SettleSuccess, SettleFailure, SetTech, Succeeds, NextTech;
    var i, host := op.instance, HostOf(s, op);
    SuccessOnly(s, op, r, at);
    FailureOnly(s, op, r, at);
    var t := if Succeeds(op, r) then SettleSuccess(s, op, r, at) else SettleFailure(s, op, r, at);
    var next := NextTech(op, r, Succeeds(op, r));
    ColumnsOnly(t, i, host, next, false);
    OnlyTransitive(s, t, SetTech(t, i, next), i, host);
  }

  lemma FailedProvisionReleases(s: Site, op: Operation, r: Result, at: Setting, n: NodeId)
    requires op.action.ProvisionApp? && !Suboperation(op) && !r.success && op.instance in s.instances
    requires s.instances[op.instance].node == Some(n) && n in s.nodes && s.instances[op.instance].tier.size.Positive()
    ensures var q := Settle(s, op, r, at);
            && n in q.nodes && q.nodes[n].committed == Release(s.nodes[n], s.instances[op.instance].tier.size).committed
            && op.instance in q.instances && q.instances[op.instance].node == Some(n)
            && q.instances[op.instance].tier == s.instances[op.instance].tier
            && q.instances[op.instance].tech == if r.setupFailed then "setup_failed" else "failed"
  {
    hide Release, Size.Positive, HealthReasons, AvailabilityReasons;
  }

  lemma RemovalReleases(s: Site, op: Operation, r: Result, at: Setting, n: NodeId)
    requires op.action.DeprovisionApp? && !Suboperation(op) && r.success && op.instance in s.instances
    requires s.instances[op.instance].node == Some(n) && n in s.nodes && s.instances[op.instance].tier.size.Positive()
    ensures var q := Settle(s, op, r, at);
            n in q.nodes && q.nodes[n].committed ==
              if s.instances[op.instance].tech == "setup_failed" then s.nodes[n].committed
              else Release(s.nodes[n], s.instances[op.instance].tier.size).committed
  {
    hide Release, Size.Positive, HealthReasons, AvailabilityReasons;
  }

  /** Only the technical status of the instance was written between the two sites. */
  predicate StatusWritten(s: Site, t: Site, i: InstanceId) {
    i in s.instances && i in t.instances && t == SetTech(s, i, t.instances[i].tech)
  }

  /**
  Node counters are no ledger of live instances. After a failed provisioning the tier has been given
  back; a later removal gives it back again, except exactly when the stored status is still
  "setup_failed" when the removal's callback arrives.
  */
  lemma RemovedAfterFailure(s: Site, provision: Operation, failed: Result, before: Setting,
                            t: Site, removal: Operation, done: Result, at: Setting, n: NodeId)
    requires provision.action.ProvisionApp? && !Suboperation(provision) && !failed.success
    requires removal.action.DeprovisionApp? && !Suboperation(removal) && done.success
    requires removal.instance == provision.instance && provision.instance in s.instances && n in s.nodes
    requires var inst := s.instances[provision.instance];
             inst.node == Some(n) && inst.tier.size.Positive()
                 && inst.tier.size.Plus(inst.tier.size).AtMost(s.nodes[n].committed)
    requires StatusWritten(Settle(s, provision, failed, before), t, provision.instance)
    ensures var size := s.instances[provision.instance].tier.size;
            var after := Settle(t, removal, done, at);
            && n in after.nodes
            && after.nodes[n].committed in {s.nodes[n].committed.Minus(size),
                s.nodes[n].committed.Minus(size).Minus(size)}
            && (after.nodes[n].committed == s.nodes[n].committed.Minus(size) <==>
                t.instances[provision.instance].tech == "setup_failed")
  {
    hide Settle;
    FailedProvisionReleases(s, provision, failed, before, n);
    RemovalReleases(t, removal, done, at, n);
    ReleasesDiffer(Settle(s, provision, failed, before).nodes[n], s.nodes[n],
        s.instances[provision.instance].tier.size);
  }

  lemma ReleasesDiffer(m: Node, n: Node, size: Size)
    requires size.Positive() && size.Plus(size).AtMost(n.committed) && m.committed == Release(n, size).committed
    ensures m.committed == n.committed.Minus(size) && Release(m, size).committed == n.committed.Minus(size).Minus(size)
    ensures n.committed.Minus(size) != n.committed.Minus(size).Minus(size)
  {
  }

  // ---- The protocol ----

  /** How far the dispatch of an operation has come. Failing: storing the task ID or publishing reported an error. */
  datatype Phase = Created | Stored | Published | Dispatched | Failing | Abandoned

  /** handed, effects and refused are history: operations handed to a worker, and per operation how often
      callback effects were applied and how often the status write beside them was refused. */
  datatype Ledger = Ledger(
    ops: map<OpId, Operation>, phase: map<OpId, Phase>, tasks: map<TaskId, Task>,
    handed: set<OpId>, effects: map<OpId, nat>, refused: map<OpId, nat>)

  datatype Plane = Plane(ledger: Ledger, commands: Q.Table, site: Site)

  /** What can go wrong in a turn of the claim loop: a lookup fails, or the cancellation of a stale task does. */
  datatype Trouble = Trouble(lookupFails: bool, cancel: Reply)

  datatype Event =
    | Create(op: OpId, row: Operation)
    | StoreTask(op: OpId, task: TaskId, reply: Reply)
    | Publish(op: OpId, reply: Reply, now: int)
    | MarkQueued(op: OpId, reply: Reply)
    | FailDispatch(op: OpId, failsInstance: bool, reply: Reply)
    | Request(instance: InstanceId, action: Action, reply: Reply)
    | Claim(node: NodeId, pick: Option<TaskId>, trouble: Trouble, now: int)
    | Report(result: Result, authentic: bool, at: Setting, queue: Reply, reply: Reply)
    | QueueEvent(event: Q.Event)

  /** Why a claimed task is no longer eligible; none means that it is handed out. */
  function StaleReason(task: TaskId, payload: Task, op: Option<Operation>, node: NodeId): Option<string> {
    if op.None? then Some("operation no longer exists")
    else if Terminal(op.value.status) then Some("operation is terminal")
    else if op.value.instance != payload.instance then Some("task instance does not match operation")
    else if op.value.node != "" && op.value.node != node then Some("operation is assigned to another node")
    else if payload.node != "" && payload.node != node then Some("task is assigned to another node")
    else if op.value.action != payload.action then Some("task action does not match operation")
    else if op.value.task == "" then Some("operation task ID is missing")
    else if task == "" then Some("claimed task ID is missing")
    else if op.value.task != task then Some("task was replaced by a newer operation task")
    else None
  }

  /** The instance check that follows. */
  function InstanceReason(payload: Task, instances: map<InstanceId, Instance>): Option<string> {
    if payload.action.TestStorage? then None
    else if payload.instance !in instances then Some("instance no longer exists")
    else if instances[payload.instance].tech == "deprovisioned" && !payload.action.DeleteBackup?
    then Some("instance is already deprovisioned")
    else None
  }

  /** Why a claim of this task by the node hands nothing out. */
  function Refusal(l: Ledger, instances: map<InstanceId, Instance>, t: TaskId, node: NodeId): Option<string> {
    if t !in l.tasks then Some("task payload is missing")
    else
      var payload := l.tasks[t];
      var op := if payload.operation in l.ops then Some(l.ops[payload.operation]) else None;
      var stale := StaleReason(t, payload, op, node);
      if stale.Some? then stale else InstanceReason(payload, instances)
  }

  function WithStatus(ops: map<OpId, Operation>, o: OpId, status: OpStatus): map<OpId, Operation>
    requires o in ops
  {
    ops[o := ops[o].(status := status)]
  }

  predicate Matches(op: Operation, r: Result) {
    (op.node == "" || op.node == r.node) && (op.task == "" || op.task == r.task)
  }

  function Count(m: map<OpId, nat>, o: OpId): nat { if o in m then m[o] else 0 }

  function Bump(m: map<OpId, nat>, o: OpId): map<OpId, nat> { m[o := Count(m, o) + 1] }

  /** The callback gets past the duplicate check. */
  predicate Open(l: Ledger, r: Result, authentic: bool) {
    authentic && r.operation in l.ops && !Terminal(l.ops[r.operation].status)
  }

  /** Operations after a callback; reply is the fate of its status write. */
  function LedgerAfterReport(l: Ledger, r: Result, authentic: bool, reply: Reply): Ledger {
    if !Open(l, r, authentic) then l
    else
      var op := l.ops[r.operation];
      var ok := Matches(op, r) && Succeeds(op, r);
      l.(ops := if reply.Applied() then WithStatus(l.ops, r.operation, if ok then OpSucceeded else OpFailed) else l.ops,
         effects := if Matches(op, r) then Bump(l.effects, r.operation) else l.effects,
         refused := if Matches(op, r) && !reply.Applied() then Bump(l.refused, r.operation) else l.refused)
  }

  function Complete(q: Q.Table, t: TaskId, success: bool, error: string, now: int): Q.Table {
    if t == "" then q else Q.Apply(q, Q.Complete(t, success, error, now))
  }

  /** Commands after a callback; queue is the fate of its write to the queue. */
  function CommandsAfterReport(l: Ledger, q: Q.Table, r: Result, authentic: bool, queue: Reply, now: int): Q.Table {
    if queue.Refused? then q
    else if !authentic then Complete(q, r.task, false, "callback node_id does not match authenticated node", now)
    else if r.operation !in l.ops then Complete(q, r.task, false, "callback references an unknown operation", now)
    else
      var op := l.ops[r.operation];
      if op.status.OpSucceeded? then Q.Apply(q, Q.Acknowledge(r.task, r.node, now))
      else if Terminal(op.status) then Q.Apply(q, Q.CancelTask(r.task, r.node, "operation is terminal", now))
      else if !Matches(op, r) then Complete(q, op.task, false, "callback does not match operation", now)
      else Q.Apply(q, Q.Complete(r.task, Succeeds(op, r), r.error, now))
  }

  /** HandleFleetCallback */
  function AfterReport(p: Plane, r: Result, authentic: bool, at: Setting, queue: Reply, reply: Reply): Plane {
    Plane(LedgerAfterReport(p.ledger, r, authentic, reply),
          CommandsAfterReport(p.ledger, p.commands, r, authentic, queue, at.now),
          if Open(p.ledger, r, authentic) && Matches(p.ledger.ops[r.operation], r)
          then Settle(p.site, p.ledger.ops[r.operation], r, at) else p.site)
  }

  /** A callback that is not authentic or names no operation only fails the command it names. */
  lemma StrayReport(p: Plane, r: Result, authentic: bool, at: Setting, queue: Reply, reply: Reply)
    requires !authentic || r.operation !in p.ledger.ops
    ensures var reason := if !authentic then "callback node_id does not match authenticated node"
            else "callback references an unknown operation";
            AfterReport(p, r, authentic, at, queue, reply) ==
            p.(commands := if queue.Refused? then p.commands else Complete(p.commands, r.task, false, reason, at.now))
  {
  }

  /** A callback for a settled operation only settles its command. */
  lemma DuplicateReport(p: Plane, r: Result, at: Setting, queue: Reply, reply: Reply)
    requires r.operation in p.ledger.ops && Terminal(p.ledger.ops[r.operation].status)
    ensures AfterReport(p, r, true, at, queue, reply) ==
            p.(commands := if queue.Refused? then p.commands
                           else Q.Apply(p.commands,
                                        if p.ledger.ops[r.operation].status.OpSucceeded?
                                        then Q.Acknowledge(r.task, r.node, at.now)
                                                    else Q.CancelTask(r.task, r.node, "operation is terminal", at.now)))
  {
  }

  /** Whatever a callback says, it creates, dispatches and hands out nothing. */
  lemma ReportKeeps(l: Ledger, r: Result, authentic: bool, reply: Reply)
    ensures var m := LedgerAfterReport(l, r, authentic, reply);
            && m.ops.Keys == l.ops.Keys && m.phase == l.phase && m.tasks == l.tasks && m.handed == l.handed
            && m.effects.Keys <= l.effects.Keys + {r.operation} && m.refused.Keys <= l.refused.Keys + {r.operation}
  {
    hide Succeeds, Matches;
  }

  /** One turn of the claim loop: a claim leases a command, and its task is then handed out or cancelled. */
  function AfterClaim(p: Plane, node: NodeId, pick: Option<TaskId>, trouble: Trouble, now: int): Plane {
    var leased := Q.Apply(p.commands, Q.Claim(node, pick, now));
    if pick.None? || trouble.lookupFails then p.(commands := leased)
    else
      var t := pick.value;
      var refusal := Refusal(p.ledger, p.site.instances, t, node);
      if refusal.Some? && trouble.cancel.Refused? then p.(commands := leased)
      else if refusal.Some? then p.(commands := Q.Apply(leased, Q.CancelTask(t, node, refusal.value, now)))
      else Plane(p.ledger.(handed := p.ledger.handed + {p.ledger.tasks[t].operation}), leased, p.site)
  }

  /** The writes of a dispatch, in the order of the handler. */
  function LedgerAfterDispatch(l: Ledger, e: Event): Ledger {
    match e
    case Create(o, row) => l.(ops := l.ops[o := row.(task := "", status := PendingDispatch)],
        phase := l.phase[o := Created])
    case StoreTask(o, t, reply) =>
      if o !in l.ops then l
      else l.(ops := if reply.Applied() then l.ops[o := l.ops[o].(task := t)] else l.ops,
              phase := l.phase[o := if reply.Done? then Stored else Failing])
    case Publish(o, reply, _) =>
      if o !in l.ops then l
      else l.(tasks := if reply.Applied() then l.tasks[l.ops[o].task := TaskOf(l, o)] else l.tasks,
              phase := l.phase[o := if reply.Done? then Published else Failing])
    case MarkQueued(o, reply) =>
      if o !in l.ops then l
      else
        l.(ops := if reply.Applied() && l.ops[o].status.PendingDispatch? then WithStatus(l.ops, o, Queued) else l.ops,
              phase := l.phase[o := Dispatched])
    case FailDispatch(o, _, reply) =>
      if o !in l.ops then l
      else
        l.(ops := if reply.Applied() then WithStatus(l.ops, o, OpFailed) else l.ops, phase := l.phase[o := Abandoned])
    case _ => l
  }

  function TaskOf(l: Ledger, o: OpId): Task
    requires o in l.ops
  {
    Task(o, l.ops[o].instance, l.ops[o].node, l.ops[o].action)
  }

  function CommandsAfterDispatch(l: Ledger, q: Q.Table, e: Event): Q.Table {
    if e.Publish? && e.reply.Applied() && e.op in l.ops
    then Q.Apply(q, Q.Publish(l.ops[e.op].task, l.ops[e.op].node, e.op, e.now)) else q
  }

  /** The status that an action request writes before it dispatches anything. */
  function Requested(a: Action): string {
    match a
    case PauseApp | StopApp => "stopped"
    case BackupDatabase | BackupVolumes => "backup_running"
    case DeprovisionApp => "deprovisioning"
    case _ => "running"
  }

  /** validateTechnicalStatusAction */
  predicate MayRequest(tech: string, a: Action) {
    && tech != "migrating"
    && (tech == "initializing" || tech == "setup_failed" ==> a.DeprovisionApp?)
    && (tech == "deprovisioned" ==> !a.DeprovisionApp?)
  }

  /** failInstanceForTask leaves the instance of a migration's sub-operation alone. */
  function SiteAfterDispatch(l: Ledger, s: Site, e: Event): Site {
    if e.FailDispatch? && e.failsInstance && e.op in l.ops && !Suboperation(l.ops[e.op])
    then SetTech(s, l.ops[e.op].instance, "failed")
    else if e.Request? && e.reply.Applied() then SetTech(s, e.instance, Requested(e.action))
    else s
  }

  function Apply(p: Plane, e: Event): Plane {
    match e
    case Claim(node, pick, trouble, now) => AfterClaim(p, node, pick, trouble, now)
    case Report(r, authentic, at, queue, reply) => AfterReport(p, r, authentic, at, queue, reply)
    case QueueEvent(qe) => p.(commands := Q.Apply(p.commands, qe))
    case _ => Plane(LedgerAfterDispatch(p.ledger, e), CommandsAfterDispatch(p.ledger, p.commands, e),
        SiteAfterDispatch(p.ledger, p.site, e))
  }

  predicate InPhase(l: Ledger, o: OpId, phases: set<Phase>) { o in l.ops && o in l.phase && l.phase[o] in phases }

  /**
  When an event can happen. Dispatch follows the order of the handler: the task ID, generated fresh, is
  stored before the task is published, and the handler fails an operation only before that or when
  storing or publishing reported an error. Workers report only on operations that were handed out; the
  remaining queue traffic neither publishes nor claims.
  */
  predicate Enabled(p: Plane, e: Event) {
    match e
    case Create(o, row) => o !in p.ledger.ops && o !in p.ledger.phase
    case StoreTask(o, t, _) => InPhase(p.ledger, o, {Created}) && t != "" && t !in p.ledger.tasks && t !in p.commands
    case Publish(o, _, _) => InPhase(p.ledger, o, {Stored}) && p.ledger.ops[o].task !in p.ledger.tasks
    case MarkQueued(o, _) => InPhase(p.ledger, o, {Published})
    case FailDispatch(o, _, _) => InPhase(p.ledger, o, {Created, Failing})
    case Request(i, a, _) => i in p.site.instances && p.site.instances[i].node.Some?
        && MayRequest(p.site.instances[i].tech, a)
    case Claim(node, pick, _, now) => Q.Enabled(p.commands, Q.Claim(node, pick, now))
    case Report(r, _, _, _, _) => r.operation in p.ledger.handed
    case QueueEvent(qe) => !qe.Publish? && !qe.PublishRejected? && !qe.Claim?
  }

  ghost predicate IsRun(states: seq<Plane>, events: seq<Event>) {
    && |states| == |events| + 1
    && states[0].ledger == Ledger(map[], map[], map[], {}, map[], map[]) && states[0].commands == map[]
    && forall k :: 0 <= k < |events| ==> Enabled(states[k], events[k]) && states[k + 1] == Apply(states[k], events[k])
  }

  // ---- A settled operation stays settled ----

  predicate Settled(l: Ledger, o: OpId) { o in l.ops && Terminal(l.ops[o].status) }

  /** The handler fails an operation whose publish it believes to have failed. */
  predicate Overwrites(p: Plane, e: Event, o: OpId) {
    e.FailDispatch? && e.op == o && e.reply.Applied() && Settled(p.ledger, o) && !p.ledger.ops[o].status.OpFailed?
  }

  /** In any state, only the failure path of dispatch can change a terminal status, and only to "failed". */
  lemma SettledStep(p: Plane, e: Event, o: OpId)
    requires Settled(p.ledger, o) && Enabled(p, e)
    ensures Settled(Apply(p, e).ledger, o)
    ensures Apply(p, e).ledger.ops[o].status != p.ledger.ops[o].status <==> Overwrites(p, e, o)
  {
    hide Settle, Q.Apply, CommandsAfterReport, CommandsAfterDispatch, SiteAfterDispatch, Succeeds, Matches, Refusal;
  }

  predicate LosesPublish(e: Event, o: OpId) { e.Publish? && e.op == o && e.reply.Lost? }

  predicate Known(l: Ledger, o: OpId) { o in l.handed || exists t :: t in l.tasks && l.tasks[t].operation == o }

  /** An operation can be claimed, reported on or settled only once its dispatch went past publishing. */
  predicate Sound(l: Ledger, o: OpId) {
    && (o in l.ops <==> o in l.phase)
    && (Known(l, o) ==> InPhase(l, o, {Published, Dispatched}))
    && (InPhase(l, o, {Created, Stored, Failing}) ==> !Terminal(l.ops[o].status))
  }

  lemma SoundStep(p: Plane, e: Event, o: OpId)
    requires Sound(p.ledger, o) && Enabled(p, e) && !LosesPublish(e, o)
    ensures Sound(Apply(p, e).ledger, o)
  {
    hide Settle, Q.Apply, CommandsAfterReport, CommandsAfterDispatch, SiteAfterDispatch, Succeeds, Matches;
    hide StaleReason, InstanceReason;
  }

  lemma {:induction false} SoundInRun(states: seq<Plane>, events: seq<Event>, k: nat, o: OpId)
    requires IsRun(states, events) && k < |states| && forall i :: 0 <= i < k ==> !LosesPublish(events[i], o)
    ensures Sound(states[k].ledger, o)
  {
    hide Apply, Enabled;
    if k > 0 {
      SoundInRun(states, events, k - 1, o);
      SoundStep(states[k - 1], events[k - 1], o);
    }
  }

  /** An operation that reached a terminal status stays in one. */
  lemma {:induction false} SettledForever(states: seq<Plane>, events: seq<Event>, j: nat, k: nat, o: OpId)
    requires IsRun(states, events) && j <= k < |states| && Settled(states[j].ledger, o)
    ensures Settled(states[k].ledger, o)
  {
    hide Apply, Enabled;
    if j < k {
      SettledForever(states, events, j, k - 1, o);
      SettledStep(states[k - 1], events[k - 1], o);
    }
  }

  lemma NotOverwritten(p: Plane, e: Event, o: OpId)
    requires Sound(p.ledger, o) && Enabled(p, e)
    ensures !Overwrites(p, e, o)
  {
  }

  /** It keeps that very status, unless publishing its task was reported as failed although it took effect. */
  lemma {:induction false} StatusKept(states: seq<Plane>, events: seq<Event>, j: nat, k: nat, o: OpId)
    requires IsRun(states, events) && j <= k < |states| && Settled(states[j].ledger, o)
    requires forall i :: 0 <= i < k ==> !LosesPublish(events[i], o)
    ensures Settled(states[k].ledger, o) && states[k].ledger.ops[o].status == states[j].ledger.ops[o].status
  {
    hide Apply, Enabled, Sound, Overwrites;
    if j < k {
      StatusKept(states, events, j, k - 1, o);
      SoundInRun(states, events, k - 1, o);
      SettledStep(states[k - 1], events[k - 1], o);
      NotOverwritten(states[k - 1], events[k - 1], o);
    }
  }

  /**
  Exactly when a settled operation changes its status: when its handler fails it after a publish that it
  believes to have failed.
  */
  lemma {:induction false} StatusChangesIffOverwritten(states: seq<Plane>, events: seq<Event>, j: nat, k: nat, o: OpId)
    requires IsRun(states, events) && j <= k < |states| && Settled(states[j].ledger, o)
    ensures Settled(states[k].ledger, o)
    ensures states[k].ledger.ops[o].status != states[j].ledger.ops[o].status <==>
            exists i :: j <= i < k && Overwrites(states[i], events[i], o)
    ensures (exists i :: j <= i < k && Overwrites(states[i], events[i], o)) ==> states[k].ledger.ops[o].status.OpFailed?
    decreases k
  {
    hide Apply, Enabled;
    if j < k {
      StatusChangesIffOverwritten(states, events, j, k - 1, o);
      SettledStep(states[k - 1], events[k - 1], o);
      if Overwrites(states[k - 1], events[k - 1], o) { OverwrittenFails(states[k - 1], events[k - 1], o); }
    }
  }

  lemma OverwrittenFails(p: Plane, e: Event, o: OpId)
    requires Enabled(p, e) && Overwrites(p, e, o)
    ensures o in Apply(p, e).ledger.ops && Apply(p, e).ledger.ops[o].status.OpFailed?
  {
    hide Settle, Q.Apply, CommandsAfterReport, CommandsAfterDispatch;
  }

  // ---- What a claim hands out ----

  /** The event gives task t of operation o to a worker on the node. */
  predicate HandsOut(p: Plane, e: Event, t: TaskId, o: OpId) {
    && e.Claim? && e.pick == Some(t) && !e.trouble.lookupFails && Refusal(p.ledger, p.site.instances, t, e.node).None?
    && t in p.ledger.tasks && p.ledger.tasks[t].operation == o
  }

  /** The operation is open, the task is the one it refers to, and neither names another node. */
  predicate Current(l: Ledger, t: TaskId, node: NodeId)
    requires t in l.tasks
  {
    var payload := l.tasks[t];
    && payload.operation in l.ops && t != ""
    && var op := l.ops[payload.operation];
       !Terminal(op.status) && op.task == t && op.action == payload.action && op.instance == payload.instance
       && op.node in {"", node} && payload.node in {"", node}
  }

  predicate InstanceAllows(payload: Task, instances: map<InstanceId, Instance>) {
    payload.action.TestStorage? ||
    (payload.instance in instances
        && (instances[payload.instance].tech == "deprovisioned" ==> payload.action.DeleteBackup?))
  }

  lemma EligibleIffCurrent(l: Ledger, instances: map<InstanceId, Instance>, t: TaskId, node: NodeId)
    requires t in l.tasks
    ensures Refusal(l, instances, t, node).None? <==> Current(l, t, node) && InstanceAllows(l.tasks[t], instances)
  {
  }

  /**
  A claimed task whose lookups succeed is handed out exactly when it is current and its instance allows
  it. The worker then holds the lease. A claimed task that is not handed out ends up cancelled, or stays
  leased when a lookup failed or the cancellation was refused.
  */
  lemma HandedOutIffCurrent(p: Plane, node: NodeId, t: TaskId, trouble: Trouble, now: int)
    requires t in p.ledger.tasks && Q.Enabled(p.commands, Q.Claim(node, Some(t), now))
    ensures HandsOut(p, Claim(node, Some(t), trouble, now), t, p.ledger.tasks[t].operation) <==>
              && !trouble.lookupFails && Current(p.ledger, t, node)
              && InstanceAllows(p.ledger.tasks[t], p.site.instances)
    ensures var q := AfterClaim(p, node, Some(t), trouble, now).commands;
            var handed := HandsOut(p, Claim(node, Some(t), trouble, now), t, p.ledger.tasks[t].operation);
            && t in q && q[t].node == node
            && if handed || trouble.lookupFails || trouble.cancel.Refused?
               then q[t].status.Leased? && q[t].leasedUntil == Some(now + Q.LEASE_SECONDS)
               else q[t].status.Cancelled?
  {
    hide Current, InstanceAllows, Refusal;
    EligibleIffCurrent(p.ledger, p.site.instances, t, node);
    assert Q.Next(Q.ExpireAll(p.commands, node, now), node, now, t);
  }

  /** Once an operation is terminal no later claim hands its task out, whatever became of its command. */
  lemma NeverHandedOutAgain(states: seq<Plane>, events: seq<Event>, j: nat, k: nat, t: TaskId, o: OpId)
    requires IsRun(states, events) && j <= k < |events| && Settled(states[j].ledger, o)
    ensures !HandsOut(states[k], events[k], t, o)
  {
    hide Apply, Enabled;
    SettledForever(states, events, j, k, o);
  }

  // ---- Effects of callbacks ----

  /**
  Effects were applied once per refused status write, and once more only for the write that settled the
  operation.
  */
  predicate Accounted(l: Ledger, o: OpId) {
    && Count(l.refused, o) <= Count(l.effects, o) <= Count(l.refused, o) + (if Settled(l, o) then 1 else 0)
    && (o !in l.ops ==> Count(l.effects, o) == Count(l.refused, o) == 0)
  }

  lemma AccountedStep(p: Plane, e: Event, o: OpId)
    requires Accounted(p.ledger, o) && Enabled(p, e)
    ensures Accounted(Apply(p, e).ledger, o)
  {
    hide Settle, Q.Apply, CommandsAfterReport, CommandsAfterDispatch, SiteAfterDispatch, Succeeds, Matches, Refusal;
  }

  lemma {:induction false} EffectsAccounted(states: seq<Plane>, events: seq<Event>, k: nat, o: OpId)
    requires IsRun(states, events) && k < |states|
    ensures Accounted(states[k].ledger, o)
  {
    hide Apply, Enabled;
    if k > 0 {
      EffectsAccounted(states, events, k - 1, o);
      AccountedStep(states[k - 1], events[k - 1], o);
    }
  }

  /** With no refused status write for an operation, its callback effects are applied at most once in a run. */
  lemma EffectsAtMostOnce(states: seq<Plane>, events: seq<Event>, k: nat, o: OpId)
    requires IsRun(states, events) && k < |states| && Count(states[k].ledger.refused, o) == 0
    ensures Count(states[k].ledger.effects, o) <= 1
  {
    hide Apply, Enabled;
    EffectsAccounted(states, events, k, o);
  }

  // ---- Where the guarantees end ----

  const emptyLedger := Ledger(map[], map[], map[], {}, map[], map[])

  const NO_TROUBLE := Trouble(false, Done)

  /** The node has nothing to claim. */
  predicate Idle(q: Q.Table, node: NodeId, now: int) {
    forall u :: u in q ==> !Q.Claimable(Q.Expire(q[u], node, now), node, now)
  }

  /** On an idle node, a task that was just published is the one that a claim takes. */
  lemma NextPublished(q: Q.Table, node: NodeId, t: TaskId, o: OpId, now: int)
    requires Idle(q, node, now) && t !in q
    ensures var r := Q.Apply(q, Q.Publish(t, node, o, now));
            && Q.Enabled(r, Q.Claim(node, Some(t), now))
            && Q.Apply(r, Q.Claim(node, Some(t), now)).Keys == q.Keys + {t}
  {
    var r := Q.Apply(q, Q.Publish(t, node, o, now));
    var x := Q.ExpireAll(r, node, now);
    forall u | u in x && Q.Claimable(x[u], node, now) ensures u == t { assert u in q ==> r[u] == q[u]; }
    assert Q.Next(x, node, now, t);
  }

  /** A task that fails on a node that is otherwise idle leaves it idle: the retry waits. */
  lemma RetryWaits(q: Q.Table, node: NodeId, t: TaskId, o: OpId, error: string, now: int)
    requires Idle(q, node, now) && t !in q
    ensures Idle(Q.Apply(Q.Apply(Q.Apply(q, Q.Publish(t, node, o, now)), Q.Claim(node, Some(t), now)),
            Q.Complete(t, false, error, now)), node, now)
  {
    var published := Q.Apply(q, Q.Publish(t, node, o, now));
    var claimed := Q.Apply(published, Q.Claim(node, Some(t), now));
    var failed := Q.Apply(claimed, Q.Complete(t, false, error, now));
    forall u | u in failed ensures !Q.Claimable(Q.Expire(failed[u], node, now), node, now) {
      if u != t {
        assert u in q && failed[u] == Q.Expire(q[u], node, now);
        assert Q.Expire(failed[u], node, now) == failed[u];
      }
    }
  }

  function Opening(o: OpId, t: TaskId, row: Operation, publish: Reply, now: int): seq<Event> {
    [Create(o, row)] + [StoreTask(o, t, Done)] + [Publish(o, publish, now)]
    + [Claim(row.node, Some(t), NO_TROUBLE, now)]
  }

  lemma Extend(states: seq<Plane>, events: seq<Event>, e: Event)
    requires IsRun(states, events) && Enabled(states[|events|], e)
    ensures IsRun(states + [Apply(states[|events|], e)], events + [e])
  {
    hide Apply, Enabled;
  }

  lemma LengthOfRun(states: seq<Plane>, events: seq<Event>)
    requires IsRun(states, events)
    ensures |states| == |events| + 1
  {
  }

  /** What is needed to open an operation in state p: fresh names, a node, and an instance that is still there. */
  predicate CanOpen(p: Plane, o: OpId, t: TaskId, row: Operation, now: int) {
    && o !in p.ledger.ops && o !in p.ledger.phase && t != "" && t !in p.ledger.tasks && t !in p.commands
    && row.node != "" && row.instance in p.site.instances && p.site.instances[row.instance].tech != "deprovisioned"
    && Idle(p.commands, row.node, now)
  }

  /** The state p after an operation was created, published and handed out. */
  function Opened(p: Plane, o: OpId, t: TaskId, row: Operation, publish: Reply, now: int): Plane {
    Plane(p.ledger.(ops := p.ledger.ops[o := row.(task := t, status := PendingDispatch)],
                    phase := p.ledger.phase[o := if publish.Done? then Published else Failing],
                    tasks := p.ledger.tasks[t := Task(o, row.instance, row.node, row.action)],
                    handed := p.ledger.handed + {o}),
          Q.Apply(Q.Apply(p.commands, Q.Publish(t, row.node, o, now)), Q.Claim(row.node, Some(t), now)),
          p.site)
  }

  /** Creation and the stored task ID. */
  lemma StoringRuns(states: seq<Plane>, events: seq<Event>, o: OpId, t: TaskId, row: Operation, now: int)
      returns (more: seq<Plane>)
    requires IsRun(states, events) && CanOpen(states[|events|], o, t, row, now)
    ensures |more| == 2 && IsRun(states + more, events + ([Create(o, row)] + [StoreTask(o, t, Done)]))
    ensures var p := states[|events|];
            more[1] == p.(ledger := p.ledger.(ops := p.ledger.ops[o := row.(task := t, status := PendingDispatch)],
                phase := p.ledger.phase[o := Stored]))
  {
    hide IsRun, Idle;
    LengthOfRun(states, events);
    var p := states[|events|];
    var create, store := Create(o, row), StoreTask(o, t, Done);
    var p1 := Apply(p, create);
    Extend(states, events, create);
    LengthOfRun(states + [p1], events + [create]);
    var p2 := Apply(p1, store);
    Extend(states + [p1], events + [create], store);
    more := [p1, p2];
    assert states + more == states + [p1] + [p2] && events + ([create] + [store]) == events + [create] + [store];
    assert p2.ledger.ops == p.ledger.ops[o := row.(task := t, status := PendingDispatch)];
  }

  /** Any operation can be created, published and handed out, even when publishing reports an error. */
  lemma OpeningRuns(states: seq<Plane>, events: seq<Event>, o: OpId, t: TaskId, row: Operation, publish: Reply,
      now: int)
      returns (more: seq<Plane>)
    requires IsRun(states, events) && CanOpen(states[|events|], o, t, row, now) && publish.Applied()
    ensures |more| == 4 && IsRun(states + more, events + Opening(o, t, row, publish, now))
    ensures more[3] == Opened(states[|events|], o, t, row, publish, now)
  {
    hide Q.Apply, Q.Enabled, Settle, IsRun, Idle;
    LengthOfRun(states, events);
    var p := states[|events|];
    var stored := StoringRuns(states, events, o, t, row, now);
    var early, done := states + stored, events + ([Create(o, row)] + [StoreTask(o, t, Done)]);
    LengthOfRun(early, done);
    var put, claim := Publish(o, publish, now), Claim(row.node, Some(t), NO_TROUBLE, now);
    var p3 := Apply(stored[1], put);
    Extend(early, done, put);
    LengthOfRun(early + [p3], done + [put]);
    NextPublished(p.commands, row.node, t, o, now);
    EligibleIffCurrent(p3.ledger, p.site.instances, t, row.node);
    Extend(early + [p3], done + [put], claim);
    more := stored + [p3, Apply(p3, claim)];
    assert states + more == early + [p3] + [Apply(p3, claim)];
    assert events + Opening(o, t, row, publish, now) == done + [put] + [claim];
    assert p3.ledger.phase == p.ledger.phase[o := if publish.Done? then Published else Failing];
  }

  lemma Start(site: Site)
    ensures IsRun([Plane(emptyLedger, map[], site)], [])
  {
  }

  /**
  The exception is real. When publishing took effect but reported an error, a worker can complete the
  operation before the handler marks it as failed.
  */
  lemma LostPublishOverwrites(site: Site, o: OpId, t: TaskId, row: Operation, r: Result, at: Setting)
      returns (states: seq<Plane>, events: seq<Event>)
    requires t != "" && row.node != "" && row.instance in site.instances
    requires site.instances[row.instance].tech != "deprovisioned"
    requires r.operation == o && r.task == t && r.node == row.node && Succeeds(row, r)
    ensures IsRun(states, events) && |events| == 6 && LosesPublish(events[2], o)
    ensures Settled(states[5].ledger, o) && states[5].ledger.ops[o].status.OpSucceeded?
    ensures Settled(states[6].ledger, o) && states[6].ledger.ops[o].status.OpFailed?
  {
    hide Q.Apply, Q.Enabled, Settle, IsRun, AfterClaim, CommandsAfterReport;
    var start := Plane(emptyLedger, map[], site);
    Start(site);
    var more := OpeningRuns([start], [], o, t, row, Lost, at.now);
    states, events := [start] + more, [] + Opening(o, t, row, Lost, at.now);
    var report := Report(r, true, at, Done, Done);
    Extend(states, events, report);
    var p := Apply(states[4], report);
    var failed := FailDispatch(o, true, Done);
    LengthOfRun(states + [p], events + [report]);
    Extend(states + [p], events + [report], failed);
    states, events := states + [p] + [Apply(p, failed)], events + [report] + [failed];
  }

  /** A tier and a node whose counters cover it twice. */
  predicate Covered(s: Site, i: InstanceId, n: NodeId) {
    && i in s.instances && s.instances[i].node == Some(n) && n in s.nodes && s.instances[i].tech != "deprovisioned"
    && s.instances[i].tier.size.Positive()
    && s.instances[i].tier.size.Plus(s.instances[i].tier.size).AtMost(s.nodes[n].committed)
  }

  predicate FailsProvision(row: Operation, r: Result, o: OpId, t: TaskId) {
    r.operation == o && r.task == t && r.node == row.node && !r.success && row.action.ProvisionApp?
        && !Suboperation(row)
  }

  /**
  So is the count of refused writes. When the status write of a failed provisioning is refused, the
  worker's repeated callback is taken as new and the node gives the tier back a second time.
  */
  lemma RefusedWriteRepeats(site: Site, o: OpId, t: TaskId, row: Operation, r: Result, n: NodeId, at: Setting)
      returns (states: seq<Plane>, events: seq<Event>)
    requires t != "" && row.node != "" && Covered(site, row.instance, n) && FailsProvision(row, r, o, t)
    ensures IsRun(states, events) && |events| == 6 && events[4] == Report(r, true, at, Done, Refused)
    ensures events[5] == Report(r, true, at, Done, Done)
    ensures Count(states[6].ledger.effects, o) == 2 && n in states[6].site.nodes
    ensures var size := site.instances[row.instance].tier.size;
            states[6].site.nodes[n].committed == site.nodes[n].committed.Minus(size).Minus(size)
  {
    hide Q.Apply, Q.Enabled, Settle, IsRun, AfterClaim, CommandsAfterReport, Release, Size.Positive, Size.Plus;
    hide Size.AtMost, Size.Minus;
    var start := Plane(emptyLedger, map[], site);
    Start(site);
    var more := OpeningRuns([start], [], o, t, row, Done, at.now);
    states, events := [start] + more, [] + Opening(o, t, row, Done, at.now);
    var first := Report(r, true, at, Done, Refused);
    var second := Report(r, true, at, Done, Done);
    Extend(states, events, first);
    var p := Apply(states[4], first);
    LengthOfRun(states + [p], events + [first]);
    Extend(states + [p], events + [first], second);
    var op := states[4].ledger.ops[o];
    FailedProvisionReleases(site, op, r, at, n);
    FailedProvisionReleases(p.site, op, r, at, n);
    ReleasesDiffer(p.site.nodes[n], site.nodes[n], site.instances[row.instance].tier.size);
    SameRelease(p.site.nodes[n], site.nodes[n], site.instances[row.instance].tier.size);
    states, events := states + [p] + [Apply(p, second)], events + [first] + [second];
  }

  lemma SameRelease(m: Node, n: Node, size: Size)
    requires m.committed == Release(n, size).committed
    ensures Release(m, size).committed == Release(Release(n, size), size).committed
  {
  }

  /** A successful removal of the same instance on the node it was provisioned on. */
  predicate Removes(removal: Operation, done: Result, o: OpId, t: TaskId, row: Operation) {
    && done.operation == o && done.task == t && done.node == removal.node && done.success
    && removal.action.DeprovisionApp? && !Suboperation(removal) && removal.instance == row.instance
    && removal.node == row.node
  }

  /** A provisioning that fails, in a run of its own. */
  lemma FailedProvisionRuns(site: Site, o: OpId, t: TaskId, row: Operation, r: Result, n: NodeId, at: Setting)
      returns (states: seq<Plane>, events: seq<Event>)
    requires t != "" && row.node != "" && Covered(site, row.instance, n) && FailsProvision(row, r, o, t)
    ensures IsRun(states, events) && |events| == 5 && |states| == 6
    ensures var l := states[5].ledger;
            l.ops.Keys == {o} && l.phase.Keys == {o} && l.tasks.Keys == {t} && states[5].commands.Keys == {t}
                && Idle(states[5].commands, row.node, at.now)
    ensures states[5].site == Settle(site, row.(task := t, status := PendingDispatch), r, at)
  {
    hide Q.Apply, Q.Enabled, Settle, IsRun, AfterClaim, LedgerAfterReport, Release, Size.Positive, Size.Plus;
    hide Size.AtMost, Idle, Q.Claimable, Q.Expire;
    var start := Plane(emptyLedger, map[], site);
    Start(site);
    EmptyIdle(row.node, at.now);
    var more := OpeningRuns([start], [], o, t, row, Done, at.now);
    states, events := [start] + more, [] + Opening(o, t, row, Done, at.now);
    var report := Report(r, true, at, Done, Done);
    Extend(states, events, report);
    ReportKeeps(states[4].ledger, r, true, Done);
    RetryWaits(map[], row.node, t, o, r.error, at.now);
    NextPublished(map[], row.node, t, o, at.now);
    CompleteKeys(states[4].commands, t, r.error, at.now);
    states, events := states + [Apply(states[4], report)], events + [report];
  }

  /** A provisioning whose setup fails, followed by a request to remove the instance. */
  lemma SetupFailureThenRequest(site: Site, o: OpId, t: TaskId, row: Operation, r: Result, reply: Reply,
                                u: OpId, v: TaskId, removal: Operation, n: NodeId, at: Setting)
      returns (states: seq<Plane>, events: seq<Event>)
    requires t != "" && v != "" && t != v && o != u && row.node != "" && Covered(site, row.instance, n)
    requires FailsProvision(row, r, o, t) && r.setupFailed && removal.instance == row.instance
    requires removal.node == row.node
    ensures IsRun(states, events) && |events| == 6 && |states| == 7
    ensures events[5] == Request(row.instance, DeprovisionApp, reply)
    ensures CanOpen(states[6], u, v, removal, at.now)
    ensures StatusWritten(Settle(site, row.(task := t, status := PendingDispatch), r, at), states[6].site, row.instance)
    ensures states[6].site.instances[row.instance].tech == if reply.Applied() then "deprovisioning" else "setup_failed"
  {
    hide Q.Apply, Settle, IsRun, Release, Size.Positive, Size.Plus, Size.AtMost, Idle;
    states, events := FailedProvisionRuns(site, o, t, row, r, n, at);
    FailedProvisionReleases(site, row.(task := t, status := PendingDispatch), r, at, n);
    var request := Request(row.instance, DeprovisionApp, reply);
    Extend(states, events, request);
    states, events := states + [Apply(states[5], request)], events + [request];
  }

  /**
  A setup that failed, and a removal of the instance. If the customer asked for the removal, that
  request has overwritten "setup_failed" before the removal's callback arrives and the tier is given
  back twice; if its status write was refused, only once.
  */
  lemma SetupFailureThenRemoval(site: Site, o: OpId, t: TaskId, row: Operation, r: Result, reply: Reply,
                                u: OpId, v: TaskId, removal: Operation, done: Result, n: NodeId, at: Setting)
      returns (states: seq<Plane>, events: seq<Event>)
    requires t != "" && v != "" && t != v && o != u && row.node != "" && Covered(site, row.instance, n)
    requires FailsProvision(row, r, o, t) && r.setupFailed && Removes(removal, done, u, v, row)
    ensures IsRun(states, events) && |events| == 11 && |states| == 12
    ensures events[5] == Request(row.instance, DeprovisionApp, reply)
    ensures n in states[11].site.nodes
    ensures var size := site.instances[row.instance].tier.size;
            states[11].site.nodes[n].committed ==
            if reply.Applied()
            then site.nodes[n].committed.Minus(size).Minus(size) else site.nodes[n].committed.Minus(size)
  {
    hide Q.Apply, Q.Enabled, Settle, IsRun, AfterClaim, Release, Size.Positive, Size.Plus, Size.AtMost, Size.Minus;
    hide Idle, CommandsAfterReport, StatusWritten;
    states, events := SetupFailureThenRequest(site, o, t, row, r, reply, u, v, removal, n, at);
    var p6 := states[6];
    var more := OpeningRuns(states, events, u, v, removal, Done, at.now);
    states, events := states + more, events + Opening(u, v, removal, Done, at.now);
    LengthOfRun(states, events);
    var gone := Report(done, true, at, Done, Done);
    Extend(states, events, gone);
    RemovedAfterFailure(site, row.(task := t, status := PendingDispatch), r, at, p6.site, states[10].ledger.ops[u],
        done, at, n);
    states, events := states + [Apply(states[10], gone)], events + [gone];
  }

  lemma EmptyIdle(node: NodeId, now: int)
    ensures Idle(map[], node, now)
  {
  }

  lemma CompleteKeys(q: Q.Table, t: TaskId, error: string, now: int)
    ensures Q.Apply(q, Q.Complete(t, false, error, now)).Keys == q.Keys
  {
  }

  // ---- The handlers ----

  const MAX_DISCARDED := 128

  /** The state after a node claimed these tasks one after the other and each was cancelled. */
  function AfterTurns(p: Plane, node: NodeId, picks: seq<TaskId>, now: int): Plane {
    if picks == [] then p
    else AfterClaim(AfterTurns(p, node, picks[..|picks| - 1], now), node, Some(picks[|picks| - 1]), NO_TROUBLE, now)
  }

  /** The k-th of these claims was refused. */
  predicate Discarded(p: Plane, node: NodeId, picks: seq<TaskId>, k: nat, now: int)
    requires k < |picks|
  {
    var q := AfterTurns(p, node, picks[..k], now);
    Q.Enabled(q.commands, Q.Claim(node, Some(picks[k]), now))
        && Refusal(q.ledger, q.site.instances, picks[k], node).Some?
  }

  datatype ClaimAnswer = Handed(task: TaskId) | NoContent | Unavailable

  class Handlers {
    const publisher: Q.FleetQueue
    var ledger: Ledger
    var site: Site

    ghost function State(): Plane reads this, publisher { Plane(ledger, publisher.commands, site) }

    constructor (publisher: Q.FleetQueue, site: Site)
      ensures this.publisher == publisher && ledger == emptyLedger && this.site == site
    {
      this.publisher, ledger, this.site := publisher, emptyLedger, site;
    }

    /**
    HandleTaskClaim: refused tasks are cancelled and the claim is repeated, up to 128 times. Whatever is
    handed out is current; an empty answer means that nothing is claimable or the bound was reached; an
    error that the claim, a lookup or a cancellation failed, and then the last task was not handed out.
    claimFails and trouble say what goes wrong in each turn.
    */
    method HandleTaskClaim(node: NodeId, claimFails: nat -> bool, trouble: nat -> Trouble, now: int)
        returns (answer: ClaimAnswer, ghost discarded: seq<TaskId>)
      modifies this, publisher
      ensures |discarded| <= MAX_DISCARDED
      ensures forall k :: 0 <= k < |discarded| ==> Discarded(old(State()), node, discarded, k, now)
      ensures answer.Handed? ==>
                var p := AfterTurns(old(State()), node, discarded, now);
                && answer.task in p.ledger.tasks
                && HandsOut(p, Claim(node, Some(answer.task), trouble(|discarded|), now), answer.task,
                    p.ledger.tasks[answer.task].operation)
                && Current(p.ledger, answer.task, node)
                && State() == AfterClaim(p, node, Some(answer.task), trouble(|discarded|), now)
      ensures answer.NoContent? ==>
                || (|discarded| == MAX_DISCARDED && State() == AfterTurns(old(State()), node, discarded, now))
                || forall t :: t in publisher.commands ==> !Q.Claimable(publisher.commands[t], node, now)
      ensures answer.Unavailable? ==>
                var p, k := AfterTurns(old(State()), node, discarded, now), |discarded|;
                && ledger == old(ledger) && site == old(site)
                && ((claimFails(k) && State() == p) ||
                    exists t :: (trouble(k).lookupFails || !trouble(k).cancel.Done?)
                        && State() == AfterClaim(p, node, Some(t), trouble(k), now))
    {
      hide Q.Apply, Q.Enabled, Q.Claimable, StaleReason, InstanceReason, Current, Discarded;
      discarded := [];
      for turn := 0 to MAX_DISCARDED
        invariant |discarded| == turn && ledger == old(ledger) && site == old(site)
        invariant State() == AfterTurns(old(State()), node, discarded, now)
        invariant forall k :: 0 <= k < |discarded| ==> Discarded(old(State()), node, discarded, k, now)
      {
        ghost var p := State();
        if claimFails(turn) { return Unavailable, discarded; }
        var pick := publisher.ClaimTask(node, now);
        if pick.None? {
          Q.EmptyClaim(p.commands, node, now);
          return NoContent, discarded;
        }
        if trouble(turn).lookupFails {
          assert State() == AfterClaim(p, node, Some(pick.value), trouble(turn), now);
          return Unavailable, discarded;
        }
        var refusal := Refusal(ledger, site.instances, pick.value, node);
        if refusal.None? {
          EligibleIffCurrent(ledger, site.instances, pick.value, node);
          ledger := ledger.(handed := ledger.handed + {ledger.tasks[pick.value].operation});
          return Handed(pick.value), discarded;
        }
        if trouble(turn).cancel.Applied() { publisher.CancelTaskForNode(pick.value, node, refusal.value, now); }
        if !trouble(turn).cancel.Done? {
          assert State() == AfterClaim(p, node, Some(pick.value), trouble(turn), now);
          return Unavailable, discarded;
        }
        DiscardOne(old(State()), node, discarded, pick.value, now);
        discarded := discarded + [pick.value];
      }
      return NoContent, discarded;
    }

    /** HandleFleetCallback, in the order of the handler: command, then operation status, then the effects. */
    method HandleFleetCallback(r: Result, authentic: bool, at: Setting, queue: Reply, reply: Reply)
        returns (duplicate: bool)
      modifies this, publisher
      ensures State() == AfterReport(old(State()), r, authentic, at, queue, reply)
      ensures duplicate <==> authentic && Settled(old(ledger), r.operation)
      ensures duplicate ==> ledger == old(ledger) && site == old(site)
    {
      hide Q.Apply, Settle, Matches, Complete, AfterReport;
      if !authentic || r.operation !in ledger.ops { StrayReport(State(), r, authentic, at, queue, reply); }
      if !authentic {
        FailCallbackTask(r.task, "callback node_id does not match authenticated node", queue, at.now);
        return false;
      }
      if r.operation !in ledger.ops {
        FailCallbackTask(r.task, "callback references an unknown operation", queue, at.now);
        return false;
      }
      var op := ledger.ops[r.operation];
      if Terminal(op.status) {
        DuplicateReport(State(), r, at, queue, reply);
        AnswerDuplicate(op, r, queue, at.now);
        return true;
      }
      if !Matches(op, r) {
        Mismatch(op, r, at, queue, reply);
        return false;
      }
      Accept(op, r, at, queue, reply);
      return false;
    }

    /** A callback that names another node or task than its open operation fails it. */
    method Mismatch(op: Operation, r: Result, at: Setting, queue: Reply, reply: Reply)
      requires r.operation in ledger.ops && ledger.ops[r.operation] == op && !Terminal(op.status) && !Matches(op, r)
      modifies this, publisher
      ensures State() == AfterReport(old(State()), r, true, at, queue, reply)
    {
      hide Q.Apply, Settle, Succeeds, Matches;
      FailCallbackTask(op.task, "callback does not match operation", queue, at.now);
      if reply.Applied() { ledger := ledger.(ops := WithStatus(ledger.ops, r.operation, OpFailed)); }
    }

    /** The part of a callback that settles an open operation. */
    method Accept(op: Operation, r: Result, at: Setting, queue: Reply, reply: Reply)
      requires r.operation in ledger.ops && ledger.ops[r.operation] == op && !Terminal(op.status) && Matches(op, r)
      modifies this, publisher
      ensures State() == AfterReport(old(State()), r, true, at, queue, reply)
    {
      hide Q.Apply, Settle, Succeeds, Matches;
      var success := Succeeds(op, r);
      if queue.Applied() { var _ := publisher.CompleteTask(r.task, success, r.error, at.now); }
      if reply.Applied() {
        ledger := ledger.(ops := WithStatus(ledger.ops, r.operation, if success then OpSucceeded else OpFailed));
      } else {
        ledger := ledger.(refused := Bump(ledger.refused, r.operation));
      }
      ledger := ledger.(effects := Bump(ledger.effects, r.operation));
      site := Settle(site, op, r, at);
    }

    /** The command of a settled operation is settled the same way. */
    method AnswerDuplicate(op: Operation, r: Result, queue: Reply, now: int)
      requires Terminal(op.status)
      modifies publisher
      ensures publisher.commands ==
              if queue.Refused? then old(publisher.commands)
              else Q.Apply(old(publisher.commands), if op.status.OpSucceeded? then Q.Acknowledge(r.task, r.node, now)
                                                    else Q.CancelTask(r.task, r.node, "operation is terminal", now))
    {
      if queue.Refused? { return; }
      if op.status.OpSucceeded? {
        publisher.AcknowledgeTaskForNode(r.task, r.node, now);
      } else {
        publisher.CancelTaskForNode(r.task, r.node, "operation is terminal", now);
      }
    }

    method FailCallbackTask(task: TaskId, reason: string, queue: Reply, now: int)
      modifies publisher
      ensures publisher.commands ==
              if queue.Refused?
              then old(publisher.commands) else Complete(old(publisher.commands), task, false, reason, now)
    {
      if task != "" && queue.Applied() { var _ := publisher.CompleteTask(task, false, reason, now); }
    }
  }

  lemma DiscardOne(p: Plane, node: NodeId, picks: seq<TaskId>, t: TaskId, now: int)
    requires forall k :: 0 <= k < |picks| ==> Discarded(p, node, picks, k, now)
    requires var q := AfterTurns(p, node, picks, now);
             Q.Enabled(q.commands, Q.Claim(node, Some(t), now)) && Refusal(q.ledger, q.site.instances, t, node).Some?
    ensures AfterTurns(p, node, picks + [t], now) == AfterClaim(AfterTurns(p, node, picks, now), node, Some(t),
            NO_TROUBLE, now)
    ensures forall k :: 0 <= k < |picks| + 1 ==> Discarded(p, node, picks + [t], k, now)
  {
    assert (picks + [t])[..|picks|] == picks;
    forall k | 0 <= k < |picks| + 1 ensures Discarded(p, node, picks + [t], k, now) {
      if k < |picks| {
        assert (picks + [t])[..k] == picks[..k];
        assert Discarded(p, node, picks, k, now);
      }
    }
  }
}
