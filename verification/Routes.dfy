/**
Public routes and their reconciliation with Caddy (internal/networking/manager.go).

Route rows live in the database; Caddy runs a configuration computed from them. Every manager
call holds one mutex from its first row write to the end of the Caddy load, so a call is one
atomic step here. An instance whose migration has not reached a traffic-carrying step is held in
maintenance: its hosts answer 503 whatever their rows say.
*/
module Routes {
  import opened Wrappers

  type Host = string
  type InstanceId = string
  type NodeId = string

  datatype RouteStatus = Pending | Active | Failed | Disabled | Deleting | Deleted

  /** instance is empty for the static routes of the control plane itself. */
  datatype Route = Route(instance: InstanceId, service: string, node: NodeId, port: int, status: RouteStatus)

  datatype Handler = Proxy(node: NodeId, port: int) | Unavailable

  /** migration_step of an operation's metadata. */
  datatype Step =
    | Starting | SavingRoutes | Maintenance | BackingUp(service: string) | PausingSource
    | ProvisioningTarget | Restoring(kind: string) | ResumingTarget | ValidatingTarget | Cutover
    | EnablingTargetRoutes | DeprovisioningSource | CleanupSourceFailed | Completed
    | RollbackTargetCleanup | RollbackSourceRestart | RollbackRoutes

  datatype Operation = Operation(action: string, running: bool, step: Step)

  /** The steps during which a running migration lets its instance's routes through. */
  predicate CarriesTraffic(step: Step) {
    step.EnablingTargetRoutes? || step.RollbackRoutes? || step.DeprovisioningSource?
    || step.CleanupSourceFailed? || step.Completed?
  }

  predicate IsMigration(op: Operation) { op.running && op.action == "migrate" }

  predicate Migrating(ops: seq<Operation>) {
    exists k :: 0 <= k < |ops| && IsMigration(ops[k])
  }

  /** Maintenance holds the instance back. */
  predicate HeldBack(ops: seq<Operation>) {
    exists k :: 0 <= k < |ops| && IsMigration(ops[k]) && !CarriesTraffic(ops[k].step)
  }

  /** Rows Caddy forwards; a pending or failed row is forwarded like an active one. */
  predicate Forwards(r: Route) {
    !r.status.Disabled? && !r.status.Deleting? && !r.status.Deleted?
  }

  predicate Listed(r: Route) { !r.status.Deleting? && !r.status.Deleted? }

  function HandlerOf(r: Route, held: bool): Handler {
    if held || r.status.Disabled? then Unavailable else Proxy(r.node, r.port)
  }

  /** What Caddy serves for the rows of one instance. */
  function InstanceConfig(rows: map<Host, Route>, held: bool): map<Host, Handler> {
    map h | h in rows && Listed(rows[h]) :: HandlerOf(rows[h], held)
  }

  /** Nothing is forwarded. */
  predicate Closed(caddy: map<Host, Handler>) {
    forall h :: h in caddy ==> caddy[h].Unavailable?
  }

  /** The only row change that reconciliation makes: a healthy pending row becomes active. */
  predicate Promoted(rows: map<Host, Route>, rows': map<Host, Route>) {
    && rows'.Keys == rows.Keys
    && forall h :: h in rows ==>
        rows'[h] == rows[h] || (rows[h].status.Pending? && rows'[h] == rows[h].(status := Active))
  }

  lemma PromotedConfig(rows: map<Host, Route>, rows': map<Host, Route>, held: bool)
    requires Promoted(rows, rows')
    ensures InstanceConfig(rows', held) == InstanceConfig(rows, held)
  {
    var c, c' := InstanceConfig(rows, held), InstanceConfig(rows', held);
    assert c.Keys == c'.Keys;
  }

  /** The whole network state: rows, operations per instance, and Caddy's running configuration. */
  datatype Net = Net(rows: map<Host, Route>, operations: map<InstanceId, seq<Operation>>, caddy: map<Host, Handler>)

  function OperationsOf(net: Net, i: InstanceId): seq<Operation> {
    if i != "" && i in net.operations then net.operations[i] else []
  }

  predicate Held(net: Net, i: InstanceId) { HeldBack(OperationsOf(net, i)) }

  function FullConfig(net: Net): map<Host, Handler> {
    map h | h in net.rows && Listed(net.rows[h]) :: HandlerOf(net.rows[h], Held(net, net.rows[h].instance))
  }

  /** Rows after a successful load: pending rows whose probe is healthy become active, except in maintenance. */
  function AfterProbes(net: Net, healthy: set<Host>): map<Host, Route> {
    map h | h in net.rows ::
      if h in healthy && net.rows[h].status.Pending? && !Held(net, net.rows[h].instance)
      then net.rows[h].(status := Active) else net.rows[h]
  }

  lemma ProbesIgnoreConfig(net: Net, caddy: map<Host, Handler>, healthy: set<Host>)
    ensures AfterProbes(net.(caddy := caddy), healthy) == AfterProbes(net, healthy)
  {
  }

  function Synced(net: Net, load: Reply, healthy: set<Host>): Net {
    match load
    case Refused => net
    case Lost => net.(caddy := FullConfig(net))
    case Done => net.(caddy := FullConfig(net), rows := AfterProbes(net, healthy))
  }

  /** A call on the manager by anyone but the migration coordinator, with the outcome of its Caddy load. */
  datatype Call =
    | Sync(load: Reply, healthy: set<Host>)
    | SetStatus(host: Host, status: RouteStatus, load: Reply, healthy: set<Host>)
    | Delete(host: Host, load: Reply, healthy: set<Host>, removal: Reply)
    | Activate(instance: InstanceId, ports: map<Host, int>, written: set<Host>, load: Reply, healthy: set<Host>)

  /** Row h after activation: active on the reported port, or failed when its node or service is unknown. */
  function Activated(r: Route, h: Host, ports: map<Host, int>): Route {
    if h in ports then r.(status := Active, port := ports[h]) else r.(status := Failed)
  }

  predicate Activates(r: Route, i: InstanceId) { i != "" && r.instance == i && !r.status.Disabled? }

  function ActivatedRows(net: Net, i: InstanceId, ports: map<Host, int>, written: set<Host>): map<Host, Route> {
    map h | h in net.rows ::
      if h in written && Activates(net.rows[h], i) then Activated(net.rows[h], h, ports) else net.rows[h]
  }

  lemma NoneActivated(net: Net, i: InstanceId, ports: map<Host, int>)
    ensures ActivatedRows(net, i, ports, {}) == net.rows
  {
  }

  lemma OneActivated(net: Net, i: InstanceId, ports: map<Host, int>, done: set<Host>, h: Host)
    requires h in net.rows
    ensures var rows := ActivatedRows(net, i, ports, done);
            ActivatedRows(net, i, ports, done + {h}) ==
            if Activates(net.rows[h], i) then rows[h := Activated(net.rows[h], h, ports)] else rows
  {
  }

  /** EnableRoute, DisableRoute, DeleteRoute, ActivateInstanceRoutes and Sync as functions of the state. */
  function Apply(net: Net, c: Call): Net {
    match c
    case Sync(load, healthy) => Synced(net, load, healthy)
    case SetStatus(h, status, load, healthy) =>
      if h !in net.rows || Migrating(OperationsOf(net, net.rows[h].instance)) then net
      else Synced(net.(rows := net.rows[h := net.rows[h].(status := status)]), load, healthy)
    case Delete(h, load, healthy, removal) =>
      if h !in net.rows || Migrating(OperationsOf(net, net.rows[h].instance)) then net
      else
        var s := Synced(net.(rows := net.rows[h := net.rows[h].(status := Deleting)]), load, healthy);
        if load.Done? && removal.Applied() then s.(rows := s.rows - {h}) else s
    case Activate(i, ports, written, load, healthy) =>
      if i == "" || Migrating(OperationsOf(net, i)) then net
      else Synced(net.(rows := ActivatedRows(net, i, ports, written)), load, healthy)
  }

  function RowsOf(net: Net, i: InstanceId): map<Host, Route> {
    map h | h in net.rows && net.rows[h].instance == i :: net.rows[h]
  }

  /** What Caddy serves on the hosts of instance i. */
  function CaddyOf(net: Net, i: InstanceId): map<Host, Handler> {
    map h | h in net.rows && net.rows[h].instance == i && h in net.caddy :: net.caddy[h]
  }

  /** What one manager call may do to an instance whose migration is running. */
  predicate Shielded(rows: map<Host, Route>, caddy: map<Host, Handler>, held: bool,
                     rows': map<Host, Route>, caddy': map<Host, Handler>) {
    && Promoted(rows, rows')
    && (held ==> rows' == rows)
    && (caddy' == caddy || caddy' == InstanceConfig(rows, held))
  }

  lemma SyncShields(net: Net, i: InstanceId, load: Reply, healthy: set<Host>)
    ensures var net' := Synced(net, load, healthy);
            Shielded(RowsOf(net, i), CaddyOf(net, i), Held(net, i), RowsOf(net', i), CaddyOf(net', i))
  {
    var net' := Synced(net, load, healthy);
    assert RowsOf(net', i).Keys == RowsOf(net, i).Keys;
    if load.Applied() {
      assert CaddyOf(net', i).Keys == InstanceConfig(RowsOf(net, i), Held(net, i)).Keys;
      assert CaddyOf(net', i) == InstanceConfig(RowsOf(net, i), Held(net, i));
    }
  }

  /** No manager call changes a migrating instance's rows, and Caddy only ever loads what they say. */
  lemma CallShields(net: Net, c: Call, i: InstanceId)
    requires i != "" && Migrating(OperationsOf(net, i))
    ensures var net' := Apply(net, c);
            && net'.operations == net.operations
            && Shielded(RowsOf(net, i), CaddyOf(net, i), Held(net, i), RowsOf(net', i), CaddyOf(net', i))
  {
    match c
    case Sync(load, healthy) => SyncShields(net, i, load, healthy);
    case SetStatus(h, status, load, healthy) =>
      if h in net.rows && !Migrating(OperationsOf(net, net.rows[h].instance)) {
        ForeignRowThenSync(net, net.(rows := net.rows[h := net.rows[h].(status := status)]), i, load, healthy);
      }
    case Delete(h, load, healthy, _) =>
      if h in net.rows && !Migrating(OperationsOf(net, net.rows[h].instance)) {
        var mid := net.(rows := net.rows[h := net.rows[h].(status := Deleting)]);
        ForeignRowThenSync(net, mid, i, load, healthy);
        ForeignRowRemoved(Synced(mid, load, healthy), h, i);
      }
    case Activate(j, ports, written, load, healthy) =>
      if j != "" && !Migrating(OperationsOf(net, j)) {
        ForeignRowThenSync(net, net.(rows := ActivatedRows(net, j, ports, written)), i, load, healthy);
      }
  }

  lemma ForeignRowThenSync(net: Net, mid: Net, i: InstanceId, load: Reply, healthy: set<Host>)
    requires mid == net.(rows := mid.rows) && mid.rows.Keys == net.rows.Keys
    requires forall h :: h in net.rows ==> mid.rows[h].instance == net.rows[h].instance
    requires forall h :: h in net.rows && net.rows[h].instance == i ==> mid.rows[h] == net.rows[h]
    ensures var net' := Synced(mid, load, healthy);
            && net'.operations == net.operations
            && Shielded(RowsOf(net, i), CaddyOf(net, i), Held(net, i), RowsOf(net', i), CaddyOf(net', i))
  {
    ForeignRowChange(net, mid, i);
    SyncShields(mid, i, load, healthy);
  }

  lemma ForeignRowRemoved(net: Net, h: Host, i: InstanceId)
    requires h in net.rows && net.rows[h].instance != i
    ensures var net' := net.(rows := net.rows - {h});
            RowsOf(net', i) == RowsOf(net, i) && CaddyOf(net', i) == CaddyOf(net, i)
  {
  }

  /** Changing rows of other instances leaves the view of instance i alone. */
  lemma ForeignRowChange(net: Net, mid: Net, i: InstanceId)
    requires mid == net.(rows := mid.rows) && mid.rows.Keys == net.rows.Keys
    requires forall h :: h in net.rows ==> mid.rows[h].instance == net.rows[h].instance
    requires forall h :: h in net.rows && net.rows[h].instance == i ==> mid.rows[h] == net.rows[h]
    ensures RowsOf(mid, i) == RowsOf(net, i) && CaddyOf(mid, i) == CaddyOf(net, i) && Held(mid, i) == Held(net, i)
  {
  }

  /** What reconciliation and activation may do to an instance that is not migrating. */
  predicate Tended(rows: map<Host, Route>, caddy: map<Host, Handler>,
                   rows': map<Host, Route>, caddy': map<Host, Handler>) {
    && rows'.Keys == rows.Keys
    && (forall h :: h in rows ==>
        rows'[h].node == rows[h].node && (rows[h].status.Disabled? <==> rows'[h].status.Disabled?))
    && (forall h :: h in rows && Forwards(rows[h]) ==> Forwards(rows'[h]))
    && (caddy' == caddy || caddy' == InstanceConfig(rows', false))
  }

  /** Outside a migration, activating and syncing never move a row to another node and never revive a disabled one. */
  lemma CallTends(net: Net, c: Call, i: InstanceId)
    requires i != "" && !Migrating(OperationsOf(net, i))
    requires c.Sync? || c.Activate?
    ensures var net' := Apply(net, c);
            Tended(RowsOf(net, i), CaddyOf(net, i), RowsOf(net', i), CaddyOf(net', i))
  {
    match c
    case Sync(load, healthy) => TendedThenSync(net, net, i, load, healthy);
    case Activate(j, ports, written, load, healthy) =>
      if j != "" && !Migrating(OperationsOf(net, j)) {
        TendedThenSync(net, net.(rows := ActivatedRows(net, j, ports, written)), i, load, healthy);
      }
  }

  lemma TendedThenSync(net: Net, mid: Net, i: InstanceId, load: Reply, healthy: set<Host>)
    requires i != "" && !Migrating(OperationsOf(net, i))
    requires mid == net.(rows := mid.rows) && mid.rows.Keys == net.rows.Keys
    requires forall h :: h in net.rows ==>
               && mid.rows[h].instance == net.rows[h].instance && mid.rows[h].node == net.rows[h].node
               && (mid.rows[h].status.Disabled? <==> net.rows[h].status.Disabled?)
               && (Forwards(net.rows[h]) ==> Forwards(mid.rows[h]))
    ensures var net' := Synced(mid, load, healthy);
            Tended(RowsOf(net, i), CaddyOf(net, i), RowsOf(net', i), CaddyOf(net', i))
  {
    hide HeldBack, HandlerOf, Listed, AfterProbes, FullConfig;
    ForeignView(net, mid, i);
    SyncShields(mid, i, load, healthy);
    var rows := RowsOf(Synced(mid, load, healthy), i);
    PromotedConfig(RowsOf(mid, i), rows, false);
    PromotedTended(RowsOf(net, i), RowsOf(mid, i), rows);
  }

  lemma ForeignView(net: Net, mid: Net, i: InstanceId)
    requires mid == net.(rows := mid.rows) && mid.rows.Keys == net.rows.Keys && !Migrating(OperationsOf(net, i))
    requires forall h :: h in net.rows ==> mid.rows[h].instance == net.rows[h].instance
    ensures CaddyOf(mid, i) == CaddyOf(net, i) && RowsOf(mid, i).Keys == RowsOf(net, i).Keys && !Held(mid, i)
  {
  }

  lemma PromotedTended(rows: map<Host, Route>, mid: map<Host, Route>, rows': map<Host, Route>)
    requires mid.Keys == rows.Keys && Promoted(mid, rows')
    requires forall h :: h in rows ==>
               && mid[h].node == rows[h].node && (mid[h].status.Disabled? <==> rows[h].status.Disabled?)
               && (Forwards(rows[h]) ==> Forwards(mid[h]))
    ensures rows'.Keys == rows.Keys
    ensures forall h :: h in rows ==>
              rows'[h].node == rows[h].node && (rows[h].status.Disabled? <==> rows'[h].status.Disabled?)
    ensures forall h :: h in rows && Forwards(rows[h]) ==> Forwards(rows'[h])
  {
  }

  function ApplyAll(net: Net, calls: seq<Call>): Net
    decreases |calls|
  {
    if calls == [] then net else ApplyAll(Apply(net, calls[0]), calls[1..])
  }

  /**
  While instance i is held in maintenance, no sequence of manager calls, whatever their Caddy loads
  report, changes its rows or makes Caddy forward one of its hosts.
  */
  lemma {:induction false} MaintenanceHolds(net: Net, calls: seq<Call>, i: InstanceId)
    requires i != "" && Held(net, i)
    requires Closed(CaddyOf(net, i))
    ensures RowsOf(ApplyAll(net, calls), i) == RowsOf(net, i)
    ensures Closed(CaddyOf(ApplyAll(net, calls), i))
    decreases |calls|
  {
    if calls != [] {
      CallShields(net, calls[0], i);
      MaintenanceHolds(Apply(net, calls[0]), calls[1..], i);
    }
  }

  /** The manager as the control plane runs it. */
  class Manager {
    var rows: map<Host, Route>
    var operations: map<InstanceId, seq<Operation>>
    var caddy: map<Host, Handler>

    ghost function State(): Net
      reads this
    {
      Net(rows, operations, caddy)
    }

    /** Whether a migration of the instance is running; empty names never migrate. */
    method InstanceMigrationActive(i: InstanceId) returns (active: bool)
      ensures active == Migrating(OperationsOf(State(), i))
    {
      if i == "" || i !in operations { return false; }
      var ops := operations[i];
      for k := 0 to |ops|
        invariant forall j :: 0 <= j < k ==> !IsMigration(ops[j])
      {
        if IsMigration(ops[k]) { return true; }
      }
      return false;
    }

    /** Whether maintenance applies to the instance, from its running operations. */
    method InMaintenance(i: InstanceId) returns (held: bool)
      requires i != ""
      ensures held == Held(State(), i)
    {
      var ops := if i in operations then operations[i] else [];
      held := false;
      for k := 0 to |ops|
        invariant held <==> exists n :: 0 <= n < k && IsMigration(ops[n]) && !CarriesTraffic(ops[n].step)
      {
        if IsMigration(ops[k]) && !CarriesTraffic(ops[k].step) { held := true; }
      }
    }

    /**
    The configuration to load. listing is the order in which the query returns the rows; each
    instance's operations are looked up once, and a lookup in failing gives the whole pass up.
    */
    method BuildConfig(listing: seq<Host>, failing: set<InstanceId>)
      returns (ok: bool, held: set<InstanceId>, config: map<Host, Handler>)
      requires forall h :: h in listing <==> h in rows
      ensures ok <==> forall h :: h in rows && rows[h].instance != "" ==> rows[h].instance !in failing
      ensures ok ==> config == FullConfig(State())
      ensures ok ==> forall h :: h in rows ==> (rows[h].instance in held <==> Held(State(), rows[h].instance))
    {
      var checked: set<InstanceId> := {};
      ghost var seen: set<Host> := {};
      ok, held, config := true, {}, map[];
      for k := 0 to |listing|
        invariant held <= checked && "" !in checked
        invariant seen <= rows.Keys && forall j :: 0 <= j < k ==> listing[j] in seen
        invariant forall i :: i in checked ==> i !in failing && (i in held <==> Held(State(), i))
        invariant forall h :: h in seen ==> rows[h].instance == "" || rows[h].instance in checked
        invariant config.Keys <= seen
        invariant forall h :: h in seen ==> (h in config <==> Listed(rows[h]))
        invariant forall h :: h in config ==> config[h] == HandlerOf(rows[h], Held(State(), rows[h].instance))
      {
        var h := listing[k];
        seen := seen + {h};
        var i := rows[h].instance;
        if i != "" && i !in checked {
          if i in failing { return false, {}, map[]; }
          var now := InMaintenance(i);
          held := if now then held + {i} else held;
          checked := checked + {i};
        }
        if Listed(rows[h]) { config := config[h := HandlerOf(rows[h], i in held)]; }
      }
      assert seen == rows.Keys;
    }

    /** Health probes after a load; rows in maintenance are left alone. */
    method Probe(listing: seq<Host>, held: set<InstanceId>, healthy: set<Host>)
      requires forall h :: h in listing <==> h in rows
      requires forall h :: h in rows ==> (rows[h].instance in held <==> Held(State(), rows[h].instance))
      modifies this`rows
      ensures rows == AfterProbes(old(State()), healthy)
    {
      ghost var goal := AfterProbes(State(), healthy);
      var probed: map<Host, Route> := rows;
      for k := 0 to |listing|
        invariant probed.Keys == rows.Keys && rows == old(rows)
        invariant forall h :: h in rows ==> probed[h] == rows[h] || probed[h] == goal[h]
        invariant forall j :: 0 <= j < k ==> probed[listing[j]] == goal[listing[j]]
      {
        var h := listing[k];
        if h in healthy && rows[h].status.Pending? && rows[h].instance !in held {
          probed := probed[h := rows[h].(status := Active)];
        }
      }
      assert probed == goal;
      rows := probed;
    }

    /** The reconciliation pass: Caddy gets the configuration of the rows, or the pass changes nothing. */
    method SyncLocked(listing: seq<Host>, failing: set<InstanceId>, load: Reply, healthy: set<Host>) returns (ok: bool)
      requires forall h :: h in listing <==> h in rows
      modifies this`rows, this`caddy
      ensures (exists h :: h in old(rows) && old(rows)[h].instance != "" && old(rows)[h].instance in failing) ==>
                !ok && State() == old(State())
      ensures (forall h :: h in old(rows) && old(rows)[h].instance != "" ==> old(rows)[h].instance !in failing) ==>
                ok == load.Done? && State() == Synced(old(State()), load, healthy)
    {
      hide FullConfig, AfterProbes, HeldBack;
      var found, held, config := BuildConfig(listing, failing);
      if !found || load.Refused? { return false; }
      caddy := config;
      if load.Lost? { return false; }
      ProbesIgnoreConfig(old(State()), config, healthy);
      Probe(listing, held, healthy);
      return true;
    }

    /** EnableRoute and DisableRoute: refused while the instance migrates. */
    method ChangeStatus(h: Host, status: RouteStatus, listing: seq<Host>, load: Reply, healthy: set<Host>)
        returns (ok: bool)
      requires forall x :: x in listing <==> x in rows
      modifies this`rows, this`caddy
      ensures State() == Apply(old(State()), SetStatus(h, status, load, healthy))
      ensures ok <==> h in old(rows) && !Migrating(OperationsOf(old(State()), old(rows)[h].instance)) && load.Done?
    {
      if h !in rows { return false; }
      var active := InstanceMigrationActive(rows[h].instance);
      if active { return false; }
      rows := rows[h := rows[h].(status := status)];
      ok := SyncLocked(listing, {}, load, healthy);
    }

    /**
    DeleteRoute: nothing to do for an unknown host, and refused while the instance migrates. The row is
    removed only after Caddy has loaded a configuration without it.
    */
    method DeleteRoute(h: Host, listing: seq<Host>, load: Reply, healthy: set<Host>, removal: Reply) returns (ok: bool)
      requires forall x :: x in listing <==> x in rows
      modifies this`rows, this`caddy
      ensures State() == Apply(old(State()), Delete(h, load, healthy, removal))
      ensures ok <==>
                || h !in old(rows)
                || (!Migrating(OperationsOf(old(State()), old(rows)[h].instance)) && load.Done? && removal.Done?)
      ensures h in old(rows) && h !in rows ==> h !in caddy
    {
      if h !in rows { return true; }
      var active := InstanceMigrationActive(rows[h].instance);
      if active { return false; }
      rows := rows[h := rows[h].(status := Deleting)];
      ok := SyncLocked(listing, {}, load, healthy);
      if !ok || removal.Refused? { return false; }
      rows := rows - {h};
      ok := removal.Done?;
    }

    /**
    The row loop of an activation, up to the given position; disabled rows and rows of other instances are
    skipped.
    */
    method ActivateRows(i: InstanceId, ports: map<Host, int>, listing: seq<Host>, stop: nat)
      requires i != "" && stop <= |listing|
      requires forall x :: x in listing <==> x in rows
      modifies this`rows
      ensures rows == ActivatedRows(old(State()), i, ports, set h | h in listing[..stop])
    {
      hide ActivatedRows;
      ghost var done: set<Host> := {};
      var updated := rows;
      NoneActivated(State(), i, ports);
      for k := 0 to stop
        invariant State() == old(State()) && done == set h | h in listing[..k]
        invariant updated == ActivatedRows(State(), i, ports, done)
      {
        var h := listing[k];
        OneActivated(State(), i, ports, done, h);
        assert listing[..k + 1] == listing[..k] + [h];
        done := done + {h};
        if rows[h].instance == i && !rows[h].status.Disabled? {
          updated := updated[h := Activated(rows[h], h, ports)];
        }
      }
      rows := updated;
    }

    /**
    ActivateInstanceRoutes: a no-op while the instance migrates, and never revives a disabled row. When a
    row write fails after some rows, the call returns without loading Caddy.
    */
    method ActivateInstanceRoutes(i: InstanceId, ports: map<Host, int>, listing: seq<Host>, fails: Option<nat>,
        load: Reply, healthy: set<Host>)
      returns (ok: bool)
      requires i != ""
      requires forall x :: x in listing <==> x in rows
      modifies this`rows, this`caddy
      ensures fails.None? ==> State() == Apply(old(State()), Activate(i, ports, old(rows).Keys, load, healthy))
      ensures fails.Some? ==>
                var stop := if fails.value < |listing| then fails.value else |listing|;
                State() == Apply(old(State()), Activate(i, ports, (set h | h in listing[..stop]), Refused, healthy))
                && (ok <==> Migrating(OperationsOf(old(State()), i)))
    {
      var active := InstanceMigrationActive(i);
      if active { return true; }
      if fails.Some? {
        ActivateRows(i, ports, listing, if fails.value < |listing| then fails.value else |listing|);
        return false;
      }
      ActivateRows(i, ports, listing, |listing|);
      assert (set h | h in listing[..|listing|]) == old(rows).Keys;
      ok := SyncLocked(listing, {}, load, healthy);
    }
  }
}
