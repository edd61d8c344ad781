/**
Serialization of migrations (internal/database/operations.go): the migration operation is inserted
under a lock on the instance row, and only when the instance is running where it was found and has no
open operation.
*/
module Operations {
  import opened Wrappers

  datatype Operation = Operation(instance: string, action: string, status: string)

  datatype App = App(node: Option<string>, tech: string)

  datatype Rows = Rows(operations: map<string, Operation>, apps: map<string, App>)

  const MIGRATE := "migrate"

  predicate Active(o: Operation) { o.status == "pending_dispatch" || o.status == "queued" || o.status == "running" }

  /** Anything that happens to the two tables; a migration's own operation is only ever settled. */
  datatype Event =
    | StartMigration(id: string, instance: string, source: string, reply: Reply)
    | Insert(id: string, row: Operation)
    | SetStatus(id: string, status: string)
    | SetApp(instance: string, app: App)

  predicate Enabled(s: Rows, e: Event) {
    match e
    case Insert(id, row) => row.action != MIGRATE
    case SetStatus(id, status) =>
      id in s.operations && s.operations[id].action == MIGRATE ==> status in {"succeeded", "failed", "cancelled"}
    case _ => true
  }

  predicate MayStart(s: Rows, id: string, instance: string, source: string) {
    && instance in s.apps && s.apps[instance] == App(Some(source), "running")
    && (forall o :: o in s.operations && s.operations[o].instance == instance ==> !Active(s.operations[o]))
    && id !in s.operations
  }

  function Apply(s: Rows, e: Event): Rows {
    match e
    case StartMigration(id, instance, source, reply) =>
      if MayStart(s, id, instance, source) && reply.Applied()
      then s.(operations := s.operations[id := Operation(instance, MIGRATE, "running")]) else s
    case Insert(id, row) => if id in s.operations then s else s.(operations := s.operations[id := row])
    case SetStatus(id, status) =>
      if id in s.operations then s.(operations := s.operations[id := s.operations[id].(status := status)]) else s
    case SetApp(instance, app) => s.(apps := s.apps[instance := app])
  }

  ghost predicate IsRun(states: seq<Rows>, events: seq<Event>) {
    && |states| == |events| + 1 && states[0].operations == map[]
    && forall k :: 0 <= k < |events| ==> Enabled(states[k], events[k]) && states[k + 1] == Apply(states[k], events[k])
  }

  predicate Migrating(s: Rows, o: string, instance: string) {
    o in s.operations && s.operations[o].instance == instance && s.operations[o].action == MIGRATE
        && Active(s.operations[o])
  }

  /** However requests race, an instance has at most one unsettled migration. */
  lemma {:induction false} OneMigration(states: seq<Rows>, events: seq<Event>, k: nat, instance: string, a: string,
      b: string)
    requires IsRun(states, events) && k < |states| && Migrating(states[k], a, instance)
    requires Migrating(states[k], b, instance)
    ensures a == b
  {
    if k > 0 && Migrating(states[k - 1], a, instance) && Migrating(states[k - 1], b, instance) {
      OneMigration(states, events, k - 1, instance, a, b);
    }
  }

  class Store {
    var operations: map<string, Operation>
    var apps: map<string, App>

    ghost function State(): Rows reads this { Rows(operations, apps) }

    /** CreateMigrationOperation */
    method CreateMigrationOperation(id: string, instance: string, source: string, reply: Reply) returns (ok: bool)
      modifies this
      ensures State() == Apply(old(State()), StartMigration(id, instance, source, reply))
      ensures ok <==> MayStart(old(State()), id, instance, source) && reply.Done?
    {
      if instance !in apps { return false; }
      if apps[instance].node != Some(source) || apps[instance].tech != "running" { return false; }
      if exists o :: o in operations && operations[o].instance == instance && Active(operations[o]) { return false; }
      if id in operations || reply.Refused? { return false; }
      operations := operations[id := Operation(instance, MIGRATE, "running")];
      return reply.Done?;
    }
  }
}
