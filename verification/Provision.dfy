/**
Idempotent provisioning (internal/database/provision_requests.go, internal/api/provision_idempotency.go).
Each event is one database transaction, so a run covers every interleaving of concurrent handlers.
*/
module Provision {
  import opened Wrappers
  import opened Capacity

  datatype Key = Key(customer: string, keyHash: string)

  /** A claimed key; status 0 means that no response is stored yet. */
  datatype Record = Record(requestHash: string, instance: string, operation: string, task: string, status: int,
      body: string)

  datatype App = App(customer: string, node: string, tier: Size)
  datatype Operation = Operation(instance: string, node: string, task: string)

  datatype Store = Store(
    requests: map<Key, Record>, apps: map<string, App>, operations: map<string, Operation>, nodes: map<string, Node>)

  /** The identifiers are generated by the handler; rowsAccepted says whether the other constraints of the rows hold. */
  datatype Request = Request(
    key: Key, requestHash: string, instance: string, operation: string, task: string, node: string, size: Size,
    rowsAccepted: bool)

  datatype Event =
    | Reserve(request: Request, commit: Reply)
    | Complete(key: Key, status: int, body: string, write: Reply)
    | Adjust(node: string, delta: Size)

  // ---- One transaction ----

  function NewRecord(r: Request): Record { Record(r.requestHash, r.instance, r.operation, r.task, 0, "") }

  /** The transaction gets as far as its commit. */
  predicate Prepared(s: Store, r: Request) {
    && r.key !in s.requests
    && r.node in s.nodes && ReserveGuard(s.nodes[r.node], r.size)
    && r.instance !in s.apps && r.operation !in s.operations && r.rowsAccepted
  }

  function Created(s: Store, r: Request): Store
    requires r.node in s.nodes
  {
    Store(s.requests[r.key := NewRecord(r)],
          s.apps[r.instance := App(r.key.customer, r.node, r.size)],
          s.operations[r.operation := Operation(r.instance, r.node, r.task)],
          s.nodes[r.node := s.nodes[r.node].(committed := s.nodes[r.node].committed.Plus(r.size))])
  }

  predicate Completes(s: Store, key: Key, write: Reply) {
    key in s.requests && s.requests[key].status == 0 && write.Applied()
  }

  function After(s: Store, e: Event): Store {
    match e
    case Reserve(r, commit) => if Prepared(s, r) && commit.Applied() then Created(s, r) else s
    case Complete(key, status, body, write) =>
      if Completes(s, key, write)
      then s.(requests := s.requests[key := s.requests[key].(status := status, body := body)]) else s
    case Adjust(node, delta) =>
      if node in s.nodes
      then s.(nodes := s.nodes[node := s.nodes[node].(committed := s.nodes[node].committed.Plus(delta))]) else s
  }

  /** The event creates an instance, an operation and a reservation for the key. */
  predicate Creates(s: Store, e: Event, key: Key) {
    e.Reserve? && e.request.key == key && Prepared(s, e.request) && e.commit.Applied()
  }

  // ---- The database ----

  datatype Outcome =
    | New(record: Record) | Existing(record: Record) | Mismatch(record: Record)
    | PolicyBlocked | RowRefused | CommitFailed

  datatype Answer =
    | StoredResponse(status: int, body: string) | Processing(instance: string, operation: string) | KeyConflict

  /** writeProvisionReplay and the mismatch check before it. */
  function ReplayOf(record: Record, requestHash: string): Answer {
    if record.requestHash != requestHash then KeyConflict
    else if record.status > 0 && record.body != "" then StoredResponse(record.status, record.body)
    else Processing(record.instance, record.operation)
  }

  class Database {
    var requests: map<Key, Record>
    var apps: map<string, App>
    var operations: map<string, Operation>
    var nodes: map<string, Node>

    ghost function State(): Store reads this { Store(requests, apps, operations, nodes) }

    /**
    ReserveIdempotentProvision: claim the key, reserve capacity, insert both rows, commit; any error
    rolls everything back, so that the key stays unclaimed.
    */
    method ReserveIdempotentProvision(r: Request, commit: Reply) returns (outcome: Outcome)
      modifies this
      ensures State() == After(old(State()), Reserve(r, commit))
      ensures outcome.New? <==> Prepared(old(State()), r) && commit.Done?
      ensures outcome.New? ==> r.key in requests && outcome.record == requests[r.key]
      ensures r.key in old(requests) <==> outcome.Existing? || outcome.Mismatch?
      ensures r.key in old(requests) ==>
                outcome.record == old(requests)[r.key]
                    && (outcome.Mismatch? <==> outcome.record.requestHash != r.requestHash)
      ensures !outcome.New? && !outcome.CommitFailed? ==> State() == old(State())
      ensures outcome.CommitFailed? ==> (State() == old(State()) <==> commit.Refused?)
      ensures outcome.PolicyBlocked? || outcome.RowRefused? ==> r.key !in requests
    {
      var before := (requests, apps, operations, nodes);
      if r.key in requests {
        var existing := requests[r.key];
        return if existing.requestHash != r.requestHash then Mismatch(existing) else Existing(existing);
      }
      requests := requests[r.key := NewRecord(r)];
      if r.node !in nodes || !ReserveGuard(nodes[r.node], r.size) {
        requests := before.0;
        return PolicyBlocked;
      }
      var n := nodes[r.node];
      nodes := nodes[r.node := n.(committed := n.committed.Plus(r.size))];
      if r.instance in apps || !r.rowsAccepted {
        requests, nodes := before.0, before.3;
        return RowRefused;
      }
      apps := apps[r.instance := App(r.key.customer, r.node, r.size)];
      if r.operation in operations {
        requests, apps, nodes := before.0, before.1, before.3;
        return RowRefused;
      }
      operations := operations[r.operation := Operation(r.instance, r.node, r.task)];
      if commit.Refused? {
        requests, apps, operations, nodes := before.0, before.1, before.2, before.3;
        return CommitFailed;
      }
      assert r.key in requests && r.key !in before.0;
      return if commit.Done? then New(NewRecord(r)) else CommitFailed;
    }

    /** CompleteProvisionRequest writes only the first response; another one is accepted only if it is equal. */
    method CompleteProvisionRequest(key: Key, status: int, body: string, write: Reply) returns (ok: bool)
      modifies this
      ensures State() == After(old(State()), Complete(key, status, body, write))
      ensures ok && write.Done? ==> key in requests && requests[key].status == status && requests[key].body == body
      ensures key in old(requests) && old(requests)[key].status != 0 ==> State() == old(State())
    {
      if key in requests && requests[key].status == 0 {
        if write.Applied() { requests := requests[key := requests[key].(status := status, body := body)]; }
        return write.Done?;
      }
      if !write.Done? { return false; }
      ok := key in requests && requests[key].status == status && requests[key].body == body;
    }

    /** replayProvisionIfPresent only reads. */
    method ReplayIfPresent(key: Key, requestHash: string) returns (answer: Option<Answer>)
      ensures answer.Some? <==> key in requests
      ensures answer.Some? ==> answer.value == ReplayOf(requests[key], requestHash)
    {
      if key !in requests { return None; }
      return Some(ReplayOf(requests[key], requestHash));
    }
  }

  // ---- Runs ----

  ghost predicate IsRun(states: seq<Store>, events: seq<Event>) {
    && |states| == |events| + 1 && states[0].requests == map[]
    && forall k :: 0 <= k < |events| ==> states[k + 1] == After(states[k], events[k])
  }

  /** The identity of a record; it never changes. */
  predicate SameClaim(a: Record, b: Record) {
    a.requestHash == b.requestHash && a.instance == b.instance && a.operation == b.operation && a.task == b.task
  }

  /** A claimed key keeps its identifiers, and its response once there is one. */
  predicate Stable(s: Store, t: Store, key: Key) {
    key in s.requests ==>
      && key in t.requests && SameClaim(s.requests[key], t.requests[key])
      && (s.requests[key].status != 0 ==> t.requests[key] == s.requests[key])
  }

  lemma {:induction false} ClaimsStable(states: seq<Store>, events: seq<Event>, i: nat, j: nat, key: Key)
    requires IsRun(states, events) && i <= j < |states|
    ensures Stable(states[i], states[j], key)
  {
    if i < j { ClaimsStable(states, events, i, j - 1, key); }
  }

  /** How many of the first k events create something for the key. */
  ghost function Creations(states: seq<Store>, events: seq<Event>, key: Key, k: nat): nat
    requires k <= |events| < |states|
  {
    if k == 0
    then 0 else Creations(states, events, key, k - 1) + (if Creates(states[k - 1], events[k - 1], key) then 1 else 0)
  }

  /** In every run a key is claimed exactly when something was created for it, and that happens at most once. */
  lemma {:induction false} CreatedAtMostOnce(states: seq<Store>, events: seq<Event>, key: Key, k: nat)
    requires IsRun(states, events) && k <= |events|
    ensures Creations(states, events, key, k) == if key in states[k].requests then 1 else 0
  {
    if k > 0 { CreatedAtMostOnce(states, events, key, k - 1); }
  }

  /**
  A later request with the same key changes nothing; it sees the identifiers of the first, or a conflict if
  it differs.
  */
  lemma ReplaySees(states: seq<Store>, events: seq<Event>, i: nat, j: nat, key: Key)
    requires IsRun(states, events) && i < j < |events| && Creates(states[i], events[i], key)
    requires events[j].Reserve? && events[j].request.key == key
    ensures states[j + 1] == states[j] && key in states[j].requests
    ensures var first, r := events[i].request, states[j].requests[key];
            var answer := ReplayOf(r, events[j].request.requestHash);
            && r.instance == first.instance && r.operation == first.operation && r.task == first.task
            && (answer.KeyConflict? <==> events[j].request.requestHash != first.requestHash)
            && (answer.Processing? ==> answer == Processing(first.instance, first.operation))
  {
    ClaimsStable(states, events, i + 1, j, key);
  }

  /** A request whose transaction does not commit leaves no trace, and its key can be used again. */
  lemma RefusedLeavesNoTrace(s: Store, e: Event)
    requires e.Reserve? && !Creates(s, e, e.request.key)
    ensures After(s, e) == s
  {
  }

  /** Every claimed key has one instance and one operation of its own, and they belong together. */
  predicate Paired(s: Store) {
    && (forall k :: k in s.requests ==>
          var r := s.requests[k];
          && r.instance in s.apps && r.operation in s.operations
          && s.operations[r.operation].instance == r.instance && s.operations[r.operation].task == r.task
          && s.apps[r.instance].customer == k.customer && s.apps[r.instance].node == s.operations[r.operation].node)
    && (forall k, l :: k in s.requests && l in s.requests && k != l ==>
          s.requests[k].instance != s.requests[l].instance && s.requests[k].operation != s.requests[l].operation)
  }

  lemma PairedStep(s: Store, e: Event)
    requires Paired(s)
    ensures Paired(After(s, e))
  {
    hide ReserveGuard, Capacity.Reserve;
    match e
    case Reserve(r, _) => CreatedPaired(s, r);
    case Complete(_, _, _, _) =>
    case Adjust(_, _) =>
  }

  lemma CreatedPaired(s: Store, r: Request)
    requires Paired(s)
    ensures Prepared(s, r) ==> Paired(Created(s, r))
  {
    hide ReserveGuard, Capacity.Reserve;
  }

  lemma {:induction false} AlwaysPaired(states: seq<Store>, events: seq<Event>, k: nat)
    requires IsRun(states, events) && k < |states|
    ensures Paired(states[k])
  {
    hide After;
    if k > 0 {
      AlwaysPaired(states, events, k - 1);
      PairedStep(states[k - 1], events[k - 1]);
    }
  }

  /** What an event adds to a node's commitment. */
  ghost function Added(s: Store, e: Event, node: string): Size {
    if e.Reserve? && e.request.node == node && Creates(s, e, e.request.key) then e.request.size
    else if e.Adjust? && e.node == node then e.delta
    else Size(0, 0)
  }

  ghost function AddedBy(states: seq<Store>, events: seq<Event>, node: string, k: nat): Size
    requires k <= |events| < |states|
  {
    if k == 0 then Size(0, 0) else AddedBy(states, events, node, k - 1).Plus(Added(states[k - 1], events[k - 1], node))
  }

  lemma AddedStep(s: Store, e: Event, node: string)
    requires node in s.nodes
    ensures node in After(s, e).nodes
    ensures After(s, e).nodes[node].committed == s.nodes[node].committed.Plus(Added(s, e, node))
  {
    hide ReserveGuard;
  }

  /**
  A node's commitment is what it was, plus one tier for each provision that created something there, plus
  other changes.
  */
  lemma {:induction false} CommitmentAdds(states: seq<Store>, events: seq<Event>, node: string, k: nat)
    requires IsRun(states, events) && k <= |events| && node in states[0].nodes
    ensures node in states[k].nodes
    ensures states[k].nodes[node].committed == states[0].nodes[node].committed.Plus(AddedBy(states, events, node, k))
  {
    hide After, Added;
    if k > 0 {
      CommitmentAdds(states, events, node, k - 1);
      AddedStep(states[k - 1], events[k - 1], node);
    }
  }
}
