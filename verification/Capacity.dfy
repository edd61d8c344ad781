/**
Node capacity: the guarded reservation, the clamped release, the policy recompute that the guard
relies on, and the choice of a node for a tier (internal/database/database.go,
internal/database/health.go, internal/api/handlers_policy.go).
*/
module Capacity {
  import opened Wrappers

  /** Bytes of memory and of disk. */
  datatype Size = Size(ram: int, disk: int) {
    function Plus(s: Size): Size { Size(ram + s.ram, disk + s.disk) }
    function Minus(s: Size): Size { Size(ram - s.ram, disk - s.disk) }
    predicate AtMost(s: Size) { ram <= s.ram && disk <= s.disk }
    predicate Positive() { 0 < ram && 0 < disk }
    predicate NonNegative() { 0 <= ram && 0 <= disk }
  }

  datatype Node = Node(
    id: string, role: string, status: string, manualDisabled: bool, health: string, available: bool,
    total: Size, used: Size, metricsAt: Option<int>, limit: Size, committed: Size)

  /** Seconds after which node metrics are stale. */
  const METRICS_STALE_AFTER := 180

  function Max(a: int, b: int): int { if a < b then b else a }

  /** The WHERE clause of the reservation. */
  predicate ReserveGuard(n: Node, s: Size) {
    && n.status == "active"
    && n.health == "healthy"
    && n.available
    && n.limit.Positive()
    && n.committed.Plus(s).AtMost(n.limit)
  }

  function Reserve(n: Node, s: Size): Option<Node> {
    if ReserveGuard(n, s) then Some(n.(committed := n.committed.Plus(s))) else None
  }

  /** Release clamps each counter at zero. */
  function Release(n: Node, s: Size): Node {
    n.(committed := Size(Max(n.committed.ram - s.ram, 0), Max(n.committed.disk - s.disk, 0)))
  }

  /** A release undoes a reservation exactly when nothing else took the counters below zero. */
  lemma ReleaseUndoesReserve(n: Node, s: Size)
    requires s.NonNegative() && Reserve(n, s).Some?
    ensures Release(Reserve(n, s).value, s) == n <==> n.committed.NonNegative()
  {
  }

  /** How totals give commit limits; the rounding is left open. */
  datatype Limits = Limits(ram: int -> int, disk: int -> int) {
    function Of(total: Size): Size { Size(ram(total.ram), disk(total.disk)) }
  }

  predicate MetricsFresh(n: Node, now: int) {
    n.metricsAt.Some? && now - n.metricsAt.value <= METRICS_STALE_AFTER
  }

  predicate MetricsValid(n: Node) {
    n.total.Positive() && n.used.NonNegative() && n.used.AtMost(n.total)
  }

  /** At least 90 per cent in use. */
  predicate Critical(used: int, total: int)
    requires total > 0
  {
    used as real / total as real >= 0.9
  }

  function Reason(present: bool, code: string): seq<string> { if present then [code] else [] }

  /** The reasons for which a worker node is unhealthy, given its freshly computed limits. */
  function HealthReasons(n: Node, limit: Size, now: int): seq<string> {
    var valid := MetricsValid(n) && limit.Positive();
    Reason(n.status != "active", "fleet_offline")
    + Reason(n.manualDisabled, "manual_disabled")
    + Reason(!MetricsFresh(n, now), "metrics_stale")
    + Reason(!valid, "invalid_metrics")
    + Reason(valid && Critical(n.used.ram, n.total.ram), "ram_usage_critical")
    + Reason(valid && Critical(n.used.disk, n.total.disk), "disk_usage_critical")
  }

  function AvailabilityReasons(n: Node, limit: Size, now: int): seq<string> {
    HealthReasons(n, limit, now)
    + Reason(limit.ram <= 0 || n.committed.ram >= limit.ram, "insufficient_ram_commit_capacity")
    + Reason(limit.disk <= 0 || n.committed.disk >= limit.disk, "insufficient_disk_commit_capacity")
  }

  /** The policy recompute of a worker node. */
  function Recompute(n: Node, limits: Limits, now: int): Node {
    var limit := limits.Of(n.total);
    n.(limit := limit,
       health := if HealthReasons(n, limit, now) == [] then "healthy" else "unhealthy",
       available := AvailabilityReasons(n, limit, now) == [])
  }

  /** The recompute that follows a reservation or a release on a worker, if its writes succeed. */
  function Refreshed(n: Node, limits: Limits, now: int, recomputed: bool): Node {
    if recomputed && n.role != "portal" then Recompute(n, limits, now) else n
  }

  /** The node's counters and policy columns may differ, the rest not. */
  predicate SamePlace(a: Node, b: Node) {
    b == a.(committed := b.committed, limit := b.limit, health := b.health, available := b.available)
  }

  /** A recompute touches the policy columns only, and does not depend on what they were. */
  lemma RecomputeSettles(a: Node, b: Node, limits: Limits, now: int)
    requires SamePlace(a, b)
    ensures Recompute(b, limits, now) == Recompute(a.(committed := b.committed), limits, now)
    ensures SamePlace(a, Recompute(b, limits, now)) && Recompute(b, limits, now).committed == b.committed
  {
  }

  /** The limit an evaluation uses: the stored one, or a computed one while none is stored. */
  function EffectiveLimit(n: Node, limits: Limits): Size {
    Size(if n.limit.ram <= 0 then limits.ram(n.total.ram) else n.limit.ram,
         if n.limit.disk <= 0 then limits.disk(n.total.disk) else n.limit.disk)
  }

  function RejectionReasons(n: Node, request: Size, limits: Limits, now: int): seq<string> {
    var limit := EffectiveLimit(n, limits);
    Reason(n.role == "admin" || n.role == "portal", "not_a_worker_node")
    + Reason(n.status != "active" || n.health != "healthy", "node_unhealthy")
    + Reason(n.manualDisabled, "manual_disabled")
    + Reason(!MetricsFresh(n, now), "metrics_stale")
    + Reason(!MetricsValid(n), "invalid_metrics")
    + Reason(limit.ram <= 0 || n.committed.ram + request.ram > limit.ram, "insufficient_ram_commit_capacity")
    + Reason(limit.disk <= 0 || n.committed.disk + request.disk > limit.disk, "insufficient_disk_commit_capacity")
  }

  predicate Eligible(n: Node, request: Size, limits: Limits, now: int) {
    RejectionReasons(n, request, limits, now) == []
  }

  function Remaining(n: Node, request: Size, limits: Limits): Size {
    EffectiveLimit(n, limits).Minus(n.committed.Plus(request))
  }

  /**
  No reason for rejection remains exactly for a healthy, enabled worker with fresh metrics and room under
  its effective limit.
  */
  lemma EligibleMeans(n: Node, request: Size, limits: Limits, now: int)
    ensures Eligible(n, request, limits, now) <==>
            && n.role != "admin" && n.role != "portal" && n.status == "active" && n.health == "healthy"
            && !n.manualDisabled
            && MetricsFresh(n, now) && MetricsValid(n)
            && EffectiveLimit(n, limits).Positive() && n.committed.Plus(request).AtMost(EffectiveLimit(n, limits))
  {
  }

  /**
  Right after a recompute, a node judged eligible is one the reservation accepts exactly when it is
  below both of its limits. A request that needs more of each resource always finds it so; one that
  needs none of some resource can be judged eligible on a full node and then be refused.
  */
  lemma EligibleThenReserved(n: Node, request: Size, limits: Limits, now: int)
    requires Eligible(Recompute(n, limits, now), request, limits, now)
    ensures var m := Recompute(n, limits, now);
            && (Reserve(m, request).Some? <==> m.committed.ram < m.limit.ram && m.committed.disk < m.limit.disk)
            && (request.Positive() ==> Reserve(m, request).Some?)
  {
    hide RejectionReasons;
    EligibleMeans(Recompute(n, limits, now), request, limits, now);
  }

  /** Byte-wise order of node names. */
  predicate NameBefore(a: string, b: string) {
    b != [] && (a == [] || a[0] < b[0] || (a[0] == b[0] && NameBefore(a[1..], b[1..])))
  }

  lemma {:induction false} NameOrderTotal(a: string, b: string)
    ensures a != b ==> NameBefore(a, b) || NameBefore(b, a)
    ensures !(NameBefore(a, b) && NameBefore(b, a))
    ensures !NameBefore(a, a)
  {
    if a != [] {
      NameOrderTotal(a[1..], a[1..]);
      if b != [] && a[0] == b[0] {
        NameOrderTotal(a[1..], b[1..]);
        assert a == [a[0]] + a[1..] && b == [b[0]] + b[1..];
      }
    }
  }

  lemma {:induction false} NameOrderTransitive(a: string, b: string, c: string)
    requires NameBefore(a, b) && NameBefore(b, c)
    ensures NameBefore(a, c)
  {
    if a != [] && a[0] == b[0] == c[0] {
      NameOrderTransitive(a[1..], b[1..], c[1..]);
    }
  }

  datatype Evaluation = Evaluation(id: string, eligible: bool, remaining: Size)

  function Evaluate(n: Node, request: Size, limits: Limits, now: int): Evaluation {
    var e := Eligible(n, request, limits, now);
    Evaluation(n.id, e, if e then Remaining(n, request, limits) else Size(0, 0))
  }

  /** a is preferred to b: more memory left, then more disk left, then the smaller name. */
  predicate Preferred(a: Evaluation, b: Evaluation) {
    || a.remaining.ram > b.remaining.ram
    || (a.remaining.ram == b.remaining.ram && a.remaining.disk > b.remaining.disk)
    || (a.remaining == b.remaining && NameBefore(a.id, b.id))
  }

  lemma PreferredTransitive(a: Evaluation, b: Evaluation, c: Evaluation)
    requires Preferred(a, b) && Preferred(b, c)
    ensures Preferred(a, c)
  {
    if a.remaining == b.remaining == c.remaining { NameOrderTransitive(a.id, b.id, c.id); }
  }

  /** Nodes are keyed by a non-empty name. */
  predicate UniqueNames(nodes: seq<Node>) {
    && (forall k :: 0 <= k < |nodes| ==> nodes[k].id != "")
    && (forall j, k :: 0 <= j < k < |nodes| ==> nodes[j].id != nodes[k].id)
  }

  function Evaluations(nodes: seq<Node>, request: Size, limits: Limits, now: int): (es: seq<Evaluation>)
    ensures |es| == |nodes| && forall k :: 0 <= k < |nodes| ==> es[k].id == nodes[k].id
  {
    seq(|nodes|, k requires 0 <= k < |nodes| => Evaluate(nodes[k], request, limits, now))
  }

  /** Nodes the caller may use: every eligible one, or the one it names if that is eligible. */
  predicate Candidate(e: Evaluation, wanted: string) { e.eligible && (wanted == "" || e.id == wanted) }

  /** Position k holds the best candidate of es. */
  predicate Best(es: seq<Evaluation>, k: nat, wanted: string)
    requires k < |es|
  {
    && Candidate(es[k], wanted)
    && forall j :: 0 <= j < |es| && j != k && Candidate(es[j], wanted) ==> Preferred(es[k], es[j])
  }

  /** Finds the evaluation already recorded under a name. */
  method Recorded(evaluations: seq<Evaluation>, id: string, ghost e: Evaluation) returns (found: Evaluation)
    requires e in evaluations && e.id == id
    requires forall x :: x in evaluations && x.id == id ==> x == e
    ensures found == e
  {
    found := evaluations[0];
    for k := 0 to |evaluations|
      invariant e in evaluations[k..]
    {
      if evaluations[k].id == id { return evaluations[k]; }
    }
  }

  /** Adding a candidate that is preferred to the best so far makes it the best; one that is not leaves the best. */
  lemma BestExtends(es: seq<Evaluation>, best: nat, e: Evaluation, wanted: string)
    requires best < |es| && Best(es, best, wanted) && e.id != es[best].id
    ensures Candidate(e, wanted) && Preferred(e, es[best]) ==> Best(es + [e], |es|, wanted)
    ensures !(Candidate(e, wanted) && Preferred(e, es[best])) ==> Best(es + [e], best, wanted)
  {
    NameOrderTotal(e.id, es[best].id);
    if Preferred(e, es[best]) {
      forall j | 0 <= j < |es| && j != best && Candidate(es[j], wanted)
        ensures Preferred(e, es[j])
      {
        PreferredTransitive(e, es[best], es[j]);
      }
    }
  }

  /**
  Node selection. The winner is the best eligible candidate under the memory-then-disk-then-name
  order, whatever order the nodes are listed in; an empty name comes back only when there is none.
  A request that is not positive in both resources is an error.
  */
  method SelectNode(nodes: seq<Node>, request: Size, wanted: string, limits: Limits, now: int)
      returns (valid: bool, winner: string)
    requires UniqueNames(nodes)
    ensures valid <==> request.Positive()
    ensures valid ==> var es := Evaluations(nodes, request, limits, now);
            && (winner == "" <==> forall k :: 0 <= k < |es| ==> !Candidate(es[k], wanted))
            && (winner != "" ==> exists k :: 0 <= k < |es| && es[k].id == winner && Best(es, k, wanted))
  {
    hide Preferred, Evaluate;
    winner := "";
    if !request.Positive() { return false, winner; }
    valid := true;
    ghost var es := Evaluations(nodes, request, limits, now);
    var evaluations: seq<Evaluation> := [];
    ghost var best: nat := 0;
    for k := 0 to |nodes|
      invariant forall e :: e in evaluations ==> e in es[..k]
      invariant winner == "" ==> forall j :: 0 <= j < k ==> !Candidate(es[j], wanted)
      invariant winner != "" ==>
                best < k && es[best].id == winner && es[best] in evaluations && Best(es[..k], best, wanted)
    {
      assert es[..k] + [es[k]] == es[..k + 1];
      if winner != "" { BestExtends(es[..k], best, es[k], wanted); }
      var n := nodes[k];
      if wanted != "" && n.id != wanted { continue; }
      var evaluation := Evaluate(n, request, limits, now);
      evaluations := evaluations + [evaluation];
      if !evaluation.eligible { continue; }
      if winner == "" {
        winner, best := n.id, k;
        continue;
      }
      var current := Recorded(evaluations, winner, es[best]);
      if Preferred(evaluation, current) {
        winner, best := n.id, k;
      }
    }
    assert es[..|nodes|] == es;
  }
}
