/**
The two-phase capacity ledger of a resize: the request reserves what grows, the callback gives back
what shrank or, after a failure, what had been reserved (internal/api/handlers_instances.go,
internal/api/handlers_fleet.go).
*/
module Resize {
  import opened Wrappers
  import opened Capacity

  datatype Tier = Tier(name: string, size: Size)

  /** What each resource grows by from a to b, zero where it shrinks. */
  function Growth(a: Size, b: Size): Size { Size(Max(b.ram - a.ram, 0), Max(b.disk - a.disk, 0)) }

  function Larger(a: Size, b: Size): Size { Size(Max(a.ram, b.ram), Max(a.disk, b.disk)) }

  predicate Grows(s: Size) { s.ram > 0 || s.disk > 0 }

  /** The request: a reservation of the growth, if there is any. */
  function Request(n: Node, current: Size, target: Size): Option<Node> {
    if Grows(Growth(current, target)) then Reserve(n, Growth(current, target)) else Some(n)
  }

  /**
  What a callback gives back: snapshot is the tier stored with the instance, target the one named by the
  callback.
  */
  function Back(snapshot: Size, target: Size, success: bool): Size {
    if success then Growth(target, snapshot) else Growth(snapshot, target)
  }

  function Callback(n: Node, snapshot: Size, target: Size, success: bool): Node {
    if Grows(Back(snapshot, target, success)) then Release(n, Back(snapshot, target, success)) else n
  }

  /** The target tier of a successful callback: the one the operation recorded, if the callback names it. */
  function ResolvedTarget(recorded: Option<Tier>, named: Tier, defined: seq<Tier>): Option<Tier> {
    if recorded.Some? then (if recorded.value.name == named.name then recorded else None)
    else FirstNamed(defined, named)
  }

  /** Older operations recorded no tier: the definition supplies the name, the callback the resources. */
  function FirstNamed(defined: seq<Tier>, named: Tier): Option<Tier> {
    if defined == [] then None
    else if defined[0].name == named.name then Some(defined[0].(size := named.size))
    else FirstNamed(defined[1..], named)
  }

  /** Whatever resolves carries the name in the callback, and recorded resources win over reported ones. */
  lemma {:induction false} ResolvedNames(recorded: Option<Tier>, named: Tier, defined: seq<Tier>)
    ensures ResolvedTarget(recorded, named, defined).Some? ==>
              ResolvedTarget(recorded, named, defined).value.name == named.name
    ensures recorded.None? ==>
              (ResolvedTarget(recorded, named, defined).Some? <==>
                  exists k :: 0 <= k < |defined| && defined[k].name == named.name)
    ensures recorded.None? && ResolvedTarget(recorded, named, defined).Some? ==>
              ResolvedTarget(recorded, named, defined).value.size == named.size
    decreases |defined|
  {
    if recorded.None? && defined != [] {
      ResolvedNames(recorded, named, defined[1..]);
      if defined[0].name != named.name {
        var rest := defined[1..];
        assert forall k :: 0 <= k < |rest| ==> rest[k] == defined[k + 1];
        assert forall k :: 1 <= k < |defined| ==> defined[k] == rest[k - 1];
      }
    }
  }

  /**
  What else happens to the node between request and callback: other workloads, and policy recomputes for the
  same totals.
  */
  datatype Other = OtherReserve(size: Size) | OtherRelease(size: Size) | OtherPolicy(health: string, available: bool)

  /** A node together with what all other workloads hold on it. */
  datatype Account = Account(node: Node, others: Size)

  function AfterOther(a: Account, o: Other): Account {
    match o
    case OtherReserve(s) =>
      var r := Reserve(a.node, s);
      if r.None? then a else Account(r.value, a.others.Plus(s))
    case OtherRelease(s) => Account(Release(a.node, s), a.others.Minus(s))
    case OtherPolicy(health, available) => a.(node := a.node.(health := health, available := available))
  }

  /** Others reserve and release non-negative amounts, and never give back more than they hold. */
  predicate Honest(a: Account, between: seq<Other>)
    decreases |between|
  {
    between == [] ||
    ((between[0].OtherPolicy? || between[0].size.NonNegative())
     && (between[0].OtherRelease? ==> between[0].size.AtMost(a.others))
     && Honest(AfterOther(a, between[0]), between[1..]))
  }

  function AfterOthers(a: Account, between: seq<Other>): Account
    decreases |between|
  {
    if between == [] then a else AfterOthers(AfterOther(a, between[0]), between[1..])
  }

  predicate Balanced(a: Account, share: Size) {
    a.others.NonNegative() && a.node.committed == a.others.Plus(share)
  }

  lemma {:induction false} OthersBalance(a: Account, between: seq<Other>, share: Size)
    requires Balanced(a, share) && share.NonNegative() && Honest(a, between)
    ensures Balanced(AfterOthers(a, between), share)
    ensures AfterOthers(a, between).node.limit == a.node.limit
    ensures a.node.committed.AtMost(a.node.limit) ==> AfterOthers(a, between).node.committed.AtMost(a.node.limit)
    decreases |between|
  {
    if between != [] {
      OthersBalance(AfterOther(a, between[0]), between[1..], share);
    }
  }

  /**
  A resize whose request and callback agree on the current tier, with any honest traffic in between.
  While it is in flight the node is charged the larger of both tiers in each resource; afterwards it
  is charged exactly the new tier on success and exactly the old one on failure, and a node that
  started within its limit never leaves it.
  */
  lemma ResizeLedger(a: Account, current: Size, target: Size, before: seq<Other>, after: seq<Other>, success: bool)
    requires current.NonNegative() && target.NonNegative() && Balanced(a, current)
    requires Request(a.node, current, target).Some?
    requires var b := Account(Request(a.node, current, target).value, a.others); Honest(b, before)
    requires var b := AfterOthers(Account(Request(a.node, current, target).value, a.others), before);
             Honest(Account(Callback(b.node, current, target, success), b.others), after)
    ensures var b := AfterOthers(Account(Request(a.node, current, target).value, a.others), before);
            var c := AfterOthers(Account(Callback(b.node, current, target, success), b.others), after);
            && Balanced(b, Larger(current, target))
            && Balanced(c, if success then target else current)
            && (a.node.committed.AtMost(a.node.limit) ==>
                b.node.committed.AtMost(a.node.limit) && c.node.committed.AtMost(a.node.limit))
  {
    var start := Account(Request(a.node, current, target).value, a.others);
    assert Balanced(start, Larger(current, target));
    OthersBalance(start, before, Larger(current, target));
    var b := AfterOthers(start, before);
    var settled := Account(Callback(b.node, current, target, success), b.others);
    assert Balanced(settled, if success then target else current);
    OthersBalance(settled, after, if success then target else current);
  }

  /**
  The request reads the current tier from the app definition, the callback from the instance's
  snapshot. The node ends up charged exactly the difference on success, and nothing on failure, if
  and only if both readings imply the same growth towards the target. The one exception: after a failure
  a counter that was zero hides that too much is given back.
  */
  lemma ExactIffReadingsAgree(n: Node, defined: Size, snapshot: Size, target: Size, success: bool)
    requires defined.NonNegative() && snapshot.NonNegative() && target.NonNegative()
    requires snapshot.AtMost(n.committed) && Request(n, defined, target).Some?
    ensures var m := Callback(Request(n, defined, target).value, snapshot, target, success);
            var reserved, returned := Growth(defined, target), Growth(snapshot, target);
            m.committed == (if success then n.committed.Plus(target.Minus(snapshot)) else n.committed)
            <==> if success then reserved == returned
                 else && Evens(n.committed.ram, reserved.ram, returned.ram)
                      && Evens(n.committed.disk, reserved.disk, returned.disk)
  {
  }

  predicate Evens(counter: int, reserved: int, returned: int) {
    reserved == returned || (counter == 0 && reserved <= returned)
  }

  /** A definition edited below the instance's snapshot: a successful resize charges the node four units too many. */
  lemma EditedTierOvercharges()
    ensures var n := Node("worker-001", "worker", "active", false, "healthy", true,
                          Size(100, 100), Size(0, 0), None, Size(80, 80), Size(8, 8));
            var m := Callback(Request(n, Size(4, 8), Size(10, 8)).value, Size(8, 8), Size(10, 8), true);
            Request(n, Size(4, 8), Size(10, 8)).Some? && m.committed == Size(14, 8)
  {
  }

  // ---- The handlers ----

  /** resolvedResizeTargetTier */
  method ResolveTarget(recorded: Option<Tier>, named: Tier, defined: seq<Tier>) returns (target: Option<Tier>)
    ensures target == ResolvedTarget(recorded, named, defined)
  {
    if recorded.Some? {
      return if recorded.value.name != named.name then None else recorded;
    }
    for k := 0 to |defined|
      invariant FirstNamed(defined, named) == FirstNamed(defined[k..], named)
    {
      assert defined[k..][1..] == defined[k + 1..];
      if defined[k].name == named.name { return Some(defined[k].(size := named.size)); }
    }
    return None;
  }

  /** The rows a resize touches: the node of the instance and the tier stored with the instance. */
  class ResizeRows {
    var node: Node
    var snapshot: Tier

    constructor (node: Node, snapshot: Tier)
      ensures this.node == node && this.snapshot == snapshot
    {
      this.node, this.snapshot := node, snapshot;
    }

    /**
    The resize branch of an app action: the growth must be eligible and is then reserved. When the
    operation cannot be recorded the reservation is given back. Every refusal leaves the node's counters
    as they were, except that a reservation stays behind when it took effect but reported an error, or
    when giving it back was refused. The policy columns follow the counters if their writes succeed.
    */
    method RequestResize(current: Size, target: Size, limits: Limits, now: int, reserve: Reply, recorded: bool,
                         compensate: Reply, recomputed: bool)
        returns (ok: bool)
      requires node.committed.NonNegative()
      modifies this`node
      ensures var grow := Growth(current, target);
              var admitted := target.Positive() && Request(old(node), current, target).Some?
                              && (Grows(grow) ==> Eligible(old(node), grow, limits, now));
              && (ok <==> admitted && recorded && (Grows(grow) ==> reserve.Done?))
              && SamePlace(old(node), node)
              && node.committed ==
                 (if admitted && reserve.Applied() && !(reserve.Done? && !recorded && compensate.Applied())
                  then old(node).committed.Plus(grow) else old(node).committed)
              && (if !admitted || !Grows(grow) || !reserve.Done? || !recomputed
                  then node == old(node).(committed := node.committed)
                  else recorded || compensate.Done? ==>
                      node == Recompute(old(node).(committed := node.committed), limits, now))
    {
      hide Recompute, Eligible;
      if !target.Positive() { return false; }
      var grow := Size(0, 0);
      if target.ram > current.ram { grow := grow.(ram := target.ram - current.ram); }
      if target.disk > current.disk { grow := grow.(disk := target.disk - current.disk); }
      if grow.ram > 0 || grow.disk > 0 {
        if !Eligible(node, grow, limits, now) { return false; }
        var reserved := Reserve(node, grow);
        if reserved.None? || reserve.Refused? { return false; }
        node := reserved.value;
        if reserve.Lost? { return false; }
        EligibleMeans(old(node), grow, limits, now);
        RecomputeSettles(old(node), node, limits, now);
        node := Refreshed(node, limits, now, recomputed);
      }
      if !recorded {
        if (grow.ram > 0 || grow.disk > 0) && compensate.Applied() {
          node := Release(node, grow);
          RecomputeSettles(old(node), node, limits, now);
          if compensate.Done? { node := Refreshed(node, limits, now, recomputed); }
        }
        return false;
      }
      return true;
    }

    /**
    handleResizeCallback: without a usable target tier nothing changes; a success stores the new tier.
    The writes can fail independently.
    */
    method HandleCallback(recorded: Option<Tier>, named: Option<Tier>, defined: seq<Tier>, success: bool,
                          store: Reply, release: Reply, limits: Limits, now: int, recomputed: bool)
      modifies this
      ensures var target := if named.Some? && success then ResolvedTarget(recorded, named.value, defined) else named;
              if target.None? then node == old(node) && snapshot == old(snapshot)
              else
                var settled := Callback(old(node), old(snapshot).size, target.value.size, success);
                && snapshot == (if success && store.Applied() then target.value else old(snapshot))
                && node == if release.Refused? || !Grows(Back(old(snapshot).size, target.value.size, success))
                           then old(node)
                           else Refreshed(settled, limits, now, recomputed && release.Done?)
    {
      hide Recompute;
      if named.None? { return; }
      var current, target := snapshot.size, named.value.size;
      if success {
        var resolved := ResolveTarget(recorded, named.value, defined);
        if resolved.None? { return; }
        target := resolved.value.size;
        if store.Applied() { snapshot := resolved.value; }
        GiveBack(current.Minus(target), release, limits, now, recomputed);
        return;
      }
      GiveBack(target.Minus(current), release, limits, now, recomputed);
    }

    /** Releases what is positive of the given amounts, and then recomputes the policy. */
    method GiveBack(size: Size, release: Reply, limits: Limits, now: int, recomputed: bool)
      modifies this`node
      ensures node == if release.Refused? || !Grows(size) then old(node)
                      else
                        var settled := Release(old(node), Larger(size, Size(0, 0)));
                        Refreshed(settled, limits, now, recomputed && release.Done?)
    {
      if (size.ram > 0 || size.disk > 0) && release.Applied() {
        node := Release(node, Size(Max(size.ram, 0), Max(size.disk, 0)));
        if release.Done? { node := Refreshed(node, limits, now, recomputed); }
      }
    }
  }
}
