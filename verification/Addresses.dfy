/**
WireGuard addresses: the network accepted by the configuration (internal/config/config.go) and the
allocator that gives workers and portals their addresses (internal/api/handlers_nodes.go). IPv4
addresses are their uint32 values; offsets are uint64.
*/
module Addresses {
  import opened Wrappers

  const U32 := 0x1_0000_0000

  /** A setting as text: blank, unreadable, or read. */
  datatype Field<T> = Blank | Malformed | Parsed(value: T)

  // ---- Octets ----

  datatype Octets = Octets(a: int, b: int, c: int, d: int)

  predicate IsAddress(x: int) { 0 <= x < U32 }

  predicate AreOctets(o: Octets) { 0 <= o.a < 256 && 0 <= o.b < 256 && 0 <= o.c < 256 && 0 <= o.d < 256 }

  /** ipv4Uint32 */
  function Value(o: Octets): int { ((o.a * 256 + o.b) * 256 + o.c) * 256 + o.d }

  /** ipv4FromUint32 */
  function Split(x: int): Octets { Octets(x / 16777216, x / 65536 % 256, x / 256 % 256, x % 256) }

  lemma OctetsRoundTrip(o: Octets)
    requires AreOctets(o)
    ensures IsAddress(Value(o)) && Split(Value(o)) == o
  {
    var high := (o.a * 256 + o.b) * 256 + o.c;
    assert Value(o) / 256 == high && Value(o) % 256 == o.d;
    assert high / 256 == o.a * 256 + o.b && high % 256 == o.c;
    assert Value(o) / 65536 == Value(o) / 256 / 256;
    assert Value(o) / 16777216 == Value(o) / 65536 / 256;
  }

  lemma ValueRoundTrip(x: int)
    requires IsAddress(x)
    ensures AreOctets(Split(x)) && Value(Split(x)) == x
  {
    assert x / 65536 == x / 256 / 256 && x / 16777216 == x / 65536 / 256;
  }

  // ---- Prefixes ----

  function Pow2(n: nat): (p: nat)
    ensures p >= 1
  {
    if n == 0 then 1 else 2 * Pow2(n - 1)
  }

  /** A prefix in masked form: addr is the first address. */
  datatype Prefix = Prefix(addr: int, bits: int)

  predicate IsPrefix(p: Prefix) { IsAddress(p.addr) && 0 <= p.bits <= 32 }

  /** The number of addresses. */
  function Count(bits: int): nat
    requires bits <= 32
  {
    Pow2(32 - bits)
  }

  function Masked(p: Prefix): (n: Prefix)
    requires IsPrefix(p)
    ensures IsPrefix(n) && n.bits == p.bits
  {
    RemainderAtMost(p.addr, Count(p.bits));
    p.(addr := p.addr - p.addr % Count(p.bits))
  }

  lemma RemainderAtMost(x: int, m: int)
    requires x >= 0 && m > 0
    ensures 0 <= x % m <= x
  {
    assert x == (x / m) * m + x % m;
    assert (x / m) * m >= 0;
  }

  predicate IsNetwork(p: Prefix) { IsPrefix(p) && p.addr % Count(p.bits) == 0 }

  /** The leading bits agree. */
  predicate Contains(p: Prefix, x: int)
    requires IsPrefix(p)
  {
    IsAddress(x) && x / Count(p.bits) == p.addr / Count(p.bits)
  }

  lemma {:induction false} Pow2Sum(a: nat, b: nat)
    ensures Pow2(a + b) == Pow2(a) * Pow2(b)
  {
    if a > 0 { Pow2Sum(a - 1, b); }
  }

  lemma Pow2Facts()
    ensures Pow2(0) == 1 && Pow2(1) == 2 && Pow2(2) == 4 && Pow2(3) == 8 && Pow2(32) == U32
  {
    Pow2Sum(8, 8);
    Pow2Sum(16, 16);
    assert Pow2(8) == 256;
  }

  lemma {:induction false} Pow2Grows(a: nat, b: nat)
    requires a <= b
    ensures Pow2(a) <= Pow2(b)
  {
    if a < b { Pow2Grows(a, b - 1); }
  }

  lemma DivideTwice(x: int, a: int, b: int)
    requires x >= 0 && a > 0 && b > 0
    ensures a * b > 0 && x / (a * b) == x / a / b
  {
    var q, r := x / a, x % a;
    var s, t := q / b, q % b;
    Quotient(x, a);
    Quotient(q, b);
    Distribute(s, b, t, a);
    PartialMultiple(t, b, a);
    QuotientIs(x, a * b, s, t * a + r);
  }

  lemma Quotient(x: int, m: int)
    requires m > 0
    ensures x == (x / m) * m + x % m
  {
  }

  lemma Distribute(s: int, b: int, t: int, a: int)
    ensures (s * b + t) * a == s * (a * b) + t * a
  {
  }

  lemma PartialMultiple(t: int, b: int, a: int)
    requires 0 <= t < b && a > 0
    ensures 0 <= t * a <= a * b - a && a * b > 0
  {
    Product(t, a);
    Product(b - 1 - t, a);
    Distribute(1, b, -1 - t, a);
  }

  lemma Product(x: int, y: int)
    requires x >= 0 && y >= 0
    ensures x * y >= 0
  {
  }

  lemma QuotientIs(x: int, m: int, q: int, r: int)
    requires m > 0 && 0 <= r < m && x == q * m + r
    ensures x / m == q
  {
    var d := x / m - q;
    assert x == (x / m) * m + x % m;
    assert d * m == (x / m) * m - q * m == r - x % m;
    SmallMultiple(d, m);
  }

  lemma SmallMultiple(d: int, m: int)
    requires m > 0 && -m < d * m < m
    ensures d == 0
  {
  }

  /** The addresses of a network are a run of Count(bits) values that does not wrap around. */
  lemma NetworkRange(p: Prefix, x: int)
    requires IsNetwork(p)
    ensures p.addr + Count(p.bits) <= U32
    ensures Contains(p, x) <==> p.addr <= x < p.addr + Count(p.bits)
  {
    hide Pow2;
    var m, whole := Count(p.bits), Pow2(p.bits);
    Pow2Facts();
    Pow2Sum(32 - p.bits, p.bits);
    AlignedFits(p.addr, m, whole);
    AlignedRun(p.addr, m, x);
  }

  lemma AlignedFits(a: int, m: int, whole: int)
    requires m > 0 && a % m == 0 && 0 <= a < m * whole
    ensures a + m <= m * whole
  {
    var q := a / m;
    assert a == q * m;
    LessMultiple(q, whole, m);
    Product(whole - q - 1, m);
    Distribute(1, whole, -q - 1, m);
  }

  lemma LessMultiple(a: int, b: int, m: int)
    requires m > 0 && a * m < m * b
    ensures a < b
  {
  }

  lemma AlignedRun(a: int, m: int, x: int)
    requires m > 0 && a % m == 0
    ensures x / m == a / m <==> a <= x < a + m
  {
    var q := a / m;
    assert a == q * m && x == (x / m) * m + x % m;
    if a <= x < a + m { QuotientIs(x, m, q, x - a); }
  }

  lemma MaskedIsNetwork(p: Prefix)
    requires IsPrefix(p)
    ensures IsNetwork(Masked(p))
  {
    var m := Count(p.bits);
    assert p.addr - p.addr % m == (p.addr / m) * m;
    Multiple(p.addr / m, m);
  }

  lemma Multiple(q: int, m: int)
    requires m > 0
    ensures q * m % m == 0
  {
    QuotientIs(q * m, m, q, 0);
  }

  /** A longer prefix inside a shorter one lies inside it entirely. */
  lemma Nested(outer: Prefix, inner: Prefix, x: int)
    requires IsPrefix(outer) && IsPrefix(inner) && Contains(outer, inner.addr) && outer.bits <= inner.bits
    requires Contains(inner, x)
    ensures Contains(outer, x)
  {
    var a, b := Count(inner.bits), Pow2(inner.bits - outer.bits);
    Pow2Sum(32 - inner.bits, inner.bits - outer.bits);
    DivideTwice(x, a, b);
    DivideTwice(inner.addr, a, b);
  }

  // ---- The allocator ----

  /**
  Addresses a host may have: not the first and the last, except that a /31 has only those two (section 2.1
  of RFC 3021).
  */
  predicate Usable(n: Prefix, x: int)
    requires IsNetwork(n)
  {
    if n.bits == 32 then false
    else if n.bits == 31 then n.addr <= x <= n.addr + 1
    else n.addr < x < n.addr + Count(n.bits) - 1
  }

  datatype Node = Node(address: Option<int>)

  /** A node has the address. */
  predicate Taken(nodes: seq<Node>, x: int) { exists k :: 0 <= k < |nodes| && nodes[k].address == Some(x) }

  predicate Free(n: Prefix, hub: int, nodes: seq<Node>, x: int)
    requires IsNetwork(n)
  {
    Usable(n, x) && x != hub && !Taken(nodes, x)
  }

  /** base + uint32(offset) */
  function Candidate(base: int, offset: int): int { (base + offset % U32) % U32 }

  predicate Open(base: int, hub: int, used: set<int>, offset: int) {
    Candidate(base, offset) != hub && Candidate(base, offset) !in used
  }

  /** The first open offset from preferred on, or else the first one before it. */
  method FindAvailable(base: int, first: int, last: int, preferred: int, hub: int, used: set<int>)
      returns (offset: Option<int>)
    requires first <= preferred <= last + 1
    ensures offset.None? ==> forall o :: first <= o <= last ==> !Open(base, hub, used, o)
    ensures offset.Some? ==> first <= offset.value <= last && Open(base, hub, used, offset.value)
    ensures offset.Some? && offset.value >= preferred ==>
              forall o :: preferred <= o < offset.value ==> !Open(base, hub, used, o)
    ensures offset.Some? && offset.value < preferred ==>
              forall o :: preferred <= o <= last || first <= o < offset.value ==> !Open(base, hub, used, o)
  {
    var o := preferred;
    while o <= last
      invariant preferred <= o <= last + 1
      invariant forall k :: preferred <= k < o ==> !Open(base, hub, used, k)
    {
      if Candidate(base, o) != hub && Candidate(base, o) !in used { return Some(o); }
      o := o + 1;
    }
    o := first;
    while o < preferred
      invariant first <= o <= preferred
      invariant forall k :: first <= k < o ==> !Open(base, hub, used, k)
    {
      if Candidate(base, o) != hub && Candidate(base, o) !in used { return Some(o); }
      o := o + 1;
    }
    return None;
  }

  datatype Assignment = Assigned(address: int) | InvalidSubnet | InvalidHub | NoPeerAddress | Exhausted

  const DEFAULT_SUBNET := Prefix(Value(Octets(10, 99, 0, 0)), 24)
  const DEFAULT_HUB := Value(Octets(10, 99, 0, 1))

  function SubnetOf(subnet: Field<Prefix>): Option<Prefix>
    requires subnet.Parsed? ==> IsPrefix(subnet.value)
  {
    match subnet
    case Blank => Some(Masked(DEFAULT_SUBNET))
    case Malformed => None
    case Parsed(p) => Some(Masked(p))
  }

  function HubOf(hub: Field<int>): Option<int> {
    match hub
    case Blank => Some(DEFAULT_HUB)
    case Malformed => None
    case Parsed(x) => Some(x)
  }

  /** The settings name a network and a hub inside it. */
  predicate Settled(subnet: Field<Prefix>, hub: Field<int>)
    requires subnet.Parsed? ==> IsPrefix(subnet.value)
  {
    SubnetOf(subnet).Some? && HubOf(hub).Some? && Contains(SubnetOf(subnet).value, HubOf(hub).value)
  }

  method UsedAddresses(n: Prefix, nodes: seq<Node>) returns (used: set<int>)
    requires IsNetwork(n)
    ensures forall x :: x in used <==> Contains(n, x) && Taken(nodes, x)
  {
    used := {};
    for k := 0 to |nodes|
      invariant forall x :: x in used <==> Contains(n, x) && exists i :: 0 <= i < k && nodes[i].address == Some(x)
    {
      if nodes[k].address.Some? && Contains(n, nodes[k].address.value) {
        used := used + {nodes[k].address.value};
      }
    }
  }

  predicate Available(n: Prefix, hub: int, nodes: seq<Node>)
    requires IsNetwork(n)
  {
    exists x :: n.addr <= x < n.addr + Count(n.bits) && Free(n, hub, nodes, x)
  }

  /** Every usable address is an offset from the base that does not wrap. */
  lemma OffsetOf(n: Prefix, hub: int, nodes: seq<Node>, used: set<int>, offset: int)
    requires IsNetwork(n) && 0 <= offset < Count(n.bits) && Usable(n, n.addr + offset)
    requires forall x :: x in used <==> Contains(n, x) && Taken(nodes, x)
    ensures Candidate(n.addr, offset) == n.addr + offset && IsAddress(n.addr + offset)
    ensures Open(n.addr, hub, used, offset) <==> Free(n, hub, nodes, n.addr + offset)
  {
    hide Candidate, Usable, Count, Taken;
    NetworkRange(n, n.addr + offset);
    NoWrap(n.addr, offset);
  }

  lemma NoWrap(base: int, offset: int)
    requires 0 <= base && 0 <= offset && base + offset < U32
    ensures Candidate(base, offset) == base + offset
  {
  }

  function PreferredOffset(role: string): int { if role == "portal" then 100 else 2 }

  /**
  nextKnownHostAssignment for one role. It succeeds exactly when a usable address other than the hub's is
  free; the result is such an address, and the preferred one if that is free.
  */
  method NextAssignment(nodes: seq<Node>, role: string, subnet: Field<Prefix>, hub: Field<int>) returns (r: Assignment)
    requires subnet.Parsed? ==> IsPrefix(subnet.value)
    ensures r.InvalidSubnet? <==> SubnetOf(subnet).None?
    ensures r.InvalidHub? <==> SubnetOf(subnet).Some? && !Settled(subnet, hub)
    ensures Settled(subnet, hub) ==>
              var n, h := SubnetOf(subnet).value, HubOf(hub).value;
              && IsNetwork(n)
              && (r.NoPeerAddress? <==> n.bits == 32)
              && (r.Assigned? <==> Available(n, h, nodes))
              && (r.Assigned? ==> IsAddress(r.address) && Free(n, h, nodes, r.address))
              && (Free(n, h, nodes, n.addr + PreferredOffset(role)) ==> r == Assigned(n.addr + PreferredOffset(role)))
  {
    if subnet.Malformed? { return InvalidSubnet; }
    var n := if subnet.Blank? then Masked(DEFAULT_SUBNET) else Masked(subnet.value);
    MaskedIsNetwork(if subnet.Blank? then DEFAULT_SUBNET else subnet.value);
    if hub.Malformed? { return InvalidHub; }
    var h := if hub.Blank? then DEFAULT_HUB else hub.value;
    if !Contains(n, h) { return InvalidHub; }
    if n.bits == 32 { return NoPeerAddress; }
    r := Allocate(nodes, PreferredOffset(role), n, h);
  }

  method Allocate(nodes: seq<Node>, wanted: int, n: Prefix, h: int) returns (r: Assignment)
    requires (wanted == 2 || wanted == 100) && IsNetwork(n) && n.bits < 32
    ensures r.Assigned? || r.Exhausted?
    ensures r.Assigned? <==> Available(n, h, nodes)
    ensures r.Assigned? ==> IsAddress(r.address) && Free(n, h, nodes, r.address)
    ensures Free(n, h, nodes, n.addr + wanted) ==> r == Assigned(n.addr + wanted)
  {
    hide Pow2, Candidate, Taken;
    var used := UsedAddresses(n, nodes);
    Pow2Facts();
    if n.bits <= 30 { Pow2Grows(2, 32 - n.bits); }
    var first, last := 1, Count(n.bits) - 2;
    if n.bits == 31 { first, last := 0, 1; }
    var preferred := wanted;
    if preferred < first || preferred > last { preferred := first; }
    var offset := FindAvailable(n.addr, first, last, preferred, h, used);
    forall o | first <= o <= last
      ensures Candidate(n.addr, o) == n.addr + o && IsAddress(n.addr + o)
      ensures Open(n.addr, h, used, o) <==> Free(n, h, nodes, n.addr + o)
    {
      OffsetOf(n, h, nodes, used, o);
    }
    if offset.None? {
      forall x | n.addr <= x < n.addr + Count(n.bits) ensures !Free(n, h, nodes, x) {
        if Usable(n, x) { assert !Open(n.addr, h, used, x - n.addr); }
      }
      return Exhausted;
    }
    assert Free(n, h, nodes, n.addr + offset.value);
    if Free(n, h, nodes, n.addr + wanted) { assert Open(n.addr, h, used, wanted); }
    return Assigned(Candidate(n.addr, offset.value));
  }

  /** Two different free addresses. */
  predicate PairAvailable(n: Prefix, hub: int, nodes: seq<Node>)
    requires IsNetwork(n)
  {
    exists x, y ::
      && n.addr <= x < n.addr + Count(n.bits) && n.addr <= y < n.addr + Count(n.bits)
      && x != y && Free(n, hub, nodes, x) && Free(n, hub, nodes, y)
  }

  /**
  nextKnownHostAssignments: a worker and a portal address, which differ; possible exactly when two addresses
  are free.
  */
  method NextAssignments(nodes: seq<Node>, subnet: Field<Prefix>, hub: Field<int>) returns (pair: Option<(int, int)>)
    requires subnet.Parsed? ==> IsPrefix(subnet.value)
    ensures pair.Some? ==>
              && Settled(subnet, hub)
              && var n, h := SubnetOf(subnet).value, HubOf(hub).value;
                 && IsNetwork(n) && Free(n, h, nodes, pair.value.0) && Free(n, h, nodes, pair.value.1)
                 && pair.value.0 != pair.value.1
    ensures Settled(subnet, hub) ==>
              var n, h := SubnetOf(subnet).value, HubOf(hub).value;
              IsNetwork(n) && (pair.Some? <==> PairAvailable(n, h, nodes))
  {
    var worker := NextAssignment(nodes, "worker", subnet, hub);
    if !worker.Assigned? { return None; }
    var reserved := nodes + [Node(Some(worker.address))];
    ghost var n, h := SubnetOf(subnet).value, HubOf(hub).value;
    forall x ensures Free(n, h, reserved, x) <==> Free(n, h, nodes, x) && x != worker.address {
      TakenAppend(nodes, worker.address, x);
    }
    NetworkRange(n, worker.address);
    var portal := NextAssignment(reserved, "portal", subnet, hub);
    if !portal.Assigned? { return None; }
    NetworkRange(n, portal.address);
    return Some((worker.address, portal.address));
  }

  lemma TakenAppend(nodes: seq<Node>, address: int, x: int)
    ensures Taken(nodes + [Node(Some(address))], x) <==> Taken(nodes, x) || x == address
  {
    var all := nodes + [Node(Some(address))];
    assert all[|nodes|].address == Some(address);
    if Taken(nodes, x) {
      var k :| 0 <= k < |nodes| && nodes[k].address == Some(x);
      assert all[k] == nodes[k];
    }
  }

  // ---- The configured network ----

  /** 10.0.0.0/8, 172.16.0.0/12 and 192.168.0.0/16 (section 3 of RFC 1918). */
  const PRIVATE: seq<Prefix> := [
    Prefix(Value(Octets(10, 0, 0, 0)), 8), Prefix(Value(Octets(172, 16, 0, 0)), 12),
    Prefix(Value(Octets(192, 168, 0, 0)), 16)]

  predicate PrivateRange(r: Prefix, n: Prefix)
    requires IsPrefix(n)
  {
    r in PRIVATE && IsPrefix(r) && Contains(r, n.addr) && n.bits >= r.bits
  }

  /** What the configuration accepts as a network with a hub. */
  predicate Accepted(n: Prefix, hub: int)
    requires IsNetwork(n)
  {
    && (exists r :: r in PRIVATE && PrivateRange(r, n)) && n.bits <= 31
    && Contains(n, hub) && hub != n.addr && (n.bits <= 30 ==> hub != n.addr + Count(n.bits) - 1)
  }

  /** normalizeWireguardNetwork; a blank hub is the address after the first. */
  method NormalizeNetwork(subnet: Field<Prefix>, hub: Field<int>) returns (r: Option<(Prefix, int)>)
    requires subnet.Parsed? ==> IsPrefix(subnet.value)
    ensures r.Some? <==>
              && subnet.Parsed? && IsNetwork(Masked(subnet.value)) && !hub.Malformed?
              && Accepted(Masked(subnet.value), if hub.Parsed? then hub.value else Masked(subnet.value).addr + 1)
    ensures r.Some? ==> r.value.0 == Masked(subnet.value) && (hub.Parsed? ==> r.value.1 == hub.value)
    ensures r.Some? && hub.Blank? ==> r.value.1 == r.value.0.addr + 1
  {
    if !subnet.Parsed? { return None; }
    var n := Masked(subnet.value);
    MaskedIsNetwork(subnet.value);
    var private := false;
    var k := 0;
    while k < |PRIVATE|
      invariant k <= |PRIVATE| && !private && forall i :: 0 <= i < k ==> !PrivateRange(PRIVATE[i], n)
    {
      if Contains(PRIVATE[k], n.addr) && n.bits >= PRIVATE[k].bits {
        private := true;
        break;
      }
      k := k + 1;
    }
    assert private ==> PrivateRange(PRIVATE[k], n);
    if !private || n.bits > 31 || hub.Malformed? { return None; }
    var h := if hub.Blank? then n.addr + 1 else hub.value;
    if !Contains(n, h) || h == n.addr { return None; }
    if n.bits <= 30 && h == n.addr + (Count(n.bits) - 1) { return None; }
    return Some((n, h));
  }

  /** Every address of an accepted network is private. */
  lemma AcceptedIsPrivate(n: Prefix, hub: int, x: int)
    requires IsNetwork(n) && Accepted(n, hub) && Contains(n, x)
    ensures exists r :: r in PRIVATE && IsPrefix(r) && Contains(r, x)
  {
    var r :| r in PRIVATE && PrivateRange(r, n);
    Nested(r, n, x);
  }

  /**
  An accepted network has a worker address for an empty fleet, and a portal address besides exactly when it
  is a /29 or larger.
  */
  lemma EmptyFleetHasAddress(n: Prefix, hub: int)
    requires IsNetwork(n) && Accepted(n, hub)
    ensures Usable(n, hub) && Available(n, hub, [])
    ensures PairAvailable(n, hub, []) <==> n.bits <= 29
  {
    hide Pow2;
    Pow2Facts();
    NetworkRange(n, hub);
    if n.bits <= 30 { Pow2Grows(2, 32 - n.bits); }
    if n.bits == 31 {
      assert Free(n, hub, [], n.addr);
    } else {
      var x := if hub == n.addr + 1 then n.addr + 2 else n.addr + 1;
      assert Free(n, hub, [], x);
      if n.bits <= 29 {
        Pow2Grows(3, 32 - n.bits);
        var y := if hub <= n.addr + 2 then n.addr + 3 else n.addr + 2;
        assert Free(n, hub, [], y);
      }
    }
  }
}
