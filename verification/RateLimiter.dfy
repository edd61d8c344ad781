/**
The sliding-window limiter that guards authentication (internal/api/middleware.go). Times are integers
(nanoseconds). Each bucket is a slice: an array of which the first len entries count.
*/
module RateLimiter {

  const SECOND := 1_000_000_000

  type Buckets = map<string, seq<int>>

  /** The entries newer than the cutoff, in order. */
  function Live(s: seq<int>, cutoff: int): seq<int> {
    if s == [] then []
    else
      var n := |s| - 1;
      Live(s[..n], cutoff) + (if s[n] > cutoff then [s[n]] else [])
  }

  function Entries(b: Buckets, key: string): seq<int> { if key in b then b[key] else [] }

  /** removeExpiredLocked drops old entries of every key, and keys that are left without any. */
  function Pruned(b: Buckets, cutoff: int): Buckets {
    map k | k in b && Live(b[k], cutoff) != [] :: Live(b[k], cutoff)
  }

  datatype Call = Allow(key: string, at: int) | IsBlocked(key: string, at: int) | Reset(key: string, at: int)

  /** One limit and one window per limiter. */
  datatype Policy = Policy(limit: int, window: int)

  /** What the call leaves of the entries of one key. */
  function EntriesAfter(es: seq<int>, c: Call, key: string, p: Policy): seq<int> {
    if c.Reset? then (if c.key == key then [] else es)
    else
      var recent := Live(es, c.at - p.window);
      if c.Allow? && c.key == key && |recent| < p.limit then recent + [c.at] else recent
  }

  predicate Grants(es: seq<int>, c: Call, key: string, p: Policy) {
    c.Allow? && c.key == key && |Live(es, c.at - p.window)| < p.limit
  }

  /** The effect of one call on all buckets. */
  function After(b: Buckets, c: Call, p: Policy): Buckets {
    if c.Reset? then map k | k in b && k != c.key :: b[k]
    else Pruned(b, c.at - p.window)[c.key := EntriesAfter(Entries(b, c.key), c, c.key, p)]
  }

  lemma {:induction false} LiveTwice(s: seq<int>, cutoff: int)
    ensures Live(Live(s, cutoff), cutoff) == Live(s, cutoff)
  {
    if s != [] {
      var n := |s| - 1;
      LiveTwice(s[..n], cutoff);
      var l := Live(s[..n], cutoff);
      if s[n] > cutoff { assert (l + [s[n]])[..|l|] == l; } else { assert l + [] == l; }
    }
  }

  /** Keys do not influence one another, except that old entries of all keys are dropped. */
  lemma KeysApart(b: Buckets, c: Call, key: string, p: Policy)
    ensures Entries(After(b, c, p), key) == EntriesAfter(Entries(b, key), c, key, p)
  {
  }

  // ---- Entries ----

  /** How many entries are at t or later. */
  function Since(s: seq<int>, t: int): nat {
    if s == [] then 0 else Since(s[..|s| - 1], t) + (if s[|s| - 1] >= t then 1 else 0)
  }

  lemma {:induction false} SinceAtMostAll(s: seq<int>, t: int)
    ensures Since(s, t) <= |s|
  {
    if s != [] { SinceAtMostAll(s[..|s| - 1], t); }
  }

  lemma SinceAppend(s: seq<int>, x: int, t: int)
    ensures Since(s + [x], t) == Since(s, t) + (if x >= t then 1 else 0)
  {
    assert (s + [x])[..|s|] == s;
  }

  /** Pruning before t keeps every entry from t on. */
  lemma {:induction false} LiveSince(s: seq<int>, cutoff: int, t: int)
    requires cutoff < t
    ensures Since(Live(s, cutoff), t) == Since(s, t)
  {
    if s != [] {
      var n := |s| - 1;
      LiveSince(s[..n], cutoff, t);
      if s[n] > cutoff { SinceAppend(Live(s[..n], cutoff), s[n], t); }
      else { assert Live(s[..n], cutoff) + [] == Live(s[..n], cutoff); }
    }
  }

  lemma {:induction false} LiveShorter(s: seq<int>, cutoff: int)
    ensures |Live(s, cutoff)| <= |s|
    ensures forall x :: x in Live(s, cutoff) <==> x in s && x > cutoff
  {
    if s != [] {
      var n := |s| - 1;
      LiveShorter(s[..n], cutoff);
      assert s == s[..n] + [s[n]];
    }
  }

  predicate Ascending(s: seq<int>) { forall i, j :: 0 <= i < j < |s| ==> s[i] <= s[j] }

  lemma AscendingAppend(s: seq<int>, x: int)
    requires Ascending(s) && forall y :: y in s ==> y <= x
    ensures Ascending(s + [x])
  {
    assert forall i :: 0 <= i < |s| ==> s[i] in s;
  }

  lemma {:induction false} LiveAscending(s: seq<int>, cutoff: int)
    requires Ascending(s)
    ensures Ascending(Live(s, cutoff))
  {
    if s != [] {
      var n := |s| - 1;
      LiveAscending(s[..n], cutoff);
      LiveShorter(s[..n], cutoff);
      AscendingAppend(Live(s[..n], cutoff), s[n]);
    }
  }

  lemma {:induction false} LiveAll(s: seq<int>, cutoff: int)
    requires forall k :: 0 <= k < |s| ==> s[k] > cutoff
    ensures Live(s, cutoff) == s
  {
    if s != [] {
      LiveAll(s[..|s| - 1], cutoff);
      assert s == s[..|s| - 1] + [s[|s| - 1]];
    }
  }

  lemma {:induction false} LiveDropsFirst(s: seq<int>, cutoff: int)
    requires s != [] && s[0] <= cutoff
    ensures |Live(s, cutoff)| < |s|
  {
    if |s| > 1 {
      LiveDropsFirst(s[..|s| - 1], cutoff);
    } else {
      assert Live(s[..0], cutoff) == [];
    }
  }

  /** Entries in order are all live or, once the first has expired, fewer. */
  lemma LiveOrFewer(s: seq<int>, cutoff: int)
    requires s != [] && Ascending(s)
    ensures if s[0] > cutoff then Live(s, cutoff) == s else |Live(s, cutoff)| < |s|
  {
    if s[0] > cutoff { LiveAll(s, cutoff); } else { LiveDropsFirst(s, cutoff); }
  }

  // ---- Runs ----

  ghost predicate IsRun(states: seq<Buckets>, calls: seq<Call>, p: Policy) {
    && |states| == |calls| + 1 && states[0] == map[]
    && (forall k :: 0 <= k < |calls| ==> states[k + 1] == After(states[k], calls[k], p))
    && (forall i, j :: 0 <= i <= j < |calls| ==> calls[i].at <= calls[j].at)
  }

  /** The bucket of one key, state by state. */
  function Trace(states: seq<Buckets>, key: string): seq<seq<int>> {
    seq(|states|, k requires 0 <= k < |states| => Entries(states[k], key))
  }

  ghost predicate IsTrace(trace: seq<seq<int>>, calls: seq<Call>, p: Policy, key: string) {
    && |trace| == |calls| + 1 && trace[0] == []
    && (forall k :: 0 <= k < |calls| ==> trace[k + 1] == EntriesAfter(trace[k], calls[k], key, p))
    && (forall i, j :: 0 <= i <= j < |calls| ==> calls[i].at <= calls[j].at)
  }

  lemma TraceOfRun(states: seq<Buckets>, calls: seq<Call>, p: Policy, key: string)
    requires IsRun(states, calls, p)
    ensures IsTrace(Trace(states, key), calls, p, key)
  {
    hide After, EntriesAfter;
    forall k | 0 <= k < |calls|
      ensures Trace(states, key)[k + 1] == EntriesAfter(Trace(states, key)[k], calls[k], key, p)
    {
      KeysApart(states[k], calls[k], key, p);
    }
  }

  /** How many of the calls i..j are granted to the key. */
  function Granted(trace: seq<seq<int>>, calls: seq<Call>, p: Policy, key: string, i: nat, j: nat): nat
    requires i <= j <= |calls| < |trace|
  {
    if i == j then 0
    else Granted(trace, calls, p, key, i, j - 1) + (if Grants(trace[j - 1], calls[j - 1], key, p) then 1 else 0)
  }

  predicate NoReset(calls: seq<Call>, key: string, i: nat, j: nat)
    requires i <= j <= |calls|
  {
    forall k :: i <= k < j ==> !(calls[k].Reset? && calls[k].key == key)
  }

  /** A bucket never holds more entries than the limit; they are in order and in the past. */
  predicate Kept(es: seq<int>, p: Policy, now: int) {
    (es == [] || |es| <= p.limit) && Ascending(es) && forall x :: x in es ==> x <= now
  }

  lemma KeptStep(es: seq<int>, c: Call, key: string, p: Policy, now: int)
    requires Kept(es, p, now) && now <= c.at
    ensures Kept(EntriesAfter(es, c, key, p), p, c.at)
  {
    hide Ascending;
    var recent := Live(es, c.at - p.window);
    LiveShorter(es, c.at - p.window);
    LiveAscending(es, c.at - p.window);
    AscendingAppend(recent, c.at);
    if c.Reset? { EmptyAscends(); }
  }

  lemma EmptyAscends()
    ensures Ascending([])
  {
  }

  lemma {:induction false} KeptInRun(trace: seq<seq<int>>, calls: seq<Call>, p: Policy, key: string, k: nat)
    requires IsTrace(trace, calls, p, key) && k < |calls|
    ensures Kept(trace[k], p, calls[k].at) && Kept(trace[k + 1], p, calls[k].at)
  {
    hide EntriesAfter;
    if k > 0 { KeptInRun(trace, calls, p, key, k - 1); }
    KeptStep(trace[k], calls[k], key, p, calls[k].at);
  }

  lemma GrantRemembered(es: seq<int>, c: Call, key: string, p: Policy, t: int)
    requires c.at - p.window < t <= c.at && !(c.Reset? && c.key == key)
    ensures Since(EntriesAfter(es, c, key, p), t) == Since(es, t) + (if Grants(es, c, key, p) then 1 else 0)
  {
    LiveSince(es, c.at - p.window, t);
    SinceAppend(Live(es, c.at - p.window), c.at, t);
  }

  lemma {:induction false} GrantsRemembered(trace: seq<seq<int>>, calls: seq<Call>, p: Policy, key: string, i: nat,
      j: nat)
    requires IsTrace(trace, calls, p, key) && i < j <= |calls| && NoReset(calls, key, i, j)
    requires calls[j - 1].at < calls[i].at + p.window
    ensures Granted(trace, calls, p, key, i, j) <= Since(trace[j], calls[i].at)
    decreases j
  {
    hide EntriesAfter, Grants, Since;
    if i < j - 1 { GrantsRemembered(trace, calls, p, key, i, j - 1); }
    GrantRemembered(trace[j - 1], calls[j - 1], key, p, calls[i].at);
  }

  /**
  Calls that lie within less than one window of each other are granted at most limit times, between resets
  of the key.
  */
  lemma WindowBound(states: seq<Buckets>, calls: seq<Call>, p: Policy, key: string, i: nat, j: nat)
    requires IsRun(states, calls, p) && i < j <= |calls| && NoReset(calls, key, i, j)
    requires calls[j - 1].at < calls[i].at + p.window
    ensures Granted(Trace(states, key), calls, p, key, i, j) <= if p.limit > 0 then p.limit else 0
  {
    hide After, EntriesAfter, Grants, Since;
    var trace := Trace(states, key);
    TraceOfRun(states, calls, p, key);
    GrantsRemembered(trace, calls, p, key, i, j);
    SinceAtMostAll(trace[j], calls[i].at);
    KeptInRun(trace, calls, p, key, j - 1);
  }

  /** A call about another key drops no entry that is still within the window. */
  lemma LiveEntriesSurvive(states: seq<Buckets>, calls: seq<Call>, p: Policy, key: string, k: nat, x: int)
    requires IsRun(states, calls, p) && k < |calls| && calls[k].key != key && x in Entries(states[k], key)
    requires x > calls[k].at - p.window
    ensures x in Entries(states[k + 1], key)
  {
    hide After;
    KeysApart(states[k], calls[k], key, p);
    LiveShorter(Entries(states[k], key), calls[k].at - p.window);
  }

  /** The answer of IsBlocked: how long to wait. */
  function RetryAfter(recent: seq<int>, now: int, p: Policy): int
    requires recent != []
  {
    var left := p.window - (now - recent[0]);
    if left < SECOND then SECOND else left
  }

  predicate Blocked(es: seq<int>, now: int, p: Policy) { |Live(es, now - p.window)| >= p.limit }

  /** The bucket is as it was, or its oldest entry has expired and it is shorter. */
  predicate Waned(recent: seq<int>, es: seq<int>, now: int, p: Policy) {
    recent != [] && (es == recent || (|es| < |recent| && recent[0] + p.window <= now))
  }

  lemma WanedStep(recent: seq<int>, es: seq<int>, c: Call, key: string, p: Policy)
    requires Waned(recent, es, c.at, p) && Ascending(recent) && !Grants(es, c, key, p) && !(c.Reset? && c.key == key)
    ensures Waned(recent, EntriesAfter(es, c, key, p), c.at, p)
  {
    LiveShorter(es, c.at - p.window);
    LiveOrFewer(recent, c.at - p.window);
  }

  lemma {:induction false} WhileNoneGranted(trace: seq<seq<int>>, calls: seq<Call>, p: Policy, key: string, i: nat,
      k: nat, recent: seq<int>)
    requires IsTrace(trace, calls, p, key) && i < k < |calls| && NoReset(calls, key, i, k)
    requires trace[i + 1] == recent && recent != [] && Ascending(recent) && Granted(trace, calls, p, key, i, k) == 0
    ensures Waned(recent, trace[k], calls[k].at, p)
    decreases k
  {
    hide EntriesAfter, Grants;
    if i < k - 1 {
      WhileNoneGranted(trace, calls, p, key, i, k - 1, recent);
      WanedStep(recent, trace[k - 1], calls[k - 1], key, p);
    }
  }

  lemma BlockedWhile(recent: seq<int>, es: seq<int>, now: int, p: Policy)
    requires Waned(recent, es, now, p) && Ascending(recent) && |recent| == p.limit
    ensures Blocked(es, now, p) <==> now < recent[0] + p.window
  {
    hide Live, Ascending;
    LiveShorter(es, now - p.window);
    LiveOrFewer(recent, now - p.window);
  }

  /**
  A blocked key for which nothing is granted meanwhile is free again exactly from the moment its oldest
  entry expires. The returned wait reaches that moment, and is the least that does unless it is the
  one-second floor.
  */
  lemma RetryUnblocks(states: seq<Buckets>, calls: seq<Call>, p: Policy, i: nat, j: nat)
    requires IsRun(states, calls, p) && i < j < |calls| && p.limit >= 1
    requires calls[i].IsBlocked? && NoReset(calls, calls[i].key, i, j)
    requires Blocked(Entries(states[i], calls[i].key), calls[i].at, p)
    requires Granted(Trace(states, calls[i].key), calls, p, calls[i].key, i, j) == 0
    ensures var recent := Live(Entries(states[i], calls[i].key), calls[i].at - p.window);
            && recent != []
            && (Blocked(Entries(states[j], calls[i].key), calls[j].at, p) <==> calls[j].at < recent[0] + p.window)
            && var retry := RetryAfter(recent, calls[i].at, p);
               && retry >= SECOND && calls[i].at + retry >= recent[0] + p.window
               && (retry > SECOND ==> calls[i].at + retry == recent[0] + p.window)
  {
    hide After, Grants, Granted, Live, Ascending;
    var key := calls[i].key;
    var trace := Trace(states, key);
    TraceOfRun(states, calls, p, key);
    var recent := Live(trace[i], calls[i].at - p.window);
    KeptInRun(trace, calls, p, key, i);
    LiveShorter(trace[i], calls[i].at - p.window);
    assert trace[i + 1] == recent;
    WhileNoneGranted(trace, calls, p, key, i, j, recent);
    BlockedWhile(recent, trace[j], calls[j].at, p);
  }

  /** The bound is for intervals shorter than the window: calls a whole window apart can exceed the limit. */
  lemma WindowBoundTight(key: string, window: int, start: int)
    requires window > 0
    ensures var p := Policy(1, window);
            var calls := [Allow(key, start), Allow(key, start + window)];
            var middle := After(map[], calls[0], p);
            Grants(Entries(map[], key), calls[0], key, p) && Grants(Entries(middle, key), calls[1], key, p)
  {
    KeysApart(map[], Allow(key, start), key, Policy(1, window));
    assert Live([], start - window) == [];
    assert [start][..0] == [] && Live([start], start) == [];
  }

  // ---- The limiter ----

  datatype Probe = Free | Wait(retryAfter: int) | Panics

  datatype Slice = Slice(data: array<int>, len: nat)

  /** Compaction in place: the live entries move to the front of the same array. */
  method Compact(data: array<int>, len: nat, cutoff: int) returns (kept: nat)
    requires len <= data.Length
    modifies data
    ensures kept <= len && data[..kept] == Live(old(data[..len]), cutoff)
  {
    kept := 0;
    for i := 0 to len
      invariant kept <= i && data[..kept] == Live(old(data[..i]), cutoff)
      invariant forall k :: i <= k < len ==> data[k] == old(data[k])
    {
      assert old(data[..i + 1])[..i] == old(data[..i]);
      if data[i] > cutoff {
        data[kept] := data[i];
        kept := kept + 1;
        assert data[..kept] == data[..kept - 1] + [old(data[i])];
      }
    }
  }

  /** Filtering into a new array, with room for one more. */
  method Recent(data: array<int>, len: nat, cutoff: int) returns (s: Slice)
    requires len <= data.Length
    ensures fresh(s.data) && s.len < s.data.Length && s.data[..s.len] == Live(data[..len], cutoff)
  {
    var copy := new int[len + 1];
    var kept := 0;
    for i := 0 to len
      invariant kept <= i && copy[..kept] == Live(data[..i], cutoff)
    {
      assert data[..i + 1][..i] == data[..i];
      if data[i] > cutoff {
        copy[kept] := data[i];
        kept := kept + 1;
        assert copy[..kept] == copy[..kept - 1] + [data[i]];
      }
    }
    s := Slice(copy, kept);
  }

  method Append(s: Slice, x: int) returns (t: Slice)
    requires s.len < s.data.Length
    modifies s.data
    ensures t.data == s.data && t.len <= t.data.Length && t.data[..t.len] == old(s.data[..s.len]) + [x]
  {
    s.data[s.len] := x;
    t := Slice(s.data, s.len + 1);
  }

  /** One bucket replaced, or dropped when it becomes empty. */
  function WithBucket(b: Buckets, key: string, es: seq<int>): Buckets {
    if es == [] then map k | k in b && k != key :: b[k] else b[key := es]
  }

  /** Pruned except for the keys in rest. */
  function PartlyPruned(b: Buckets, rest: set<string>, cutoff: int): Buckets {
    map k | k in b && (k in rest || Live(b[k], cutoff) != []) :: if k in rest then b[k] else Live(b[k], cutoff)
  }

  lemma PartlyPrunedStep(b: Buckets, rest: set<string>, key: string, cutoff: int)
    requires key in rest && rest <= b.Keys
    ensures key in PartlyPruned(b, rest, cutoff) && PartlyPruned(b, rest, cutoff)[key] == b[key]
    ensures PartlyPruned(b, rest - {key}, cutoff) ==
            WithBucket(PartlyPruned(b, rest, cutoff), key, Live(b[key], cutoff))
  {
    hide Live;
  }

  lemma PartlyPrunedEnds(b: Buckets, cutoff: int)
    ensures PartlyPruned(b, b.Keys, cutoff) == b && PartlyPruned(b, {}, cutoff) == Pruned(b, cutoff)
  {
    hide Live;
  }

  class Limiter {
    var buckets: map<string, Slice>

    ghost function Arrays(): set<array<int>> reads this { set k | k in buckets :: buckets[k].data }

    /** No two keys share an array. */
    ghost predicate Valid() reads this {
      && (forall k :: k in buckets ==> buckets[k].len <= buckets[k].data.Length)
      && (forall j, k :: j in buckets && k in buckets && j != k ==> buckets[j].data != buckets[k].data)
    }

    ghost function Contents(): Buckets
      requires Valid()
      reads this, Arrays()
    {
      map k | k in buckets :: buckets[k].data[..buckets[k].len]
    }

    constructor ()
      ensures Valid() && Contents() == map[]
    {
      buckets := map[];
    }

    /** Compaction of one bucket, which is dropped when nothing is left. */
    method CompactBucket(key: string, cutoff: int)
      requires Valid() && key in buckets
      modifies this, buckets[key].data
      ensures Valid() && Arrays() <= old(Arrays())
      ensures Contents() == WithBucket(old(Contents()), key, Live(old(Contents())[key], cutoff))
    {
      hide Live, Entries;
      var slice := buckets[key];
      var kept := Compact(slice.data, slice.len, cutoff);
      ghost var middle := Contents();
      assert middle == old(Contents())[key := middle[key]];
      if kept == 0 { Reset(key); } else { Shorten(key, kept); }
    }

    method Shorten(key: string, len: nat)
      requires Valid() && key in buckets && len <= buckets[key].len
      modifies this
      ensures Valid() && Arrays() <= old(Arrays())
      ensures Contents() == old(Contents())[key := old(buckets[key].data[..len])]
    {
      buckets := buckets[key := Slice(buckets[key].data, len)];
    }

    /** Compacting the buckets one after the other in place loses no live entry of any of them. */
    method RemoveExpired(cutoff: int)
      requires Valid()
      modifies this, Arrays()
      ensures Valid() && Contents() == Pruned(old(Contents()), cutoff) && Arrays() <= old(Arrays())
    {
      hide Live, PartlyPruned, Pruned;
      var rest := buckets.Keys;
      ghost var was := Contents();
      ghost var arrays := Arrays();
      assert was.Keys == buckets.Keys;
      PartlyPrunedEnds(was, cutoff);
      while rest != {}
        invariant Valid() && Arrays() <= arrays && rest <= was.Keys
        invariant Contents() == PartlyPruned(was, rest, cutoff)
        decreases rest
      {
        var key :| key in rest;
        PartlyPrunedStep(was, rest, key, cutoff);
        rest := rest - {key};
        CompactBucket(key, cutoff);
      }
    }

    method Store(key: string, s: Slice)
      requires Valid() && s.len <= s.data.Length && s.data !in Arrays()
      modifies this
      ensures Valid() && Contents() == old(Contents())[key := s.data[..s.len]]
    {
      buckets := buckets[key := s];
    }

    /** The recent entries of a key after pruning, in an array of their own. */
    method Fresh(key: string, cutoff: int) returns (s: Slice)
      requires Valid()
      ensures fresh(s.data) && s.len < s.data.Length
      ensures s.data[..s.len] == Live(Entries(Contents(), key), cutoff)
    {
      if key in buckets {
        s := Recent(buckets[key].data, buckets[key].len, cutoff);
      } else {
        var empty := new int[1];
        s := Slice(empty, 0);
      }
    }

    /** Prunes all buckets and copies the recent entries of one. */
    method Collect(key: string, cutoff: int) returns (s: Slice)
      requires Valid()
      modifies this, Arrays()
      ensures Valid() && Contents() == Pruned(old(Contents()), cutoff) && fresh(s.data) && s.data !in Arrays()
      ensures s.len < s.data.Length
      ensures s.data[..s.len] == Live(old(Entries(Contents(), key)), cutoff)
    {
      hide Live, Pruned;
      RemoveExpired(cutoff);
      PrunedEntries(old(Contents()), key, cutoff);
      s := Fresh(key, cutoff);
    }

    method Allow(key: string, p: Policy, now: int) returns (allowed: bool)
      requires Valid()
      modifies this, Arrays()
      ensures Valid() && Contents() == After(old(Contents()), Call.Allow(key, now), p)
      ensures allowed <==> Grants(old(Entries(Contents(), key)), Call.Allow(key, now), key, p)
    {
      hide Live, Pruned;
      var recent := Collect(key, now - p.window);
      allowed := recent.len < p.limit;
      if allowed {
        recent := Append(recent, now);
      }
      Store(key, recent);
    }

    /** A limit below one makes the source index an empty slice, after it has stored the recent entries. */
    method IsBlocked(key: string, p: Policy, now: int) returns (answer: Probe)
      requires Valid()
      modifies this, Arrays()
      ensures Valid() && Contents() == After(old(Contents()), Call.IsBlocked(key, now), p)
      ensures var recent := Live(old(Entries(Contents(), key)), now - p.window);
              && (answer.Free? <==> !Blocked(old(Entries(Contents(), key)), now, p))
              && (answer.Panics? <==> p.limit <= 0 && recent == [])
              && (answer.Wait? ==> recent != [] && answer.retryAfter == RetryAfter(recent, now, p))
    {
      hide Live, Pruned;
      var recent := Collect(key, now - p.window);
      Store(key, recent);
      if recent.len < p.limit { return Free; }
      if recent.len == 0 { return Panics; }
      var retryAfter := p.window - (now - recent.data[0]);
      if retryAfter < SECOND { retryAfter := SECOND; }
      return Wait(retryAfter);
    }

    method Reset(key: string)
      requires Valid()
      modifies this
      ensures Valid() && Arrays() <= old(Arrays())
      ensures Contents() == map k | k in old(Contents()) && k != key :: old(Contents())[k]
    {
      buckets := map k | k in buckets && k != key :: buckets[k];
    }
  }

  lemma PrunedEntries(b: Buckets, key: string, cutoff: int)
    ensures Live(Entries(Pruned(b, cutoff), key), cutoff) == Live(Entries(b, key), cutoff)
  {
    LiveTwice(Entries(b, key), cutoff);
  }
}
