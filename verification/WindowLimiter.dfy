/**
The fixed-window limiter kept in the database (internal/database/ratelimit.go), for integer windows.
Times are whole seconds.
*/
module WindowLimiter {
  import opened Wrappers

  datatype Row = Row(start: int, attempts: nat)

  type Rows = map<string, Row>

  datatype Policy = Policy(limit: int, window: nat)

  datatype Call = Check(id: string, at: int) | Reset(id: string, at: int)

  datatype Answer = Answer(allowed: bool, remaining: int)

  /** A first attempt opens a window; a window is over when more than window seconds have passed. */
  predicate Opens(row: Option<Row>, now: int, p: Policy) { row.None? || row.value.start < now - p.window }

  predicate Allowed(row: Option<Row>, now: int, p: Policy) { Opens(row, now, p) || row.value.attempts < p.limit }

  function Checked(row: Option<Row>, now: int, p: Policy): Row {
    if Opens(row, now, p) then Row(now, 1)
    else if row.value.attempts < p.limit then row.value.(attempts := row.value.attempts + 1)
    else row.value
  }

  function Of(rows: Rows, id: string): Option<Row> { if id in rows then Some(rows[id]) else None }

  function After(rows: Rows, c: Call, p: Policy): Rows {
    if c.Reset? then map k | k in rows && k != c.id :: rows[k] else rows[c.id := Checked(Of(rows, c.id), c.at, p)]
  }

  // ---- The limiter ----

  class Limits {
    var rows: Rows

    method CheckRateLimit(id: string, p: Policy, now: int) returns (answer: Answer)
      modifies this
      ensures rows == After(old(rows), Check(id, now), p)
      ensures answer.allowed <==> Allowed(Of(old(rows), id), now, p)
      ensures answer.allowed ==> answer.remaining == 0
      ensures !answer.allowed ==> id in old(rows) && answer.remaining == Remaining(old(rows)[id], now, p) >= 1
    {
      var cutoff := now - p.window;
      if id !in rows {
        rows := rows[id := Row(now, 1)];
        return Answer(true, 0);
      }
      var row := rows[id];
      if row.start < cutoff {
        rows := rows[id := Row(now, 1)];
        return Answer(true, 0);
      }
      if row.attempts >= p.limit {
        var remaining := p.window - (now - row.start) + 1;
        if remaining < 1 { remaining := 1; }
        assert rows[id := row] == rows;
        return Answer(false, remaining);
      }
      rows := rows[id := row.(attempts := row.attempts + 1)];
      return Answer(true, 0);
    }

    method ResetRateLimit(id: string, ghost now: int, ghost p: Policy)
      modifies this
      ensures rows == After(old(rows), Reset(id, now), p)
    {
      rows := map k | k in rows && k != id :: rows[k];
    }
  }

  /** Seconds until the window that started then is over. */
  function Remaining(row: Row, now: int, p: Policy): int { row.start + p.window + 1 - now }

  // ---- Runs ----

  ghost predicate IsRun(states: seq<Rows>, calls: seq<Call>, p: Policy) {
    && |states| == |calls| + 1 && states[0] == map[]
    && (forall k :: 0 <= k < |calls| ==> states[k + 1] == After(states[k], calls[k], p))
    && (forall i, j :: 0 <= i <= j < |calls| ==> calls[i].at <= calls[j].at)
  }

  predicate Grants(row: Option<Row>, c: Call, id: string, p: Policy) { c.Check? && c.id == id && Allowed(row, c.at, p) }

  /** How many of the calls i..j are granted to the identifier. */
  function Granted(states: seq<Rows>, calls: seq<Call>, p: Policy, id: string, i: nat, j: nat): nat
    requires i <= j <= |calls| < |states|
  {
    if i == j then 0
    else Granted(states, calls, p, id, i, j - 1) + (if Grants(Of(states[j - 1], id), calls[j - 1], id, p) then 1 else 0)
  }

  predicate NoReset(calls: seq<Call>, id: string, i: nat, j: nat)
    requires i <= j <= |calls|
  {
    forall k :: i <= k < j ==> !(calls[k].Reset? && calls[k].id == id)
  }

  /** A window admits limit attempts, and at least the one that opened it. */
  function PerWindow(p: Policy): nat { if p.limit > 1 then p.limit else 1 }

  /** Counted attempts stay within the limit; windows started in the past. */
  predicate Kept(row: Option<Row>, p: Policy, now: int) {
    row.Some? ==> row.value.attempts <= PerWindow(p) && row.value.start <= now
  }

  lemma {:induction false} KeptInRun(states: seq<Rows>, calls: seq<Call>, p: Policy, id: string, k: nat)
    requires IsRun(states, calls, p) && k < |calls|
    ensures Kept(Of(states[k], id), p, calls[k].at) && Kept(Of(states[k + 1], id), p, calls[k].at)
  {
    if k > 0 { KeptInRun(states, calls, p, id, k - 1); }
  }

  /** What a call that does not reset the identifier does to its row. */
  lemma RowStep(rows: Rows, c: Call, p: Policy, id: string)
    requires !(c.Reset? && c.id == id)
    ensures Of(After(rows, c, p), id) == if c.id == id then Some(Checked(Of(rows, id), c.at, p)) else Of(rows, id)
  {
  }

  /**
  granted attempts since t: all counted in the current window, or the current one began since t and one full
  window precedes it.
  */
  predicate Bounded(granted: nat, row: Option<Row>, p: Policy, t: int) {
    granted <= Attempts(row) || (row.Some? && row.value.start >= t && granted <= PerWindow(p) + Attempts(row))
  }

  function Attempts(row: Option<Row>): nat { if row.Some? then row.value.attempts else 0 }

  lemma BoundedStep(granted: nat, rows: Rows, c: Call, p: Policy, id: string, t: int)
    requires Bounded(granted, Of(rows, id), p, t) && Kept(Of(rows, id), p, c.at) && t <= c.at <= t + p.window
    requires !(c.Reset? && c.id == id)
    ensures Bounded(granted + (if Grants(Of(rows, id), c, id, p) then 1 else 0), Of(After(rows, c, p), id), p, t)
  {
    hide After;
    RowStep(rows, c, p, id);
  }

  lemma {:induction false} GrantsBounded(states: seq<Rows>, calls: seq<Call>, p: Policy, id: string, i: nat, j: nat)
    requires IsRun(states, calls, p) && i <= j <= |calls| && i < |calls| && NoReset(calls, id, i, j)
    requires j > i ==> calls[j - 1].at <= calls[i].at + p.window
    ensures Bounded(Granted(states, calls, p, id, i, j), Of(states[j], id), p, calls[i].at)
    decreases j
  {
    hide After, Bounded;
    if i == j {
      assert Bounded(0, Of(states[j], id), p, calls[i].at) by { NothingGranted(Of(states[j], id), p, calls[i].at); }
    } else {
      GrantsBounded(states, calls, p, id, i, j - 1);
      KeptInRun(states, calls, p, id, j - 1);
      BoundedStep(Granted(states, calls, p, id, i, j - 1), states[j - 1], calls[j - 1], p, id, calls[i].at);
    }
  }

  lemma NothingGranted(row: Option<Row>, p: Policy, t: int)
    ensures Bounded(0, row, p, t)
  {
  }

  /** Calls at most one window apart are granted at most twice the limit, between resets. */
  lemma TwiceTheLimit(states: seq<Rows>, calls: seq<Call>, p: Policy, id: string, i: nat, j: nat)
    requires IsRun(states, calls, p) && i < j <= |calls| && NoReset(calls, id, i, j)
    requires calls[j - 1].at <= calls[i].at + p.window
    ensures Granted(states, calls, p, id, i, j) <= 2 * PerWindow(p)
  {
    GrantsBounded(states, calls, p, id, i, j);
    KeptInRun(states, calls, p, id, j - 1);
  }

  lemma {:induction false} WithinWindow(states: seq<Rows>, calls: seq<Call>, p: Policy, id: string, i: nat, j: nat)
    requires IsRun(states, calls, p) && i < j <= |calls| && NoReset(calls, id, i, j)
    requires calls[i] == Check(id, calls[i].at) && Opens(Of(states[i], id), calls[i].at, p)
    requires calls[j - 1].at <= calls[i].at + p.window
    ensures Of(states[j], id) == Some(Row(calls[i].at, Granted(states, calls, p, id, i, j)))
    decreases j
  {
    hide After;
    RowStep(states[j - 1], calls[j - 1], p, id);
    if i < j - 1 { WithinWindow(states, calls, p, id, i, j - 1); }
  }

  /** From the call that opens a window until it is over, at most limit calls are granted, counting that one. */
  lemma LimitPerWindow(states: seq<Rows>, calls: seq<Call>, p: Policy, id: string, i: nat, j: nat)
    requires IsRun(states, calls, p) && i < j <= |calls| && NoReset(calls, id, i, j)
    requires calls[i] == Check(id, calls[i].at) && Opens(Of(states[i], id), calls[i].at, p)
    requires calls[j - 1].at <= calls[i].at + p.window
    ensures Granted(states, calls, p, id, i, j) <= PerWindow(p)
  {
    WithinWindow(states, calls, p, id, i, j);
    KeptInRun(states, calls, p, id, j - 1);
  }

  lemma {:induction false} UnchangedWhileDenied(states: seq<Rows>, calls: seq<Call>, p: Policy, id: string, i: nat,
      j: nat)
    requires IsRun(states, calls, p) && i <= j <= |calls| && NoReset(calls, id, i, j)
    requires Granted(states, calls, p, id, i, j) == 0
    ensures Of(states[j], id) == Of(states[i], id)
    decreases j
  {
    hide After;
    if i < j {
      UnchangedWhileDenied(states, calls, p, id, i, j - 1);
      RowStep(states[j - 1], calls[j - 1], p, id);
    }
  }

  /**
  After a refusal, and with nothing granted meanwhile, a later call is granted exactly when it waits at
  least the returned time.
  */
  lemma LeastWait(states: seq<Rows>, calls: seq<Call>, p: Policy, id: string, i: nat, j: nat)
    requires IsRun(states, calls, p) && i < j < |calls| && NoReset(calls, id, i, j)
    requires calls[i] == Check(id, calls[i].at) && calls[j] == Check(id, calls[j].at)
    requires Granted(states, calls, p, id, i, j) == 0 && !Allowed(Of(states[i], id), calls[i].at, p)
    ensures id in states[i]
    ensures Grants(Of(states[j], id), calls[j], id, p) <==>
            calls[j].at >= calls[i].at + Remaining(states[i][id], calls[i].at, p)
  {
    hide After;
    UnchangedWhileDenied(states, calls, p, id, i, j);
  }
}
