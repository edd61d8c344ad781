/**
The durable command queue (internal/queue/queue.go). Each method is one transaction on the table of
fleet commands; the clock is an integer number of seconds. A command is identified by the public ID
of its task, which is unique in the table and also its idempotency key.
*/
module Queue {
  import opened Wrappers

  type TaskId = string
  type NodeId = string

  const DEFAULT_PRIORITY := 100
  const DEFAULT_MAX_ATTEMPTS := 5
  const LEASE_SECONDS := 300

  datatype Status = Pending | Leased | Running | Succeeded | Failed | Cancelled | DeadLetter

  datatype Command = Command(
    node: NodeId, operation: string, status: Status, leasedUntil: Option<int>,
    attempts: nat, maxAttempts: nat, availableAt: int, lastError: Option<string>, priority: int, createdAt: int)

  type Table = map<TaskId, Command>

  /** Pending, leased or running. */
  predicate Active(c: Command) { c.status.Pending? || c.status.Leased? || c.status.Running? }

  predicate InHand(c: Command) { c.status.Leased? || c.status.Running? }

  function Backoff(attempts: nat): int {
    if attempts <= 1 then 2 else if attempts == 2 then 5 else if attempts == 3 then 10 else 30
  }

  datatype Event =
    | Publish(task: TaskId, node: NodeId, operation: string, now: int)
    | PublishRejected(task: TaskId, node: NodeId, operation: string, reason: string, now: int)
    | Claim(node: NodeId, pick: Option<TaskId>, now: int)
    | MarkRunning(task: TaskId, node: NodeId, now: int)
    | RenewLease(task: TaskId, node: NodeId, now: int)
    | Discard(task: TaskId, node: NodeId, reason: string, now: int)
    | CancelTask(task: TaskId, node: NodeId, reason: string, now: int)
    | Acknowledge(task: TaskId, node: NodeId, now: int)
    | CancelNode(node: NodeId, marker: string, now: int)
    | RestoreNode(node: NodeId, marker: string, now: int)
    | FinalizeNode(node: NodeId, marker: string, now: int)
    | Complete(task: TaskId, success: bool, error: string, now: int)

  predicate Expired(c: Command, node: NodeId, now: int) {
    c.node == node && InHand(c) && c.leasedUntil.Some? && c.leasedUntil.value < now
  }

  /** A claim first gives up expired leases of the node. */
  function Expire(c: Command, node: NodeId, now: int): Command {
    if Expired(c, node, now)
    then c.(status := if c.attempts >= c.maxAttempts then DeadLetter else Pending, leasedUntil := None)
    else c
  }

  /** What an event does to one row of the table. */
  function RowAfter(e: Event, t: TaskId, c: Command): Command {
    match e
    case Publish(_, _, _, _) => c
    case PublishRejected(_, _, _, _, _) => c
    case Claim(node, pick, now) =>
      var x := Expire(c, node, now);
      if pick == Some(t)
      then x.(status := Leased, leasedUntil := Some(now + LEASE_SECONDS), attempts := x.attempts + 1) else x
    case MarkRunning(task, node, _) =>
      if t == task && c.node == node && InHand(c) then c.(status := Running) else c
    case RenewLease(task, node, now) =>
      if t == task && c.node == node && c.status.Running? then c.(leasedUntil := Some(now + LEASE_SECONDS)) else c
    case Discard(task, node, reason, _) =>
      if t == task && c.node == node && !c.status.Succeeded? && !c.status.Failed?
      then c.(status := Failed, lastError := Some(reason), leasedUntil := None) else c
    case CancelTask(task, node, reason, _) =>
      if t == task && c.node == node && Active(c)
      then c.(status := Cancelled, lastError := Some(reason), leasedUntil := None) else c
    case Acknowledge(task, node, _) =>
      if t == task && c.node == node && Active(c) then c.(status := Succeeded, leasedUntil := None) else c
    case CancelNode(node, marker, _) =>
      if c.node == node && Active(c) then c.(status := Cancelled, lastError := Some(marker), leasedUntil := None) else c
    case RestoreNode(node, marker, now) =>
      if Marked(c, node, marker)
      then c.(status := Pending, lastError := None, availableAt := now, leasedUntil := None) else c
    case FinalizeNode(node, marker, _) =>
      if Marked(c, node, marker) then c.(lastError := Some("node removed")) else c
    case Complete(task, success, error, now) =>
      if t != task then c
      else if success then c.(status := Succeeded, leasedUntil := None)
      else if c.attempts >= c.maxAttempts then c.(status := DeadLetter, lastError := Some(error), leasedUntil := None)
      else c.(status := Pending, lastError := Some(error), availableAt := now + Backoff(c.attempts),
          leasedUntil := None)
  }

  /** A command cancelled under a removal marker. */
  predicate Marked(c: Command, node: NodeId, marker: string) {
    c.node == node && c.status.Cancelled? && c.lastError == Some(marker)
  }

  function NewRow(e: Event): Command
    requires e.Publish? || e.PublishRejected?
  {
    if e.Publish?
    then Command(e.node, e.operation, Pending, None, 0, DEFAULT_MAX_ATTEMPTS, e.now, None, DEFAULT_PRIORITY, e.now)
    else Command(e.node, e.operation, Failed, None, 0, 0, e.now, Some(e.reason), DEFAULT_PRIORITY, e.now)
  }

  /** One transaction; publishing an existing task does nothing. */
  function Apply(q: Table, e: Event): Table {
    var rows := map t | t in q :: RowAfter(e, t, q[t]);
    if (e.Publish? || e.PublishRejected?) && e.task !in q then rows[e.task := NewRow(e)] else rows
  }

  predicate Claimable(c: Command, node: NodeId, now: int) {
    c.node == node && c.status.Pending? && c.attempts < c.maxAttempts && c.availableAt <= now
  }

  predicate Earlier(a: Command, b: Command) {
    a.priority < b.priority || (a.priority == b.priority && a.createdAt < b.createdAt)
  }

  function ExpireAll(q: Table, node: NodeId, now: int): Table {
    map t | t in q :: Expire(q[t], node, now)
  }

  /** t is a claimable command of the node that no other one precedes. */
  predicate Next(q: Table, node: NodeId, now: int, t: TaskId) {
    && t in q && Claimable(q[t], node, now)
    && forall u :: u in q && Claimable(q[u], node, now) ==> !Earlier(q[u], q[t])
  }

  /** A claim picks the next command after expiry, and comes back empty only when there is none. */
  predicate Enabled(q: Table, e: Event) {
    e.Claim? ==>
      var x := ExpireAll(q, e.node, e.now);
      match e.pick
      case Some(t) => Next(x, e.node, e.now, t)
      case None => forall u :: u in x ==> !Claimable(x[u], e.node, e.now)
  }

  /** states[k] is the table before event k of a run that starts with an empty table. */
  ghost predicate IsRun(states: seq<Table>, events: seq<Event>) {
    && |states| == |events| + 1 && states[0] == map[]
    && (forall k :: 0 <= k < |events| ==> Enabled(states[k], events[k]) && states[k + 1] == Apply(states[k], events[k]))
    && (forall j, k :: 0 <= j <= k < |events| ==> events[j].now <= events[k].now)
  }

  // ---- What every command keeps ----

  /** leased_until is set exactly while the command is in a worker's hands; attempts stay within bounds. */
  predicate WellKept(c: Command) {
    (c.leasedUntil.Some? <==> InHand(c)) && c.attempts <= c.maxAttempts
  }

  predicate Claims(e: Event, t: TaskId) { e.Claim? && e.pick == Some(t) }

  lemma RowKept(q: Table, e: Event, t: TaskId)
    requires t in q && Enabled(q, e) && WellKept(q[t])
    ensures var c, c' := q[t], RowAfter(e, t, q[t]);
            && WellKept(c') && c'.maxAttempts == c.maxAttempts && c'.node == c.node && c'.operation == c.operation
            && c'.attempts == c.attempts + (if Claims(e, t) then 1 else 0)
            && (Claims(e, t) ==>
                c'.status.Leased? && c'.leasedUntil == Some(e.now + LEASE_SECONDS)
                    && Expire(c, e.node, e.now).status.Pending?)
  {
    if Claims(e, t) { assert Next(ExpireAll(q, e.node, e.now), e.node, e.now, t); }
  }

  /** In every state of every run. */
  lemma {:induction false} AlwaysWellKept(states: seq<Table>, events: seq<Event>, k: nat, t: TaskId)
    requires IsRun(states, events) && k < |states| && t in states[k]
    ensures WellKept(states[k][t])
  {
    if k > 0 && t in states[k - 1] {
      AlwaysWellKept(states, events, k - 1, t);
      RowKept(states[k - 1], events[k - 1], t);
    }
  }

  /** How many of the first k events claim t. */
  function ClaimCount(events: seq<Event>, k: nat, t: TaskId): nat
    requires k <= |events|
  {
    if k == 0 then 0 else ClaimCount(events, k - 1, t) + (if Claims(events[k - 1], t) then 1 else 0)
  }

  /**
  A command is claimed exactly attempt_count times, so at most max_attempts times: never for a task
  that was published as rejected, at most five times for any other.
  */
  lemma {:induction false} ClaimsBounded(states: seq<Table>, events: seq<Event>, k: nat, t: TaskId)
    requires IsRun(states, events) && k < |states|
    ensures t in states[k] ==> ClaimCount(events, k, t) == states[k][t].attempts <= states[k][t].maxAttempts
    ensures t in states[k] ==> states[k][t].maxAttempts in {0, DEFAULT_MAX_ATTEMPTS}
    ensures t !in states[k] ==> ClaimCount(events, k, t) == 0
  {
    if k > 0 {
      ClaimsBounded(states, events, k - 1, t);
      if t in states[k - 1] {
        AlwaysWellKept(states, events, k - 1, t);
        RowKept(states[k - 1], events[k - 1], t);
      } else {
        assert !Claims(events[k - 1], t);
      }
    }
  }

  /** A rejected task stays unclaimable through every run. */
  lemma {:induction false} RejectedNeverClaimed(states: seq<Table>, events: seq<Event>, i: nat, k: nat, t: TaskId)
    requires IsRun(states, events) && i < k < |states|
    requires events[i].PublishRejected? && events[i].task == t && t !in states[i]
    ensures t in states[k] && states[k][t].maxAttempts == 0 && ClaimCount(events, k, t) == 0
    decreases k
  {
    ClaimsBounded(states, events, k, t);
    if k > i + 1 {
      RejectedNeverClaimed(states, events, i, k - 1, t);
      AlwaysWellKept(states, events, k - 1, t);
      RowKept(states[k - 1], events[k - 1], t);
    }
  }

  // ---- What must lie between two claims ----

  /** Event e puts a command back to pending that was not: an expired lease, a failed completion, or a restore. */
  predicate Reopens(e: Event, t: TaskId, c: Command) {
    || (e.Claim? && Expired(c, e.node, e.now))
    || Retried(e, t, c)
  }

  predicate Retried(e: Event, t: TaskId, c: Command) {
    || (e.Complete? && e.task == t && !e.success)
    || (e.RestoreNode? && Marked(c, e.node, e.marker))
  }

  /** Unless it is reopened, a command in hand is never claimed, and its lease only moves forward. */
  lemma NotReopened(q: Table, e: Event, t: TaskId, until: int)
    requires t in q && Enabled(q, e) && WellKept(q[t])
    requires !q[t].status.Pending? && !Reopens(e, t, q[t])
    requires InHand(q[t]) ==> q[t].leasedUntil.value >= until
    requires e.now + LEASE_SECONDS >= until
    ensures !Claims(e, t)
    ensures var c' := RowAfter(e, t, q[t]);
            && !c'.status.Pending?
            && (InHand(c') ==> c'.leasedUntil.Some? && c'.leasedUntil.value >= until)
  {
    if Claims(e, t) { RowKept(q, e, t); }
  }

  /**
  Between two claims of one command lies a lease expiry, a failed completion or a restore. The expiry
  may be part of the second claim.
  */
  lemma {:induction false} ClaimsSeparated(states: seq<Table>, events: seq<Event>, i: nat, j: nat, t: TaskId)
    requires IsRun(states, events) && i < j < |events| && Claims(events[i], t) && Claims(events[j], t)
    ensures exists k :: i < k <= j && t in states[k] && Reopens(events[k], t, states[k][t])
  {
    if forall k :: i < k <= j && t in states[k] ==> !Reopens(events[k], t, states[k][t]) {
      HeldThroughout(states, events, i, j, t);
      NotReopened(states[j], events[j], t, events[i].now + LEASE_SECONDS);
      assert false;
    }
  }

  /** From a claim on, while nothing reopens it, the command is not pending and its lease is at least the claim's. */
  lemma {:induction false} HeldThroughout(states: seq<Table>, events: seq<Event>, i: nat, j: nat, t: TaskId)
    requires IsRun(states, events) && i < j < |states| && Claims(events[i], t)
    requires forall k :: i < k < j && t in states[k] ==> !Reopens(events[k], t, states[k][t])
    ensures t in states[j] && !states[j][t].status.Pending? && WellKept(states[j][t])
    ensures InHand(states[j][t]) ==> states[j][t].leasedUntil.value >= events[i].now + LEASE_SECONDS
    decreases j
  {
    assert Next(ExpireAll(states[i], events[i].node, events[i].now), events[i].node, events[i].now, t);
    if j == i + 1 {
      AlwaysWellKept(states, events, i, t);
      RowKept(states[i], events[i], t);
    } else {
      HeldThroughout(states, events, i, j - 1, t);
      NotReopened(states[j - 1], events[j - 1], t, events[i].now + LEASE_SECONDS);
      RowKept(states[j - 1], events[j - 1], t);
    }
  }

  /** The first reopening after a claim, if it is an expiry, comes more than a full lease later. */
  lemma {:induction false} LeaseExclusive(states: seq<Table>, events: seq<Event>, i: nat, j: nat, t: TaskId)
    requires IsRun(states, events) && i < j < |events| && Claims(events[i], t) && Claims(events[j], t)
    requires forall k :: i < k <= j && t in states[k] ==> !Retried(events[k], t, states[k][t])
    ensures events[j].now > events[i].now + LEASE_SECONDS
  {
    ClaimsSeparated(states, events, i, j, t);
    var k := FirstReopening(states, events, i, j, t);
    HeldThroughout(states, events, i, k, t);
    assert Expired(states[k][t], events[k].node, events[k].now);
  }

  lemma {:induction false} FirstReopening(states: seq<Table>, events: seq<Event>, i: nat, j: nat, t: TaskId)
      returns (k: nat)
    requires IsRun(states, events) && i < j < |events|
    requires exists m :: i < m <= j && t in states[m] && Reopens(events[m], t, states[m][t])
    ensures i < k <= j && t in states[k] && Reopens(events[k], t, states[k][t])
    ensures forall m :: i < m < k && t in states[m] ==> !Reopens(events[m], t, states[m][t])
  {
    k := i + 1;
    while !(t in states[k] && Reopens(events[k], t, states[k][t]))
      invariant i < k <= j
      invariant forall m :: i < m < k && t in states[m] ==> !Reopens(events[m], t, states[m][t])
      decreases j - k
    {
      k := k + 1;
    }
  }

  // ---- Node removal ----

  predicate FreshMarker(q: Table, node: NodeId, marker: string) {
    forall t :: t in q ==> !Marked(q[t], node, marker)
  }

  /** What a failed removal leaves: the node's active commands are pending again, attempts kept, the rest untouched. */
  function Compensated(q: Table, node: NodeId, now: int): Table {
    map t | t in q ::
      if q[t].node == node && Active(q[t])
      then q[t].(status := Pending, leasedUntil := None, lastError := None, availableAt := now) else q[t]
  }

  lemma CancelThenRestore(q: Table, node: NodeId, marker: string, now: int, later: int)
    requires FreshMarker(q, node, marker)
    ensures Apply(Apply(q, CancelNode(node, marker, now)), RestoreNode(node, marker, later)) ==
            Compensated(q, node, later)
  {
    var mid := Apply(q, CancelNode(node, marker, now));
    assert mid.Keys == q.Keys;
  }

  function ApplyAll(q: Table, events: seq<Event>): Table
    decreases |events|
  {
    if events == [] then q else ApplyAll(Apply(q, events[0]), events[1..])
  }

  /** A worker's completion or a discard of the task, which also reach a cancelled command. */
  predicate Settles(e: Event, t: TaskId, node: NodeId) {
    (e.Complete? && e.task == t) || (e.Discard? && e.task == t && e.node == node)
  }

  /** The event neither writes nor reads the removal marker. */
  predicate Elsewhere(e: Event, marker: string) {
    Unrelated(e, marker) && (e.RestoreNode? || e.FinalizeNode? ==> e.marker != marker)
  }

  /** A command cancelled under a marker stays as it is until it is settled by name. */
  lemma {:induction false} MarkedSurvives(q: Table, events: seq<Event>, t: TaskId, node: NodeId, marker: string)
    requires t in q && Marked(q[t], node, marker) && Possible(q, events)
    requires forall k :: 0 <= k < |events| ==> Elsewhere(events[k], marker) && !Settles(events[k], t, node)
    ensures t in ApplyAll(q, events) && ApplyAll(q, events)[t] == q[t]
    decreases |events|
  {
    if events != [] {
      assert RowAfter(events[0], t, q[t]) == q[t];
      MarkedSurvives(Apply(q, events[0]), events[1..], t, node, marker);
    }
  }

  /** A command that has lost the mark never regains it. */
  lemma {:induction false} MarkStaysOff(q: Table, events: seq<Event>, t: TaskId, node: NodeId, marker: string)
    requires t in q && !Marked(q[t], node, marker) && marker != "node removed"
    requires forall k :: 0 <= k < |events| ==> Elsewhere(events[k], marker)
    ensures t in ApplyAll(q, events) && !Marked(ApplyAll(q, events)[t], node, marker)
    decreases |events|
  {
    if events != [] {
      ApplyRow(q, events[0], t);
      MarkStaysOff(Apply(q, events[0]), events[1..], t, node, marker);
    }
  }

  /** The row that a run of events makes of one row. */
  function RowAll(events: seq<Event>, t: TaskId, c: Command): Command
    decreases |events|
  {
    if events == [] then c else RowAll(events[1..], t, RowAfter(events[0], t, c))
  }

  lemma {:induction false} ApplyAllRow(q: Table, events: seq<Event>, t: TaskId)
    requires t in q
    ensures t in ApplyAll(q, events) && ApplyAll(q, events)[t] == RowAll(events, t, q[t])
    decreases |events|
  {
    hide Apply, RowAfter;
    if events != [] {
      ApplyRow(q, events[0], t);
      ApplyAllRow(Apply(q, events[0]), events[1..], t);
    }
  }

  lemma {:induction false} ApplyAllSplit(q: Table, events: seq<Event>, k: nat)
    requires k <= |events|
    ensures ApplyAll(q, events) == ApplyAll(ApplyAll(q, events[..k]), events[k..])
    ensures Possible(q, events) ==> Possible(q, events[..k])
    decreases k
  {
    hide Apply, Enabled;
    if k == 0 {
      assert events[..0] == [] && events[0..] == events;
    } else {
      ApplyAllSplit(Apply(q, events[0]), events[1..], k - 1);
      assert events[..k][1..] == events[1..][..k - 1] && events[1..][k - 1..] == events[k..];
    }
  }

  /** What a completion or discard makes of a command that a removal had cancelled. */
  function SettledRow(e: Event, c: Command, marker: string): Command
    requires e.Complete? || e.Discard?
  {
    var done := c.(leasedUntil := None);
    match e
    case Discard(_, _, reason, _) => done.(status := Failed, lastError := Some(reason))
    case Complete(_, success, error, now) =>
      if success then done.(status := Succeeded, lastError := Some(marker))
      else if c.attempts >= c.maxAttempts then done.(status := DeadLetter, lastError := Some(error))
      else done.(status := Pending, lastError := Some(error), availableAt := now + Backoff(c.attempts))
  }

  /**
  A failed removal loses no work, whatever else the queue does between the cancellation and the
  compensation. A command that was active comes back pending, with its attempts, unless a late completion
  or a discard named it in between. Then it is as the first of these left it, or as later events have made
  it since, and the compensation does not touch it.
  */
  lemma FailedRemovalLosesNothing(q: Table, node: NodeId, marker: string, now: int, between: seq<Event>, later: int,
      t: TaskId)
    requires t in q && q[t].node == node && Active(q[t]) && marker != "node removed"
    requires Possible(Apply(q, CancelNode(node, marker, now)), between)
    requires forall k :: 0 <= k < |between| ==> Elsewhere(between[k], marker)
    ensures var end := Apply(ApplyAll(Apply(q, CancelNode(node, marker, now)), between),
            RestoreNode(node, marker, later));
            && t in end
            && ((forall k :: 0 <= k < |between| ==> !Settles(between[k], t, node)) ==>
                  end[t] == q[t].(status := Pending, leasedUntil := None, lastError := None, availableAt := later))
            && (forall k :: 0 <= k < |between| && FirstSettling(between, k, t, node) ==>
                  end[t] == RowAll(between[k + 1..], t, SettledRow(between[k], q[t], marker)))
  {
    hide Apply, ApplyAll, Possible, Elsewhere, RowAll, SettledRow;
    var cancelled := Apply(q, CancelNode(node, marker, now));
    var before := ApplyAll(cancelled, between);
    ApplyRow(q, CancelNode(node, marker, now), t);
    ApplyAllRow(cancelled, between, t);
    ApplyRow(before, RestoreNode(node, marker, later), t);
    if forall k :: 0 <= k < |between| ==> !Settles(between[k], t, node) {
      MarkedSurvives(cancelled, between, t, node, marker);
    }
    forall k | 0 <= k < |between| && FirstSettling(between, k, t, node)
      ensures RowAfter(RestoreNode(node, marker, later), t, before[t]) ==
              RowAll(between[k + 1..], t, SettledRow(between[k], q[t], marker))
    {
      SettledMeanwhile(cancelled, between, k, q[t], t, node, marker);
    }
  }

  /** The first event that settles the task. */
  predicate FirstSettling(events: seq<Event>, k: nat, t: TaskId, node: NodeId)
    requires k < |events|
  {
    Settles(events[k], t, node) && forall j :: 0 <= j < k ==> !Settles(events[j], t, node)
  }

  lemma SettledMeanwhile(q: Table, between: seq<Event>, k: nat, c: Command, t: TaskId, node: NodeId, marker: string)
    requires t in q && q[t] == c.(status := Cancelled, lastError := Some(marker), leasedUntil := None) && c.node == node
    requires marker != "node removed" && Possible(q, between) && k < |between| && FirstSettling(between, k, t, node)
    requires forall j :: 0 <= j < |between| ==> Elsewhere(between[j], marker)
    ensures var end := ApplyAll(q, between);
            && t in end && end[t] == RowAll(between[k + 1..], t, SettledRow(between[k], c, marker))
            && !Marked(end[t], node, marker)
  {
    hide Apply, ApplyAll, Possible, Elsewhere, RowAll;
    ApplyAllSplit(q, between, k + 1);
    ApplyAllSplit(q, between, k);
    MarkedSurvives(q, between[..k], t, node, marker);
    var reached := ApplyAll(q, between[..k]);
    var settled := Apply(reached, between[k]);
    ApplyRow(reached, between[k], t);
    StepLast(q, between, k);
    MarkStaysOff(settled, between[k + 1..], t, node, marker);
    ApplyAllRow(settled, between[k + 1..], t);
  }

  lemma StepLast(q: Table, events: seq<Event>, k: nat)
    requires k < |events|
    ensures ApplyAll(q, events[..k + 1]) == Apply(ApplyAll(q, events[..k]), events[k])
  {
    hide Apply;
    ApplyAllSplit(q, events[..k + 1], k);
    assert events[..k + 1][..k] == events[..k] && events[..k + 1][k..] == [events[k]];
  }

  /** An event acts on the table row by row. */
  lemma ApplyRow(q: Table, e: Event, t: TaskId)
    ensures t in q ==> t in Apply(q, e) && Apply(q, e)[t] == RowAfter(e, t, q[t])
    ensures !e.Publish? && !e.PublishRejected? ==> Apply(q, e).Keys == q.Keys
  {
  }

  /** The claims among the events pick what the queue lets them pick. */
  ghost predicate Possible(q: Table, events: seq<Event>)
    decreases |events|
  {
    events == [] || (Enabled(q, events[0]) && Possible(Apply(q, events[0]), events[1..]))
  }

  /** The event does not write the marker as an error text. */
  predicate Unrelated(e: Event, marker: string) {
    match e
    case PublishRejected(_, _, _, reason, _) => reason != marker
    case Discard(_, _, reason, _) => reason != marker
    case CancelTask(_, _, reason, _) => reason != marker
    case CancelNode(_, m, _) => m != marker
    case Complete(_, _, error, _) => error != marker
    case _ => true
  }

  /** No command carries the marker as its error text. */
  predicate Unmarked(q: Table, marker: string) {
    forall t :: t in q ==> q[t].lastError != Some(marker)
  }

  lemma UnmarkedStep(q: Table, e: Event, marker: string)
    requires Unmarked(q, marker) && marker != "node removed" && Unrelated(e, marker)
    ensures Unmarked(Apply(q, e), marker)
  {
  }

  lemma {:induction false} StaysUnmarked(q: Table, events: seq<Event>, marker: string)
    requires Unmarked(q, marker) && marker != "node removed"
    requires forall k :: 0 <= k < |events| ==> Unrelated(events[k], marker)
    ensures Unmarked(ApplyAll(q, events), marker)
    decreases |events|
  {
    hide Apply, Unmarked, Unrelated;
    if events != [] {
      UnmarkedStep(q, events[0], marker);
      StaysUnmarked(Apply(q, events[0]), events[1..], marker);
    }
  }

  /**
  A completed removal revives nothing: once finalized, a restore with the same marker changes no row,
  however much later it comes.
  */
  lemma CompletedRemovalRevivesNone(q: Table, node: NodeId, marker: string, now: int, later: seq<Event>, at: int)
    requires Unmarked(q, marker) && marker != "node removed"
    requires forall k :: 0 <= k < |later| ==> Unrelated(later[k], marker)
    ensures var end := ApplyAll(Apply(Apply(q, CancelNode(node, marker, now)), FinalizeNode(node, marker, now)), later);
            Apply(end, RestoreNode(node, marker, at)) == end
  {
    hide Apply, ApplyAll;
    var cancelled := Apply(q, CancelNode(node, marker, now));
    var removed := Apply(cancelled, FinalizeNode(node, marker, now));
    FinalizedUnmarked(q, node, marker, now);
    StaysUnmarked(removed, later, marker);
    RestoreOfNothing(ApplyAll(removed, later), node, marker, at);
  }

  lemma FinalizedUnmarked(q: Table, node: NodeId, marker: string, now: int)
    requires Unmarked(q, marker) && marker != "node removed"
    ensures Unmarked(Apply(Apply(q, CancelNode(node, marker, now)), FinalizeNode(node, marker, now)), marker)
  {
    var cancelled := Apply(q, CancelNode(node, marker, now));
    assert forall t :: t in cancelled && cancelled[t].lastError == Some(marker) ==> Marked(cancelled[t], node, marker);
  }

  lemma RestoreOfNothing(q: Table, node: NodeId, marker: string, now: int)
    requires Unmarked(q, marker)
    ensures Apply(q, RestoreNode(node, marker, now)) == q
  {
    assert Apply(q, RestoreNode(node, marker, now)).Keys == q.Keys;
  }

  // ---- The queue as the control plane runs it ----

  /** After a claim that came back empty the node has nothing left to claim. */
  lemma EmptyClaim(q: Table, node: NodeId, now: int)
    requires Enabled(q, Claim(node, None, now))
    ensures var x := Apply(q, Claim(node, None, now)); forall t :: t in x ==> !Claimable(x[t], node, now)
  {
    assert Apply(q, Claim(node, None, now)) == ExpireAll(q, node, now);
  }

  /** An event about one task writes at most that row. */
  lemma RowWrite(q: Table, e: Event, t: TaskId)
    requires (e.MarkRunning? || e.RenewLease? || e.Discard? || e.CancelTask? || e.Acknowledge?) && e.task == t
    ensures Apply(q, e) == if t in q then q[t := RowAfter(e, t, q[t])] else q
  {
  }

  class FleetQueue {
    var commands: Table

    /** The row a claim would take: the least by priority, then by age. */
    method NextCommand(q: Table, node: NodeId, now: int) returns (pick: Option<TaskId>)
      ensures pick.Some? ==> Next(q, node, now, pick.value)
      ensures pick.None? ==> forall u :: u in q ==> !Claimable(q[u], node, now)
    {
      pick := None;
      var rest := q.Keys;
      while rest != {}
        invariant rest <= q.Keys
        invariant pick.None? ==> forall u :: u in q && u !in rest ==> !Claimable(q[u], node, now)
        invariant pick.Some? ==> pick.value in q && Claimable(q[pick.value], node, now)
        invariant pick.Some? ==>
                  forall u :: u in q && u !in rest && Claimable(q[u], node, now) ==> !Earlier(q[u], q[pick.value])
        decreases rest
      {
        var t :| t in rest;
        rest := rest - {t};
        if Claimable(q[t], node, now) && (pick.None? || Earlier(q[t], q[pick.value])) { pick := Some(t); }
      }
    }

    /** claimTask: expired leases are given up, then the next command is leased. */
    method ClaimTask(node: NodeId, now: int) returns (pick: Option<TaskId>)
      modifies this
      ensures Enabled(old(commands), Claim(node, pick, now))
      ensures commands == Apply(old(commands), Claim(node, pick, now))
    {
      var live: Table := map t | t in commands :: Expire(commands[t], node, now);
      pick := NextCommand(live, node, now);
      commands := live;
      if pick.Some? {
        var c := live[pick.value];
        commands := live[pick.value := c.(status := Leased, leasedUntil := Some(now + LEASE_SECONDS),
            attempts := c.attempts + 1)];
      }
    }

    /** CompleteTask has no status guard; an unknown task is an error when it failed. */
    method CompleteTask(task: TaskId, success: bool, error: string, now: int) returns (ok: bool)
      modifies this
      ensures commands == Apply(old(commands), Complete(task, success, error, now))
      ensures ok <==> success || task in old(commands)
    {
      if task !in commands {
        assert Apply(commands, Complete(task, success, error, now)) == commands;
        return success;
      }
      var c := commands[task];
      if success {
        commands := commands[task := c.(status := Succeeded, leasedUntil := None)];
      } else if c.attempts >= c.maxAttempts {
        commands := commands[task := c.(status := DeadLetter, lastError := Some(error), leasedUntil := None)];
      } else {
        commands := commands[task := c.(status := Pending, lastError := Some(error),
            availableAt := now + Backoff(c.attempts), leasedUntil := None)];
      }
      return true;
    }

    /** persistTask: publishing a task that is already there does nothing. */
    method PublishTask(task: TaskId, node: NodeId, operation: string, now: int)
      modifies this
      ensures commands == Apply(old(commands), Publish(task, node, operation, now))
    {
      assert (map t | t in commands :: RowAfter(Publish(task, node, operation, now), t, commands[t])) == commands;
      if task !in commands {
        commands := commands[task := Command(node, operation, Pending, None, 0, DEFAULT_MAX_ATTEMPTS, now, None,
            DEFAULT_PRIORITY, now)];
      }
    }

    method MarkRunningForNode(task: TaskId, node: NodeId, now: int) returns (ok: bool)
      modifies this
      ensures commands == Apply(old(commands), MarkRunning(task, node, now))
      ensures ok <==> task in old(commands) && old(commands)[task].node == node && InHand(old(commands)[task])
    {
      RowWrite(commands, MarkRunning(task, node, now), task);
      ok := task in commands && commands[task].node == node && InHand(commands[task]);
      if ok { commands := commands[task := commands[task].(status := Running)]; }
    }

    method RenewLeaseForNode(task: TaskId, node: NodeId, now: int) returns (ok: bool)
      modifies this
      ensures commands == Apply(old(commands), RenewLease(task, node, now))
      ensures ok <==> task in old(commands) && old(commands)[task].node == node && old(commands)[task].status.Running?
    {
      RowWrite(commands, RenewLease(task, node, now), task);
      ok := task in commands && commands[task].node == node && commands[task].status.Running?;
      if ok { commands := commands[task := commands[task].(leasedUntil := Some(now + LEASE_SECONDS))]; }
    }

    /** Also a command that is already cancelled or dead can be discarded. */
    method DiscardCommandForNode(task: TaskId, node: NodeId, reason: string, now: int) returns (ok: bool)
      modifies this
      ensures commands == Apply(old(commands), Discard(task, node, reason, now))
      ensures ok <==> && task in old(commands) && old(commands)[task].node == node
                      && !old(commands)[task].status.Succeeded? && !old(commands)[task].status.Failed?
    {
      RowWrite(commands, Discard(task, node, reason, now), task);
      ok := && task in commands && commands[task].node == node
            && !commands[task].status.Succeeded? && !commands[task].status.Failed?;
      if ok {
        commands := commands[task := commands[task].(status := Failed, lastError := Some(reason), leasedUntil := None)];
      }
    }

    method CancelTaskForNode(task: TaskId, node: NodeId, reason: string, now: int)
      modifies this
      ensures commands == Apply(old(commands), CancelTask(task, node, reason, now))
    {
      RowWrite(commands, CancelTask(task, node, reason, now), task);
      if task in commands && commands[task].node == node && Active(commands[task]) {
        commands := commands[task := commands[task].(status := Cancelled, lastError := Some(reason),
            leasedUntil := None)];
      }
    }

    method AcknowledgeTaskForNode(task: TaskId, node: NodeId, now: int)
      modifies this
      ensures commands == Apply(old(commands), Acknowledge(task, node, now))
    {
      RowWrite(commands, Acknowledge(task, node, now), task);
      if task in commands && commands[task].node == node && Active(commands[task]) {
        commands := commands[task := commands[task].(status := Succeeded, leasedUntil := None)];
      }
    }

    /** HasActiveTasksForNode */
    method HasActiveTasks(node: NodeId) returns (active: bool)
      ensures active <==> Busy(commands, node)
    {
      active := exists t :: t in commands && commands[t].node == node && Active(commands[t]);
    }

    /**
    Removing a node, as far as the queue is concerned; remove is the fate of the control-plane
    transaction, so the node is gone when it was applied. Without force a node with active commands is
    left alone. An attempt that reports an error is compensated. So a removal that did not happen loses
    work only if the cancellation took effect but reported an error, or the restore was refused; and one
    that did happen leaves active commands only if it reported an error and they were restored.
    */
    method RemoveNode(node: NodeId, force: bool, marker: string, cancel: Reply, remove: Reply, settle: Reply, now: int)
      returns (ok: bool, ghost gone: bool)
      requires FreshMarker(commands, node, marker)
      modifies this
      ensures !force && Busy(old(commands), node) ==> !ok && !gone && commands == old(commands)
      ensures force || !Busy(old(commands), node) ==>
                && (ok <==> cancel.Done? && remove.Done?) && (gone <==> cancel.Done? && remove.Applied())
                && commands == AfterRemoval(old(commands), node, marker, cancel, remove, settle, now)
      ensures gone ==> (Busy(commands, node) <==> Busy(old(commands), node) && remove.Lost? && settle.Applied())
      ensures !gone ==>
                (Busy(commands, node) <==>
                    (Busy(old(commands), node) && !(force && (cancel.Lost? || (cancel.Done? && settle.Refused?)))))
      ensures commands.Keys == old(commands).Keys
      ensures forall t :: t in old(commands) && !(old(commands)[t].node == node && Active(old(commands)[t])) ==>
                commands[t] == old(commands)[t]
    {
      hide RowAfter;
      gone := false;
      BusyAfterRemoval(commands, node, marker, cancel, remove, settle, now);
      if !force {
        var active := HasActiveTasks(node);
        if active { return false, gone; }
      }
      if cancel.Refused? { return false, gone; }
      commands := Apply(commands, CancelNode(node, marker, now));
      if cancel.Lost? { return false, gone; }
      gone := remove.Applied();
      if !remove.Done? {
        if settle.Applied() { commands := Apply(commands, RestoreNode(node, marker, now)); }
        return false, gone;
      }
      if settle.Applied() { commands := Apply(commands, FinalizeNode(node, marker, now)); }
      return true, gone;
    }
  }

  /** The commands after a removal was attempted. */
  function AfterRemoval(q: Table, node: NodeId, marker: string, cancel: Reply, remove: Reply, settle: Reply,
      now: int): Table {
    if cancel.Refused? then q
    else
      var cancelled := Apply(q, CancelNode(node, marker, now));
      if cancel.Lost? || settle.Refused? then cancelled
      else Apply(cancelled, if remove.Done? then FinalizeNode(node, marker, now) else RestoreNode(node, marker, now))
  }

  lemma BusyAfterRemoval(q: Table, node: NodeId, marker: string, cancel: Reply, remove: Reply, settle: Reply, now: int)
    requires FreshMarker(q, node, marker)
    ensures var r := AfterRemoval(q, node, marker, cancel, remove, settle, now);
            && r.Keys == q.Keys
            && (forall t :: t in q && !(q[t].node == node && Active(q[t])) ==> r[t] == q[t])
            && (Busy(r, node) <==>
                Busy(q, node) && (cancel.Refused? || (cancel.Done? && !remove.Done? && settle.Applied())))
            && (cancel.Done? && !remove.Done? && settle.Applied() ==> r == Compensated(q, node, now))
  {
    hide Apply;
    var cancelled := Apply(q, CancelNode(node, marker, now));
    CancelledRows(q, node, marker, now);
    CancelThenRestore(q, node, marker, now, now);
    FinalizedRows(cancelled, node, marker, now);
    if t :| t in q && q[t].node == node && Active(q[t]) { assert Active(Compensated(q, node, now)[t]); }
  }

  lemma CancelledRows(q: Table, node: NodeId, marker: string, now: int)
    ensures var r := Apply(q, CancelNode(node, marker, now));
            && r.Keys == q.Keys && !Busy(r, node)
            && forall t :: t in q && !(q[t].node == node && Active(q[t])) ==> r[t] == q[t]
  {
  }

  lemma FinalizedRows(q: Table, node: NodeId, marker: string, now: int)
    requires !Busy(q, node)
    ensures var r := Apply(q, FinalizeNode(node, marker, now));
            r.Keys == q.Keys && !Busy(r, node) && forall t :: t in q && !Marked(q[t], node, marker) ==> r[t] == q[t]
  {
  }

  predicate Busy(q: Table, node: NodeId) { exists t :: t in q && q[t].node == node && Active(q[t]) }
}
