/**
The migration coordinator, step by step (runMigration in internal/api/admin_instances.go).

Every database write, Caddy load, sub-operation, health wait and lookup draws its outcome from the
stream replies, except the write that assigns the target, whose outcome is assign. After every write,
any number of events happen beside the coordinator. The field run records each state anyone could have
observed; the coordinator's methods keep it a lawful run. Tasks and the writes that matter are logged in
the world, each with the draw that decided it and its reply.
*/
module Migration {
  import opened Wrappers
  import opened Routes
  import opened Capacity
  import opened MigrationWorld

  /**
  How a migration ends. Aborted: before the source was paused; leaked says that a reservation on the
  target took effect but reported an error. RolledBack: after that, with whether the target was cleaned
  up, the reply to the release of its reservation, and what became of the source and its routes.
  HeldForOperator: both workloads are kept; quiet says that nothing is forwarded.
  */
  datatype Outcome =
    | Aborted(routesBack: bool, leaked: bool)
    | RolledBack(cleaned: bool, released: Option<Reply>, recovered: bool, routesBack: bool)
    | HeldForOperator(quiet: bool)
    | FailedAfterCutover
    | Finished

  /** The write was sent and took effect. */
  predicate Took(r: Option<Reply>) { r.Some? && r.value.Applied() }

  /** What each ending guarantees. The history it refers to is what the log says. */
  predicate Settled(p: Plan, w: World, saved: map<Host, Route>, o: Outcome) {
    match o
    case Aborted(routesBack, leaked) =>
      && Undisturbed(p, w) && (p.target in w.books.holders <==> leaked) && (leaked <==> w.work.reserve == Some(Lost))
      && (routesBack ==> Serves(p, w.view, saved))
    case RolledBack(cleaned, released, recovered, routesBack) =>
      && p.source in w.books.holders && !w.work.sourceRemovalTried
      && w.life.assignee == (if AssignmentLost(w.work) then p.target else p.source)
      && (cleaned <==> (w.work.provisionTried ==> w.work.targetRemoved)) && released == w.work.targetRelease
      && (p.target in w.books.holders <==> !Took(released)) && (released.Some? ==> cleaned)
      && (if recovered then SourceServing(p, w.life) && w.life.assignee == p.source else Quiet(w.view))
      && (routesBack ==> recovered && Serves(p, w.view, saved))
    case HeldForOperator(quiet) =>
      && !w.work.sourceRemovalTried && !w.work.targetRemovalTried && w.books.holders == {p.source, p.target}
      && (quiet ==> Quiet(w.view))
    case FailedAfterCutover =>
      && TargetServing(p, w.life) && AllRestored(p, w.work) && !w.work.targetRemovalTried && p.target in w.books.holders
      && (p.source !in w.books.holders ==> w.work.sourceRemoved)
    case Finished =>
      && TargetServing(p, w.life) && AllRestored(p, w.work) && !w.work.targetRemovalTried
      && w.work.sourceRemoved && w.books.holders == {p.target} && !w.restartRequired
  }

  /**
  Exactly when a rolled-back migration leaves the instance on a node that holds nothing for it: the
  write that assigns the target took effect but reported an error, and the release of the target's
  reservation took effect. Both are replies in the log.
  */
  lemma UncoveredIffAssignmentLost(p: Plan, w: World, saved: map<Host, Route>, o: Outcome)
    requires Safe(p, w) && o.RolledBack? && Settled(p, w, saved, o)
    ensures w.life.assignee !in w.books.holders <==>
            LostAssignment(p, w.log) && Took(LastReply(w.log, ReleaseWrite, p.target))
    ensures w.life.assignee !in w.books.holders ==>
              && w.life.assignee in w.books.nodes && w.life.assignee in w.books.others
              && w.books.nodes[w.life.assignee].committed == w.books.others[w.life.assignee]
  {
    hide Replay, LastReply, Serves, Quiet, SourceServing, TrafficSafe, DataSafe, ReachSafe;
    WritesMean(p, w.log);
    if w.life.assignee !in w.books.holders { NothingHeld(p, w, w.life.assignee); }
  }

  /**
  Exactly when an aborted migration leaves a reservation behind: the write that reserves it took effect
  but reported an error. Otherwise only the source is charged.
  */
  lemma LeakedIffReservationLost(p: Plan, w: World, saved: map<Host, Route>, o: Outcome)
    requires Safe(p, w) && o.Aborted? && Settled(p, w, saved, o)
    ensures o.leaked <==> LastReply(w.log, ReserveWrite, p.target) == Some(Lost)
    ensures w.books.holders == if o.leaked then {p.source, p.target} else {p.source}
    ensures p.target in w.books.nodes && p.target in w.books.others
    ensures w.books.nodes[p.target].committed ==
            if o.leaked then w.books.others[p.target].Plus(p.tier) else w.books.others[p.target]
  {
    hide Replay, LastReply, Serves, Quiet, SourceServing, TrafficSafe, DataSafe, ReachSafe;
    WritesMean(p, w.log);
    assert Ledger(p, w.books, p.target);
  }

  /** The same over the replies that a run was given. */
  lemma EndingsFollowReplies(p: Plan, replies: nat -> Reply, assign: Reply, w: World, saved: map<Host, Route>,
      o: Outcome)
    requires Safe(p, w) && Honest(p, replies, assign, w.log) && Settled(p, w, saved, o)
    ensures o.RolledBack? ==>
              (w.life.assignee !in w.books.holders <==> assign.Lost? && w.work.assignment.Some? && Took(o.released))
    ensures o.Aborted? && o.leaked ==>
              exists i :: 0 <= i < |w.log| && Names(w.log[i], ReserveWrite, p.target) && replies(w.log[i].draw).Lost?
  {
    hide Safe, Honest, LastReply, Settled;
    SafeWrites(p, w);
    AssignmentAnswered(p, replies, assign, w.log);
    if o.RolledBack? {
      UncoveredIffAssignmentLost(p, w, saved, o);
      SettledRelease(p, w, saved, o);
    }
    if o.Aborted? && o.leaked {
      LeakedIffReservationLost(p, w, saved, o);
      var i := WriteAnswered(p, replies, assign, w.log, ReserveWrite);
    }
  }

  lemma SafeWrites(p: Plan, w: World)
    requires Safe(p, w)
    ensures w.work.assignment == LastReply(w.log, AssignWrite, p.target)
    ensures w.work.targetRelease == LastReply(w.log, ReleaseWrite, p.target)
  {
    hide Sane, Replay, LastReply;
    WritesMean(p, w.log);
  }

  lemma SettledRelease(p: Plan, w: World, saved: map<Host, Route>, o: Outcome)
    requires o.RolledBack? && Settled(p, w, saved, o)
    ensures o.released == w.work.targetRelease
  {
  }

  class Coordinator {
    const p: Plan
    const caddyConfigured: bool
    const replies: nat -> Reply
    const assign: Reply
    const reported: map<string, int>
    ghost const start: World
    var w: World
    ghost var run: seq<World>
    ghost var hindered: bool  // the run has met a full target or a spoiled backup
    var drawn: nat

    var currentStep: Step
    var savedRoutes: map<Host, Route>
    var freshBackups: seq<BackupId>
    var hostPorts: map<string, int>
    var sourceStopped: bool
    var targetProvisionAttempted: bool
    var targetCapacityReserved: bool
    var cutoverComplete: bool

    /** The run so far is lawful, and the replies in its logs are those that were drawn. */
    ghost predicate Running()
      reads this`w, this`run, this`hindered
    {
      && LawfulRun(p, run) && run != [] && run[0] == start && run[|run| - 1] == w && Safe(p, w) && Sane(p, w)
      && HonestRun(p, replies, assign, run) && Honest(p, replies, assign, w.log) && (hindered ==> Hindered(p, run))
    }

    /** Besides, no task is under way. */
    ghost predicate Valid()
      reads this`w, this`run, this`hindered, this`drawn
    {
      Running() && Idle(w.log) && Later(w.log, drawn)
    }

    /** The replies drawn between two points were all fine. */
    ghost predicate Fine(from: nat, to: nat) { forall i :: from <= i < to ==> replies(i).Done? }

    /** The migration row was just created for a running instance that holds its tier on the source. */
    ghost predicate Initial()
      reads this
    {
      && Valid() && w.opRunning && w.opStep.Starting? && w.work == IDLE && w.traffic == UNSEEN && w.log == []
      && w.life.assignee == p.source && !w.life.paused && w.life.restartedAt.None?
      && w.books.holders == {p.source} && start.work == IDLE
      && freshBackups == [] && !sourceStopped && !targetProvisionAttempted && !targetCapacityReserved
      && !cutoverComplete
    }

    constructor (p: Plan, caddyConfigured: bool, replies: nat -> Reply, assign: Reply, reported: map<string, int>,
        w: World)
      requires Startable(p, w)
      ensures Initial() && this.p == p && this.caddyConfigured == caddyConfigured && this.w == w && start == w
      ensures this.replies == replies && this.assign == assign && this.reported == reported && drawn == 0
    {
      this.p, this.caddyConfigured, this.replies, this.assign, this.reported := p, caddyConfigured, replies, assign,
          reported;
      this.start, this.w, this.run, drawn, hindered := w, w, [w], 0, false;
      currentStep, savedRoutes, freshBackups, hostPorts := Starting, map[], [], map[];
      sourceStopped, targetProvisionAttempted, targetCapacityReserved, cutoverComplete := false, false, false, false;
      StartableSafe(p, w);
    }

    /** The outcome of the next thing that can fail. */
    method Draw() returns (r: Reply)
      modifies this`drawn
      ensures drawn == old(drawn) + 1 && r == replies(old(drawn))
    {
      r := replies(drawn);
      drawn := drawn + 1;
    }

    /** One event beside the coordinator, if the state allows it. */
    method Observe(e: Event, ghost base: World)
      requires Running() && Rely(base, w)
      modifies this`w, this`run
      ensures Running() && Rely(base, w) && w.log == old(w.log)
      ensures w == if Allowed(old(w), e) then After(p, old(w), e) else old(w)
    {
      hide Sane, LawfulRun, Rely, Honest, HonestRun, Hindered, Accounted, Allowed, After;
      if Allowed(w, e) {
        EventExtends(p, run, base, e);
        ghost var next := After(p, w, e);
        EventDeeds(p, w, e);
        HonestExtends(p, replies, assign, run, next);
        if hindered { HinderedLater(p, run, run + [next]); }
        LastSane(p, run + [next]);
        w := After(p, w, e);
        run := run + [w];
      }
    }

    /** Other parts of the control plane run: any number of events, in any order. */
    method Interfere()
      requires Running()
      modifies this`w, this`run
      ensures Running() && Rely(old(w), w) && w.log == old(w.log)
    {
      hide Running, Rely, Allowed, After;
      var n: nat := *;
      RelyReflexive(w);
      while n > 0
        invariant Running() && Rely(old(w), w) && w.log == old(w.log)
      {
        var e: Event := *;
        Observe(e, old(w));
        n := n - 1;
      }
    }

    /** One change that the coordinator makes, followed by interference. */
    method Commit(next: World)
      requires Running() && Sane(p, next) && Fair(p, w, next) && Accounted(p, next) && LogFollows(w, next)
      requires Honest(p, replies, assign, next.log)
      modifies this`w, this`run
      ensures Running() && Rely(next, w) && w.log == next.log
    {
      hide Sane, Fair, Rely, Accounted, LogFollows, LawfulRun, Honest, HonestRun;
      ExtendRun(p, run, next);
      HonestExtends(p, replies, assign, run, next);
      if hindered { HinderedLater(p, run, run + [next]); }
      w := next;
      run := run + [w];
      Interfere();
    }

    /** A change that is not one of the logged ones. */
    method CommitPlain(next: World)
      requires Valid() && Sane(p, next) && Fair(p, w, next) && next.log == w.log && DeedsOf(next) == DeedsOf(w)
      modifies this`w, this`run
      ensures Valid() && Rely(next, w) && w.log == old(w.log)
    {
      hide Sane, Fair, Rely, LawfulRun, Honest, HonestRun, Hindered, Accounted, LogFollows, DeedsOf;
      LogSame(p, w, next) by { SafeAccounted(p, w); }
      SafeAccounted(p, w);
      Commit(next);
    }

    /** A write of the coordinator together with its entry in the log. */
    method CommitWrite(ghost e: Entry, next: World)
      requires Running() && Idle(w.log) && Later(w.log, e.draw) && e.draw < drawn
      requires IsWrite(e.task) && e.reply.Some? && e.at == w.clock
      requires e.reply.value == if Names(e, AssignWrite, p.target) then assign else replies(e.draw)
      requires Sane(p, next) && Fair(p, w, next) && next.log == w.log + [e] && DeedsOf(next) == Effect(p, DeedsOf(w), e)
      modifies this`w, this`run
      ensures Valid() && Rely(next, w) && w.log == next.log
    {
      hide Sane, Fair, Rely, LawfulRun, Honest, HonestRun, Hindered, Accounted, LogFollows, DeedsOf, Effect, Names;
      SafeAccounted(p, w);
      LogAct(p, w, e, next);
      HonestAct(p, replies, assign, w.log, e);
      Commit(next);
    }

    /** Dispatches a task; its entry has no reply yet. */
    method Dispatch(t: Task, n: NodeId, sent: Option<Sent>) returns (ghost begun: Entry)
      requires Valid() && MayBegin(p, w, t, n, sent)
      modifies this`w, this`run, this`drawn
      ensures Running() && drawn == old(drawn) + 1 && begun == Entry(t, n, sent, old(w.clock), old(drawn), None)
      ensures Rely(Did(p, old(w), begun), w) && MayEnd(p, w) && w.log == old(w.log) + [begun] && old(w.clock) <= w.clock
    {
      hide Sane, Fair, Rely, LawfulRun, Honest, HonestRun, Hindered, Accounted, LogFollows, DeedsOf, Effect, Did;
      hide MayBegin, MayEnd;
      var entry := Entry(t, n, sent, w.clock, drawn, None);
      begun := entry;
      drawn := drawn + 1;
      SaneNodes(p, w);
      NoWriteBegins(p, w, t, n, sent);
      SafeAccounted(p, w);
      BeginSane(p, w, begun);
      DidDeeds(p, w, begun);
      LogAct(p, w, begun, Did(p, w, begun));
      HonestAct(p, replies, assign, w.log, begun);
      Commit(Did(p, w, entry));
      BegunMayEnd(p, old(w), begun, w);
      RelyClock(Did(p, old(w), begun), w, old(w.clock)) by { DidClock(p, old(w), begun); }
    }

    /** Waits for the task under way; its reply is the one that was drawn for it. */
    method Await() returns (r: Reply)
      requires Running() && MayEnd(p, w) && Later(w.log, drawn)
      modifies this`w, this`run
      ensures Valid() && old(w.log) != [] && r == replies(old(w.log)[|old(w.log)| - 1].draw)
      ensures Rely(Over(p, old(w), r), w)
      ensures var n := |old(w.log)| - 1;
              w.log == old(w.log)[..n] + [old(w.log)[n].(at := old(w.clock), reply := Some(r))]
    {
      hide Sane, Fair, Rely, LawfulRun, Honest, HonestRun, Hindered, Accounted, LogFollows, DeedsOf, Ended, Over;
      hide MayEnd;
      NotIdle(p, w);
      r := replies(w.log[|w.log| - 1].draw);
      SafeAccounted(p, w);
      EndSane(p, w, r);
      OverDeeds(p, w, r);
      LogEnd(p, w, r, Over(p, w, r));
      HonestEnd(p, replies, assign, w.log, w.clock);
      Commit(Over(p, w, r));
    }

    /**
    subOp: dispatches a task, waits, and returns its reply. The entry is logged when the task is
    dispatched, and its reply, which is the next draw, when the wait is over.
    */
    method SubOp(t: Task, n: NodeId, sent: Option<Sent>) returns (r: Reply, ghost e: Entry)
      requires Valid() && MayBegin(p, w, t, n, sent)
      modifies this`w, this`run, this`drawn
      ensures Valid() && drawn == old(drawn) + 1 && r == replies(old(drawn))
      ensures e.task == t && e.node == n && e.sent == sent && e.draw == old(drawn) && e.reply == Some(r)
      ensures e.at >= old(w.clock)
      ensures Rely(TaskDone(p, old(w), e, r), w) && w.log == old(w.log) + [e]
    {
      hide Running, Rely, Did, Over, TaskDone, MayBegin, MayEnd;
      DistinctHere();
      ghost var begun := Dispatch(t, n, sent);
      ghost var waited := w;
      assert w.log[..|old(w.log)|] == old(w.log) && w.log[|old(w.log)|] == begun;
      r := Await();
      e := begun.(at := waited.clock, reply := Some(r));
      DoneRelied(p, old(w), begun, waited, r, w);
      DidTask(p, old(w), e, r);
    }

    lemma DistinctHere()
      requires Running()
      ensures p.source != p.target
    {
      hide Safe, LawfulRun, Honest, HonestRun, Hindered;
      SaneNodes(p, w);
    }

    /** Stores the migration step; the reply says whether the row changed. */
    method RecordStep(step: Step) returns (r: Reply)
      requires Valid() && (w.traffic.promised.Some? && w.opRunning ==> CarriesTraffic(step))
      modifies this`w, this`run, this`drawn
      ensures Valid() && old(drawn) <= drawn && Rely(old(w).(opStep := w.opStep), w) && Drift(old(w), w)
      ensures Quiet(old(w.view)) ==> Kept(old(w), w)
      ensures w.opStep == if r.Applied() then step else old(w.opStep)
      ensures drawn == old(drawn) + 1 && r == replies(old(drawn))
    {
      hide Safe, Sane, Fair, Honest, HonestRun, Hindered, Rely, Drift, LawfulRun, Quiet, Kept, CarriesTraffic;
      r := Draw();
      StepSafe(p, w, step);
      StepSafe(p, w, w.opStep) by { StepStays(p, w); }
      ghost var next := w.(opStep := if r.Applied() then step else w.opStep);
      CommitPlain(w.(opStep := if r.Applied() then step else w.opStep));
      StepDrifts(old(w), next.opStep, w);
      if Quiet(old(w.view)) { QuietStep(old(w), next.opStep, w); }
    }

    /** setStep: the stored step may lag behind, since a failed write is ignored. */
    method SetStep(step: Step)
      requires Valid() && (w.traffic.promised.Some? && w.opRunning ==> CarriesTraffic(step))
      modifies this`w, this`run, this`drawn, this`currentStep
      ensures Valid() && old(drawn) <= drawn && Rely(old(w).(opStep := w.opStep), w) && Drift(old(w), w)
      ensures Quiet(old(w.view)) ==> Kept(old(w), w)
      ensures (w.opStep == step || w.opStep == old(w.opStep)) && currentStep == step
      ensures drawn == old(drawn) + 1
    {
      hide Safe, Sane, Fair, Honest, HonestRun, Hindered, Rely, Drift, LawfulRun, Quiet, Kept;
      currentStep := step;
      var r := RecordStep(step);
    }

    /** fail: settles the operation as failed, if the write goes through. */
    method Fail()
      requires Valid()
      modifies this`w, this`run, this`drawn
      ensures Valid() && old(drawn) <= drawn && Rely(old(w).(opRunning := w.opRunning), w)
      ensures w.opRunning ==> old(w.opRunning)
      ensures drawn == old(drawn) + 1 && (replies(old(drawn)).Done? ==> !w.opRunning)
    {
      hide Safe, Sane, Fair, Honest, HonestRun, Hindered, LawfulRun;
      var r := Draw();
      ColumnSafe(p, w, w.tech, w.restartRequired, w.opRunning && r.Refused?);
      CommitPlain(w.(opRunning := w.opRunning && r.Refused?));
    }

    method SetTech(status: TechStatus) returns (r: Reply)
      requires Valid()
      modifies this`w, this`run, this`drawn
      ensures Valid() && old(drawn) <= drawn && Rely(old(w).(tech := if r.Applied() then status else old(w.tech)), w)
      ensures Quiet(old(w.view)) ==> Kept(old(w).(tech := w.tech), w)
      ensures drawn == old(drawn) + 1 && r == replies(old(drawn))
    {
      hide Safe, Sane, Fair, Honest, HonestRun, Hindered, Rely, LawfulRun, Quiet, Kept;
      r := Draw();
      ColumnSafe(p, w, if r.Applied() then status else w.tech, w.restartRequired, w.opRunning);
      CommitPlain(w.(tech := if r.Applied() then status else w.tech));
      if Quiet(old(w.view)) { QuietTech(old(w), if r.Applied() then status else old(w.tech), w); }
    }

    /** failForIntervention: what is in maintenance stays there. */
    method FailForIntervention()
      requires Valid()
      modifies this`w, this`run, this`drawn
      ensures Valid() && old(drawn) <= drawn && Drift(old(w).(opRunning := w.opRunning, tech := w.tech), w)
      ensures Quiet(old(w.view)) ==> Quiet(w.view)
      ensures Fine(old(drawn), drawn) ==> !w.opRunning
    {
      hide Safe, Sane, Fair, Honest, HonestRun, Hindered, LawfulRun;
      var r := SetTech(StatusFailed);
      Fail();
    }

    /**
    UpdateRoutesAndSync under the manager's mutex: the row writes stop anywhere, or all succeed and
    Caddy is loaded, refused, or loaded without the coordinator learning of it.
    */
    method UpdateRoutesAndSync(updates: map<Host, Route>) returns (ok: bool)
      requires Valid() && Writable(p, w, updates) && w.traffic.promised.None?
      modifies this`w, this`run, this`drawn
      ensures Valid() && old(drawn) <= drawn && Drift(old(w), w) && w.opStep == old(w.opStep)
      ensures ok && updates.Keys == old(w.view.rows).Keys ==>
                Rely(Shown(p, old(w), View(updates, InstanceConfig(updates, HoldsBack(old(w))))), w)
      ensures Fine(old(drawn), drawn) ==> ok
    {
      hide Safe, Sane, Fair, Honest, HonestRun, Hindered, Writable, Rely, Drift, Shown, InstanceConfig, LawfulRun;
      var written, load := replies(drawn), replies(drawn + 1);
      drawn := drawn + 2;
      var done: set<Host> := *;
      done := if written.Done? then w.view.rows.Keys else done;
      var loaded := written.Done? && load.Applied();
      var rows := Written(w.view.rows, updates, done);
      WriteSafe(p, w, updates, done, loaded);
      assert written.Done? && updates.Keys == w.view.rows.Keys ==> rows == updates;
      var v := View(rows, if loaded then InstanceConfig(rows, HoldsBack(w)) else w.view.caddy);
      ghost var before := w;
      ShownDeeds(p, w, v);
      CommitPlain(Shown(p, w, v));
      ShownDrifts(p, before, v, w);
      ok := written.Done? && load.Done?;
    }

    /** What the coordinator read as the instance's original routes leads nowhere but to the source. */
    ghost predicate RoutesSaved()
      reads this`savedRoutes, this`w
    {
      Saved(w)
    }

    ghost predicate Saved(a: World)
      reads this`savedRoutes
    {
      && savedRoutes.Keys == a.view.rows.Keys
      && forall h :: h in savedRoutes && !savedRoutes[h].status.Disabled? ==> savedRoutes[h].node == p.source
    }

    /** restoreOriginalRoutes: only while the source is known to be serving. */
    method RestoreOriginalRoutes() returns (ok: bool)
      requires Valid() && RoutesSaved() && SourceServing(p, w.life) && w.traffic.promised.None?
      requires !w.work.sourceRemovalTried && p.source != p.target
      modifies this`w, this`run, this`drawn, this`currentStep
      ensures Valid() && old(drawn) <= drawn && Drift(old(w), w)
      ensures ok ==> Serves(p, w.view, savedRoutes) && w.opStep.RollbackRoutes?
      ensures Fine(old(drawn), drawn) ==> ok
    {
      hide Safe, Sane, Fair, Honest, HonestRun, Hindered, Rely, Drift, InstanceConfig, SourceServing, Writable, Shown;
      hide LawfulRun, Serves;
      currentStep := RollbackRoutes;
      var r := RecordStep(RollbackRoutes);
      ghost var recorded := w;
      if !r.Done? { return false; }
      if savedRoutes == map[] {
        NothingToServe(p, w.view);
        return true;
      }
      DriftKeys(old(w), w);
      ServingHolds(p, old(w), w);
      SourceWritable(p, w, savedRoutes);
      ok := UpdateRoutesAndSync(savedRoutes);
      DriftTransitive(old(w), recorded, w);
      if ok { LoadedServes(p, recorded, savedRoutes, w); }
    }

    /** enableMaintenance: afterwards every row is disabled and Caddy forwards nothing. */
    method EnableMaintenance() returns (ok: bool)
      requires Valid() && RoutesSaved() && w.traffic.promised.None?
      modifies this`w, this`run, this`drawn, this`currentStep
      ensures Valid() && old(drawn) <= drawn && Drift(old(w), w)
      ensures ok && savedRoutes != map[] ==> Quiet(w.view)
      ensures Fine(old(drawn), drawn) ==> ok
    {
      hide Safe, Sane, Fair, Honest, HonestRun, Hindered, Rely, Drift, InstanceConfig, Shown, Writable, LawfulRun;
      hide Quiet;
      currentStep := Maintenance;
      var r := RecordStep(Maintenance);
      ghost var recorded := w;
      DriftKeys(old(w), w);
      if !r.Done? { return false; }
      var found := Draw();
      if !found.Done? { return false; }
      var routes := map h | h in savedRoutes :: w.view.rows[h].(status := Disabled);
      assert routes.Keys == savedRoutes.Keys;
      if routes == map[] { return true; }
      DisabledWritable(p, w, routes);
      ok := UpdateRoutesAndSync(routes);
      DriftTransitive(old(w), recorded, w);
      if ok { MaintenanceQuiet(p, recorded, routes, w); }
    }

    /**
    abortBeforeStop: the routes go back to the source, which was never paused; a done restore leaves them in
    force.
    */
    method AbortBeforeStop() returns (back: bool)
      requires Valid() && Undisturbed(p, w) && RoutesSaved()
      modifies this`w, this`run, this`drawn, this`currentStep
      ensures Valid() && old(drawn) <= drawn && Undisturbed(p, w) && w.books.holders == old(w.books.holders)
      ensures w.work == old(w.work)
      ensures back ==> Serves(p, w.view, savedRoutes)
      ensures Fine(old(drawn), drawn) ==> back && !w.opRunning
    {
      hide Safe, Sane, Fair, Honest, HonestRun, Hindered, Rely, Drift, LawfulRun, Serves;
      DistinctNodes(p, w);
      back := RestoreOriginalRoutes();
      UndisturbedHolds(p, old(w), old(w).opRunning, w);
      DriftFacts(old(w), w);
      ghost var mid := w;
      Fail();
      ghost var settled := mid.(opRunning := w.opRunning);
      RelyDrifts(settled, w);
      UndisturbedHolds(p, mid, w.opRunning, w);
      DriftFacts(settled, w);
      if back { ServesHolds(p, settled, w, savedRoutes); }
    }

    /** Aborts and says how that ended. */
    method Abort() returns (o: Outcome)
      requires Valid() && Undisturbed(p, w) && RoutesSaved() && p.target !in w.books.holders && w.work.reserve.None?
      modifies this`w, this`run, this`drawn, this`currentStep
      ensures Valid() && old(drawn) <= drawn && o.Aborted? && Settled(p, w, savedRoutes, o)
      ensures Fine(old(drawn), drawn) ==> o.routesBack && !w.opRunning
    {
      hide Safe, Sane, Fair, Honest, HonestRun, Hindered, Rely, Drift, LawfulRun, Serves, Undisturbed;
      var back := AbortBeforeStop();
      return Aborted(back, false);
    }

    /** Fails the operation before any route was touched. */
    method FailUndisturbed() returns (o: Outcome)
      requires Valid() && Undisturbed(p, w) && p.target !in w.books.holders && w.work.reserve.None?
      modifies this`w, this`run, this`drawn
      ensures Valid() && old(drawn) <= drawn && o.Aborted? && Settled(p, w, savedRoutes, o)
      ensures Fine(old(drawn), drawn) ==> !w.opRunning
    {
      hide Safe, Sane, Fair, Honest, HonestRun, Hindered, Rely, Drift, LawfulRun;
      Fail();
      RelyDrifts(old(w).(opRunning := w.opRunning), w);
      UndisturbedHolds(p, old(w), w.opRunning, w);
      DriftFacts(old(w).(opRunning := w.opRunning), w);
      return Aborted(false, false);
    }

    /** What the caller and the definition must provide for a migration to go through. */
    ghost predicate Favourable()
      reads this`savedRoutes
    {
      && (caddyConfigured || savedRoutes == map[]) && p.tier.Positive()
      && (forall s :: s in p.services ==> s.backup == "none" || BackedUp(s))
      && (forall h :: h in savedRoutes ==> savedRoutes[h].service in reported && reported[savedRoutes[h].service] > 0)
    }

    /** Saves the routes and puts the instance into maintenance. */
    method Prepare() returns (failed: Option<Outcome>)
      requires Initial()
      modifies this`w, this`run, this`drawn, this`currentStep, this`savedRoutes
      ensures Valid() && old(drawn) <= drawn
      ensures failed.Some? ==> failed.value.Aborted? && Settled(p, w, savedRoutes, failed.value)
      ensures failed.None? ==> At(p, w, false, IDLE, {p.source}) && Quiet(w.view) && RoutesSaved()
      ensures Fine(old(drawn), drawn) && Favourable() ==> failed.None?
    {
      hide Safe, Sane, Fair, Honest, HonestRun, Hindered, Rely, Drift, LawfulRun, Quiet, Serves;
      DistinctNodes(p, w);
      SetStep(SavingRoutes);
      StageHolds(p, old(w), w, false, IDLE, {p.source});
      var loaded := Draw();
      if !loaded.Done? {
        var o := FailUndisturbed();
        return Some(o);
      }
      savedRoutes := w.view.rows;
      RowsLeadToSource(p, w);
      if savedRoutes != map[] && !caddyConfigured {
        var o := FailUndisturbed();
        return Some(o);
      }
      ghost var before := w;
      var r := RecordStep(currentStep);
      StageHolds(p, before, w, false, IDLE, {p.source});
      DriftKeys(before, w);
      if !r.Done? {
        var o := FailUndisturbed();
        return Some(o);
      }
      if savedRoutes == map[] {
        RowsLeadToSource(p, w);
        return None;
      }
      failed := BeginMaintenance();
    }

    method BeginMaintenance() returns (failed: Option<Outcome>)
      requires Valid() && RoutesSaved() && At(p, w, false, IDLE, {p.source}) && savedRoutes != map[]
      requires p.source != p.target
      modifies this`w, this`run, this`drawn, this`currentStep
      ensures Valid() && old(drawn) <= drawn
      ensures failed.Some? ==> failed.value.Aborted? && Settled(p, w, savedRoutes, failed.value)
      ensures failed.None? ==> At(p, w, false, IDLE, {p.source}) && Quiet(w.view) && RoutesSaved()
      ensures Fine(old(drawn), drawn) ==> failed.None?
    {
      hide Safe, Sane, Fair, Honest, HonestRun, Hindered, Rely, Drift, LawfulRun, Quiet, Serves, Kept;
      SetStep(Maintenance);
      StageHolds(p, old(w), w, false, IDLE, {p.source});
      DriftKeys(old(w), w);
      ghost var before := w;
      var ok := EnableMaintenance();
      StageHolds(p, before, w, false, IDLE, {p.source});
      DriftKeys(before, w);
      if ok { return None; }
      var o := Abort();
      return Some(o);
    }

    /** The stage before the source is paused, with backups of some services taken in this run. */
    ghost predicate Ready(taken: seq<Service>)
      reads this`w, this`run, this`hindered, this`drawn, this`savedRoutes, this`freshBackups
    {
      Valid() && ReadyStage(taken)
    }

    ghost predicate ReadyStage(taken: seq<Service>)
      reads this`w, this`savedRoutes, this`freshBackups
    {
      && At(p, w, false, w.work, {p.source}) && w.work == Prepared(w.work) && w.work.reserve.None?
      && Quiet(w.view) && RoutesSaved()
      && BackupsTaken(p, w.backups, freshBackups, taken) && forall id :: id in freshBackups ==> id in w.work.backedUp
    }

    lemma ReadyHolds(before: World, taken: seq<Service>)
      requires At(p, before, false, before.work, {p.source}) && before.work == Prepared(before.work)
      requires before.work.reserve.None?
      requires Valid() && Kept(before, w) && savedRoutes.Keys == before.view.rows.Keys
      requires forall h :: h in savedRoutes && !savedRoutes[h].status.Disabled? ==> savedRoutes[h].node == p.source
      requires BackupsTaken(p, before.backups, freshBackups, taken)
      requires forall id :: id in freshBackups ==> id in before.work.backedUp
      ensures Ready(taken) && w.work == before.work && BackupsFollow(before.backups, w.backups)
    {
      hide Running, BackupsTaken, Quiet, Drift;
      KeptFacts(before, w);
      KeptDrifts(before, w);
      TakenHolds(p, before, w, freshBackups, taken);
    }

    /** A stage that can still be abandoned without having touched the source. */
    lemma ReadyUndisturbed(taken: seq<Service>)
      requires Ready(taken)
      ensures Valid() && RoutesSaved() && Undisturbed(p, w) && p.target !in w.books.holders && p.source != p.target
      ensures w.work.reserve.None?
    {
      hide Safe, Sane, Honest, HonestRun, LawfulRun;
      DistinctNodes(p, w);
    }

    /** setStep while backups are taken. */
    method EnterStep(step: Step, ghost taken: seq<Service>)
      requires Ready(taken)
      modifies this`w, this`run, this`drawn, this`currentStep
      ensures Ready(taken) && w.work == old(w.work) && BackupsFollow(old(w.backups), w.backups)
      ensures drawn == old(drawn) + 1
    {
      hide Safe, Sane, Fair, Honest, HonestRun, Hindered, Rely, Drift, LawfulRun, Quiet, BackupsTaken, Kept;
      SetStep(step);
      ReadyHolds(old(w), taken);
    }

    /** One of the coordinator's own backups turned out unusable. */
    method NoteSpoiled(id: BackupId, ghost taken: seq<Service>)
      requires Ready(taken) && id in w.work.made && id in w.backups && !w.backups[id].status.BackupPending?
      requires !Sound(w.backups[id])
      modifies this`hindered
      ensures Ready(taken) && hindered
    {
      hide Safe, Sane, Honest, HonestRun, LawfulRun, Quiet, BackupsTaken, Sound;
      HinderedNow(p, run);
      hindered := true;
    }

    /** A sound record becomes the backup of its service, and its identity is saved. */
    method KeepBackup(s: Service, id: BackupId, ghost taken: seq<Service>) returns (ok: bool)
      requires Ready(taken) && BackedUp(s) && id in w.work.backedUp && id in w.backups && id !in freshBackups
      requires MadeFor(p, w.backups[id], s) && Sound(w.backups[id])
      modifies this`w, this`run, this`drawn, this`freshBackups
      ensures Ready(taken + [s]) && freshBackups == old(freshBackups) + [id]
      ensures drawn == old(drawn) + 1 && ok == replies(old(drawn)).Done?
    {
      hide Safe, Sane, Fair, Honest, HonestRun, Hindered, Rely, Drift, LawfulRun, Quiet, BackupsTaken, Sound, Kept;
      SoundUsable(p, w.backups, id, s);
      TakenExtends(p, w.backups, freshBackups, taken, s, id);
      freshBackups := freshBackups + [id];
      var r := RecordStep(currentStep);
      ReadyHolds(old(w), taken + [s]);
      ok := r.Done?;
    }

    /** Creates the record of a backup; it is one of the coordinator's own once the write took effect. */
    method CreateRecord(s: Service, ghost taken: seq<Service>) returns (id: BackupId, r: Reply)
      requires Ready(taken)
      modifies this`w, this`run, this`drawn
      ensures Ready(taken) && drawn == old(drawn) + 1 && r == replies(old(drawn)) && id !in freshBackups
      ensures id !in old(w.backups)
      ensures r.Applied() ==> id in w.work.made && id in w.backups && MadeFor(p, w.backups[id], s)
      ensures BackupsFollow(old(w.backups), w.backups)
    {
      hide Safe, Sane, Fair, Rely, Drift, LawfulRun, Honest, HonestRun, Hindered, Quiet, BackupsTaken, Kept, DeedsOf;
      hide Effect, WithRecord;
      id := *;
      if id in w.backups { id := NewRecordId(w.backups.Keys); }
      FreshId(p, w.backups, freshBackups, taken, id);
      var backend: string, key: string := *, *;
      var record := Backup(s.name, s.backup, p.source, BackupPending, backend, key, "");
      var e := Entry(RecordWrite, p.source, Some(Sent(id, record)), w.clock, drawn, Some(replies(drawn)));
      r := Draw();
      RecordSane(p, w, e);
      WithRecordIs(p, w, e);
      RecordedTaken(p, w.backups, freshBackups, taken, id, record);
      ghost var next := WithRecord(p, w, e);
      CommitWrite(e, WithRecord(p, w, e));
      QuietRelied(next, w);
      ReadyHolds(next, taken);
      RecordAdded(old(w).backups, next.backups, w.backups, id, record, r);
    }

    /** Dispatches the backup and waits for its operation. */
    method OrderBackup(id: BackupId, ghost taken: seq<Service>) returns (r: Reply)
      requires Ready(taken) && id in w.work.made && id in w.backups
      modifies this`w, this`run, this`drawn
      ensures Ready(taken) && drawn == old(drawn) + 1 && r == replies(old(drawn))
      ensures id in w.work.made && id in w.work.dispatched && (r.Done? ==> id in w.work.backedUp)
      ensures BackupsFollow(old(w.backups), w.backups)
    {
      hide Safe, Sane, Fair, Rely, Drift, LawfulRun, Honest, HonestRun, Hindered, Quiet, BackupsTaken, Kept;
      ghost var e;
      r, e := SubOp(BackUpTask, p.source, Some(Sent(id, w.backups[id])));
      ghost var next := TaskDone(p, old(w), e, r);
      QuietRelied(next, w);
      ReadyHolds(next, taken);
    }

    /** Waits; if the worker's report arrives in time, the record is settled. */
    method AwaitRecord(id: BackupId, ghost taken: seq<Service>) returns (r: Reply)
      requires Ready(taken) && id in w.work.made && id in w.work.dispatched && id in w.backups
      modifies this`w, this`run, this`drawn
      ensures Ready(taken) && BackupsFollow(old(w.backups), w.backups) && w.work == old(w.work)
      ensures drawn == old(drawn) + 1 && r == replies(old(drawn)) && (r.Done? ==> !w.backups[id].status.BackupPending?)
    {
      hide Safe, Sane, Drift, LawfulRun, Honest, HonestRun, Hindered, Quiet, BackupsTaken, Kept, Sound, Rely;
      Interfere();
      QuietRelied(old(w), w);
      ReadyHolds(old(w), taken);
      r := Draw();
      if r.Done? && w.backups[id].status.BackupPending? {
        FinishedSound(w.backups[id]);
        RelyReflexive(w);
        ghost var before := w;
        Observe(BackupWrite(id, FinishedBackup(w.backups[id])), w);
        QuietRelied(before, w);
        ReadyHolds(before, taken);
        BackupsFollowTransitive(old(w.backups), before.backups, w.backups);
      }
    }

    /**
    subOp for a backup of one service on the source: an operation, a fresh record, a dispatched task, and
    the checks on the finished record. Success adds exactly that backup, which no earlier state knew.
    */
    method BackUp(s: Service, ghost taken: seq<Service>) returns (ok: bool)
      requires Ready(taken) && BackedUp(s)
      modifies this`w, this`run, this`hindered, this`drawn, this`freshBackups, this`currentStep
      ensures old(drawn) <= drawn && (ok ==> Ready(taken + [s]))
      ensures ok ==> |freshBackups| == |old(freshBackups)| + 1 && old(freshBackups) <= freshBackups
                     && freshBackups[|old(freshBackups)|] !in old(w.backups)
      ensures !ok ==>
                Valid() && Undisturbed(p, w) && RoutesSaved() && p.target !in w.books.holders && w.work.reserve.None?
      ensures Fine(old(drawn), drawn) && !hindered ==> ok
    {
      hide ReadyStage, Running, RoutesSaved, Undisturbed, Sound;
      EnterStep(BackingUp(s.name), taken);
      ReadyUndisturbed(taken);
      var created := Draw();
      if !created.Done? { return false; }
      var id, recorded := CreateRecord(s, taken);
      ReadyUndisturbed(taken);
      if !recorded.Done? { return false; }
      ghost var record := w.backups[id];
      var finished := OrderBackup(id, taken);
      ReadyUndisturbed(taken);
      if !finished.Done? { return false; }
      var arrived := AwaitRecord(id, taken);
      ReadyUndisturbed(taken);
      assert MadeFor(p, record, s) && MadeFor(p, w.backups[id], s);
      if !Sound(w.backups[id]) {
        if arrived.Done? { NoteSpoiled(id, taken); }
        ReadyUndisturbed(taken);
        return false;
      }
      ok := KeepBackup(s, id, taken);
      ReadyUndisturbed(taken + [s]);
    }

    /** The backup phase: one backup per declaring service, in order; a foreign backup type aborts. */
    method BackUpServices() returns (failed: Option<Outcome>)
      requires Ready([]) && freshBackups == []
      modifies this`w, this`run, this`hindered, this`drawn, this`freshBackups, this`currentStep
      ensures old(drawn) <= drawn && (failed.None? ==> Ready(p.services))
      ensures failed.Some? ==> Valid() && failed.value.Aborted? && Settled(p, w, savedRoutes, failed.value)
      ensures Fine(old(drawn), drawn) && Favourable() && !hindered ==> failed.None?
    {
      hide Safe, Sane, Fair, Honest, HonestRun, DeedsOf, Rely, Drift, LawfulRun, Quiet, BackupsTaken, Undisturbed;
      hide Hindered, Settled;
      assert p.services[..0] == [];
      for i := 0 to |p.services|
        invariant Ready(p.services[..i]) && old(drawn) <= drawn
      {
        var s := p.services[i];
        assert s in p.services && p.services[..i] + [s] == p.services[..i + 1];
        if s.backup == "none" {
          SkipTaken(p, w.backups, freshBackups, p.services[..i], s);
          continue;
        }
        ReadyUndisturbed(p.services[..i]);
        if !BackedUp(s) {
          var o := Abort();
          return Some(o);
        }
        var done := BackUp(s, p.services[..i]);
        if !done {
          var o := Abort();
          return Some(o);
        }
      }
      assert p.services[..|p.services|] == p.services;
      return None;
    }

    /** The stage just before the source is paused: backups taken in this run, and both nodes hold the tier. */
    ghost predicate Poised()
      reads this`w, this`run, this`hindered, this`drawn, this`savedRoutes, this`freshBackups
    {
      Valid() && PoisedStage()
    }

    ghost predicate PoisedStage()
      reads this`w, this`savedRoutes, this`freshBackups
    {
      && RoutesSaved() && At(p, w, false, w.work, {p.source, p.target}) && w.work == Prepared(w.work) && Quiet(w.view)
      && BackupsTaken(p, w.backups, freshBackups, p.services)
      && forall id :: id in freshBackups ==> id in w.work.backedUp
    }

    /**
    ReserveNodeCapacity on the target. The reply is the one drawn, unless the target is full; the target
    holds the tier exactly when the write took effect, also when it reported an error.
    */
    method ReserveTarget() returns (r: Reply)
      requires Ready(p.services)
      modifies this`w, this`run, this`hindered, this`drawn
      ensures Valid() && old(drawn) <= drawn && RoutesSaved() && Undisturbed(p, w)
      ensures if drawn == old(drawn) then r.Refused? && Full(p, w) && w.work.reserve.None?
              else r == replies(old(drawn)) && w.work.reserve == Some(r)
      ensures p.target in w.books.holders <==> r.Applied()
      ensures r.Done? ==> Poised()
      ensures Fine(old(drawn), drawn) && !hindered ==> r.Done?
    {
      hide Safe, Sane, Fair, Rely, Drift, LawfulRun, Honest, HonestRun, Hindered, Quiet, BackupsTaken, Reserve;
      hide DeedsOf, Effect, Reserved, Kept;
      DataSafeNow(p, w);
      ReadyUndisturbed(p.services);
      var n := Reserve(w.books.nodes[p.target], p.tier);
      if n.None? {
        FullNow(p, w);
        HinderedNow(p, run);
        hindered := true;
        return Refused;
      }
      var e := Entry(ReserveWrite, p.target, None, w.clock, drawn, Some(replies(drawn)));
      r := Draw();
      ReserveSane(p, w, e, n.value);
      ReservedIs(p, w, e, n.value);
      ghost var next := Reserved(p, w, e, n.value);
      CommitWrite(e, Reserved(p, w, e, n.value));
      QuietRelied(next, w);
      KeptFacts(next, w);
      KeptDrifts(next, w);
      TakenHolds(p, next, w, freshBackups, p.services);
    }

    /** The stage after the source may have been paused and before the instance moves. */
    ghost predicate Underway(k: Work)
      reads this`w, this`run, this`hindered, this`drawn, this`savedRoutes, this`freshBackups, this`sourceStopped,
            this`targetCapacityReserved, this`targetProvisionAttempted
    {
      Valid() && UnderwayStage(k)
    }

    ghost predicate UnderwayStage(k: Work)
      reads this`w, this`savedRoutes, this`freshBackups, this`sourceStopped, this`targetCapacityReserved,
            this`targetProvisionAttempted
    {
      && w.opRunning && Quiet(w.view) && RoutesSaved() && BackupsTaken(p, w.backups, freshBackups, p.services)
      && (forall id :: id in freshBackups ==> id in k.backedUp)
      && w.life.assignee == p.source && w.life.paused && w.life.restartedAt.None?
      && w.work == k && w.traffic == UNSEEN && w.books.holders == {p.source, p.target}
      && sourceStopped && targetCapacityReserved && (k.provisionTried ==> targetProvisionAttempted)
      && Unmoved(k)
    }

    /** Nothing has been moved, removed or given back yet. */
    static predicate Unmoved(k: Work) {
      k.assignment.None? && !k.targetRemovalTried && !k.targetRemoved && !k.sourceRemovalTried && k.targetRelease.None?
    }

    lemma UnderwayHolds(a: World, k: Work)
      requires Valid() && Kept(a, w) && a.opRunning && savedRoutes.Keys == a.view.rows.Keys
      requires forall h :: h in savedRoutes && !savedRoutes[h].status.Disabled? ==> savedRoutes[h].node == p.source
      requires BackupsTaken(p, a.backups, freshBackups, p.services)
      requires forall id :: id in freshBackups ==> id in k.backedUp
      requires a.life.assignee == p.source && a.life.paused && a.life.restartedAt.None?
      requires a.work == k && a.traffic == UNSEEN && a.books.holders == {p.source, p.target}
      requires sourceStopped && targetCapacityReserved && (k.provisionTried ==> targetProvisionAttempted) && Unmoved(k)
      ensures Underway(k) && w.tech == a.tech
    {
      hide Running, BackupsTaken, Quiet;
      KeptFacts(a, w);
      KeptDrifts(a, w);
      TakenHolds(p, a, w, freshBackups, p.services);
    }

    /** Moves on to a named step. */
    method Proceed(step: Step, ghost k: Work)
      requires Underway(k)
      modifies this`w, this`run, this`drawn, this`currentStep
      ensures Underway(k) && old(drawn) <= drawn && w.tech == old(w.tech) && drawn == old(drawn) + 1
    {
      hide Safe, Sane, Fair, Honest, HonestRun, Hindered, Rely, Drift, LawfulRun, Quiet, Kept, BackupsTaken;
      SetStep(step);
      UnderwayHolds(old(w), k);
    }

    /** Has a task carried out on the target while nothing is forwarded. */
    method Perform(t: Task, sent: Option<Sent>, ghost k: Work) returns (r: Reply)
      requires Underway(k) && MayBegin(p, w, t, p.target, sent) && (t.ProvisionTask? || t.RestoreTask? || t.ResumeTask?)
      requires t.ProvisionTask? ==> targetProvisionAttempted
      modifies this`w, this`run, this`drawn
      ensures Underway(WorkDid(p, k, t, p.target, sent, r)) && w.tech == old(w.tech)
      ensures drawn == old(drawn) + 1 && r == replies(old(drawn))
    {
      hide Safe, Sane, Fair, Rely, Drift, LawfulRun, Honest, HonestRun, Hindered, Quiet, BackupsTaken, Kept, MayBegin;
      hide WorkDid;
      ghost var e;
      r, e := SubOp(t, p.target, sent);
      ghost var next := TaskDone(p, old(w), e, r);
      WorkDidAlike(p, k, t, p.target, sent, r);
      QuietRelied(next, w);
      UnderwayHolds(next, WorkDid(p, k, t, p.target, sent, r));
    }

    /** Pauses the source; a failed pause may still have stopped some of it. */
    method PauseSource() returns (ok: bool)
      requires Poised() && targetCapacityReserved
      modifies this`w, this`run, this`drawn, this`currentStep, this`sourceStopped
      ensures Underway(w.work) && old(drawn) <= drawn && w.work == old(w.work).(stopped := w.work.stopped)
      ensures ok ==> w.tech.StatusMigrating? && w.work.stopped
      ensures Fine(old(drawn), drawn) ==> ok
    {
      hide Safe, Sane, Fair, Rely, Drift, LawfulRun, Honest, HonestRun, Hindered, Quiet, Kept, BackupsTaken;
      SetStep(PausingSource);
      KeptFacts(old(w), w);
      TakenHolds(p, old(w), w, freshBackups, p.services) by { KeptDrifts(old(w), w); }
      sourceStopped := true;
      ghost var before := w;
      var r, e := SubOp(PauseTask, p.source, None);
      ghost var next := TaskDone(p, before, e, r);
      QuietRelied(next, w);
      UnderwayHolds(next, next.work);
      if !r.Done? { return false; }
      ok := NoteMigrating(next.work);
    }

    /** The instance is shown as migrating. */
    method NoteMigrating(ghost k: Work) returns (ok: bool)
      requires Underway(k)
      modifies this`w, this`run, this`drawn
      ensures Underway(k) && drawn == old(drawn) + 1 && ok == replies(old(drawn)).Done?
      ensures ok ==> w.tech.StatusMigrating?
    {
      hide Safe, Sane, Fair, Rely, Drift, LawfulRun, Honest, HonestRun, Hindered, Quiet, Kept, BackupsTaken;
      var r := SetTech(StatusMigrating);
      ghost var stored := old(w).(tech := if r.Applied() then StatusMigrating else old(w.tech));
      QuietRelied(stored, w);
      UnderwayHolds(stored, k);
      ok := r.Done?;
    }

    method ProvisionTarget() returns (ok: bool)
      requires Underway(w.work) && w.work.stopped
      modifies this`w, this`run, this`drawn, this`currentStep, this`targetProvisionAttempted
      ensures Underway(w.work) && w.work == old(w.work).(provisionTried := true, provisioned := w.work.provisioned)
      ensures old(drawn) <= drawn && w.tech == old(w.tech) && targetProvisionAttempted && (ok ==> w.work.provisioned)
      ensures Fine(old(drawn), drawn) ==> ok
    {
      hide Running, Quiet, BackupsTaken;
      Proceed(ProvisioningTarget, w.work);
      targetProvisionAttempted := true;
      var r := Perform(ProvisionTask, None, w.work);
      ok := r.Done?;
    }

    /** The backup of one declaring service. */
    lemma UnderwayTaken(k: Work, i: nat)
      requires Underway(k) && i < |freshBackups|
      ensures |freshBackups| == |Declared(p.services)| && freshBackups[i] in k.backedUp && freshBackups[i] in k.made
      ensures freshBackups[i] in w.backups && MadeFor(p, w.backups[freshBackups[i]], Declared(p.services)[i])
      ensures !w.backups[freshBackups[i]].status.BackupPending?
      ensures w.backups[freshBackups[i]].status.Succeeded? ==> Sound(w.backups[freshBackups[i]])
      ensures forall j :: 0 <= j < i ==> freshBackups[j] != freshBackups[i]
    {
      hide Safe, Sane, LawfulRun, Honest, HonestRun, Quiet, Sound, Declared, BackupsTaken, Hindered;
      TakenAt(p, w.backups, freshBackups, p.services, i);
      DataSafeNow(p, w);
    }

    /** The next backup can be sent, unless it is no longer there. */
    method CheckBackup(i: nat, ghost k: Work) returns (ok: bool)
      requires Underway(k) && i < |freshBackups| && k == w.work
      modifies this`hindered, this`drawn
      ensures Underway(k) && drawn == old(drawn) + 1
      ensures ok ==> freshBackups[i] in w.backups && Sound(w.backups[freshBackups[i]])
      ensures Fine(old(drawn), drawn) && !hindered ==> ok
    {
      hide Safe, Sane, Honest, HonestRun, LawfulRun, Quiet, BackupsTaken, Sound, Declared;
      var found := Draw();
      UnderwayTaken(k, i);
      if found.Done? && !w.backups[freshBackups[i]].status.Succeeded? {
        SpoiledNow(w, freshBackups[i]);
        HinderedNow(p, run);
        hindered := true;
        return false;
      }
      return found.Done?;
    }

    /** The next backup may be sent to the target. */
    predicate MaySend(k: Work, next: Sent) {
      && k.provisionTried && k.provisioned && !k.resumeTried && k.restored == k.restoreSent
      && |k.restored| < |Declared(p.services)|
      && next.id in k.backedUp && Sound(next.record) && MadeFor(p, next.record, Declared(p.services)[|k.restored|])
      && forall j :: 0 <= j < |k.restored| ==> k.restored[j].id != next.id
    }

    /** Sends one backup to the target and waits until it is restored. */
    method RestoreOne(next: Sent) returns (ok: bool)
      requires Underway(w.work) && MaySend(w.work, next)
      modifies this`w, this`run, this`drawn, this`currentStep
      ensures Underway(w.work) && w.work.provisionTried && w.work.provisioned && !w.work.resumeTried
      ensures w.tech == old(w.tech) && old(drawn) <= drawn
      ensures var sent := old(w.work).restored + [next];
              ok ==> w.work == old(w.work).(restoreSent := sent, restored := sent)
      ensures Fine(old(drawn), drawn) ==> ok
    {
      hide Running, Quiet, BackupsTaken, Sound, Declared, MadeFor;
      Proceed(Restoring(next.record.kind), w.work);
      var created := Draw();
      if !created.Done? { return false; }
      var r := Perform(RestoreTask, Some(next), w.work);
      ok := r.Done?;
    }

    /** Restores, on the target, exactly the backups taken in this run, each once and in order. */
    method RestoreBackups() returns (ok: bool)
      requires Underway(w.work) && w.work.provisionTried && w.work.provisioned && !w.work.resumeTried
      requires w.work.restored == w.work.restoreSent == []
      modifies this`w, this`run, this`hindered, this`drawn, this`currentStep
      ensures Underway(w.work) && !w.work.resumeTried && w.work.provisionTried && w.work.provisioned
      ensures old(drawn) <= drawn && w.tech == old(w.tech)
      ensures ok ==> AllRestored(p, w.work) && w.work.restored == w.work.restoreSent
      ensures ok ==>
                && |w.work.restored| == |freshBackups|
                && forall i :: 0 <= i < |freshBackups| ==> w.work.restored[i].id == freshBackups[i]
      ensures Fine(old(drawn), drawn) && !hindered ==> ok
    {
      hide Running, UnderwayStage, Sound, Declared, MadeFor;
      UnderwayLength(w.work);
      for i := 0 to |freshBackups|
        invariant Underway(w.work) && w.work.provisionTried && w.work.provisioned && !w.work.resumeTried
        invariant w.work.restored == w.work.restoreSent && |w.work.restored| == i
        invariant old(drawn) <= drawn && w.tech == old(w.tech)
        invariant forall j :: 0 <= j < i ==> w.work.restored[j].id == freshBackups[j]
      {
        UnderwayTaken(w.work, i);
        ok := CheckBackup(i, w.work);
        if !ok { return; }
        UnderwayTaken(w.work, i);
        ok := RestoreOne(Sent(freshBackups[i], w.backups[freshBackups[i]]));
        if !ok { return; }
      }
      return true;
    }

    lemma UnderwayLength(k: Work)
      requires Underway(k)
      ensures |freshBackups| == |Declared(p.services)|
    {
      hide Safe, Sane, Honest, HonestRun, LawfulRun, Quiet, Declared;
      TakenLength(p, w.backups, freshBackups, p.services);
    }

    /** Resumes the target and checks what it reported for every public service. */
    method ResumeTarget(ghost k: Work) returns (ok: bool)
      requires Underway(k) && AllRestored(p, k) && k.provisioned
      modifies this`w, this`run, this`drawn, this`currentStep, this`hostPorts
      ensures Underway(w.work) && w.work == k.(resumeTried := true, resumed := w.work.resumed)
      ensures old(drawn) <= drawn && w.tech == old(w.tech)
      ensures ok ==> PortsReported() && w.work.resumed
      ensures Fine(old(drawn), drawn) && Favourable() ==> ok
    {
      hide Running, UnderwayStage, AllRestored, MayBegin, WorkDid;
      Proceed(ResumingTarget, k);
      UnderwayResumes(k);
      var resumed := Perform(ResumeTask, None, k);
      UnderwayWork(WorkDid(p, k, ResumeTask, p.target, None, resumed));
      var loaded := Draw();
      if !resumed.Done? || !loaded.Done? { return false; }
      hostPorts := reported;
      ok := forall h :: h in savedRoutes ==>
          savedRoutes[h].service in hostPorts && hostPorts[savedRoutes[h].service] > 0;
    }

    lemma UnderwayResumes(k: Work)
      requires Underway(k) && AllRestored(p, k) && k.provisioned
      ensures MayBegin(p, w, ResumeTask, p.target, None)
      ensures forall r ::
                WorkDid(p, k, ResumeTask, p.target, None, r) == k.(resumeTried := true, resumed := k.resumed || r.Done?)
    {
      hide Running, Quiet, BackupsTaken, AllRestored;
    }

    /** The last check before the cutover: the instance row is still as the coordinator left it. */
    method ValidateTarget(ghost k: Work) returns (ok: bool)
      requires Underway(k)
      modifies this`w, this`run, this`drawn, this`currentStep
      ensures Underway(k) && old(drawn) <= drawn
      ensures Fine(old(drawn), drawn) && old(w.tech).StatusMigrating? ==> ok
    {
      hide Safe, Sane, Fair, Honest, HonestRun, Hindered, Rely, Drift, LawfulRun, Quiet, BackupsTaken;
      Proceed(ValidatingTarget, k);
      var loaded := Draw();
      ok := loaded.Done? && w.tech.StatusMigrating? && w.life.assignee == p.source;
    }

    /** A node that is assigned the instance, and whose workload is well, reports so. */
    method Deliver(node: NodeId, since: Time)
      requires Valid() && node in w.books.nodes && node in w.books.others && w.life.assignee == node && since <= w.clock
      modifies this`w, this`run
      ensures Valid() && Rely(old(w), w) && InstanceHealthy(w, node, since)
    {
      hide Safe, Sane, Honest, HonestRun, LawfulRun, Rely;
      RelyReflexive(w);
      Observe(Tick(1), old(w));
      Observe(Heartbeat(node, "boot"), old(w));
      Observe(NodePolicy(node, w.books.nodes[node].(status := "active", health := "healthy")), old(w));
      Observe(HealthReport(node, true, "boot"), old(w));
    }

    /** waitForNodeHealthy: polls until a fresh report shows, or gives up. */
    method WaitForNodeHealthy(node: NodeId) returns (ok: bool)
      requires Valid()
      modifies this`w, this`run, this`drawn
      ensures Valid() && old(drawn) <= drawn && Rely(old(w), w)
      ensures ok ==> w.life.assignee == node && HealthySince(w.life, node, old(w.clock))
      ensures Fine(old(drawn), drawn) && old(w.life.assignee) == node && node in {p.source, p.target} ==> ok
    {
      hide Safe, Sane, Fair, Honest, HonestRun, Hindered, Rely, Drift, LawfulRun, InstanceHealthy;
      var since := w.clock;
      var polls: nat := *;
      var r := Draw();
      RelyReflexive(w);
      ClockNow(p, w);
      while polls > 0
        invariant Valid() && Rely(old(w), w) && drawn == old(drawn) + 1
      {
        ghost var before := w;
        Interfere();
        RelyTransitive(old(w), before, w);
        if InstanceHealthy(w, node, since) {
          SameAssignment(old(w), w);
          GatePassed(p, w, node, since);
          return true;
        }
        polls := polls - 1;
      }
      SameAssignment(old(w), w);
      DataSafeNow(p, w);
      if r.Done? && w.life.assignee == node && node in w.books.nodes && node in w.books.others {
        ghost var before := w;
        ClockFollows(old(w), w);
        Deliver(node, since);
        RelyTransitive(old(w), before, w);
        SameAssignment(old(w), w);
        GatePassed(p, w, node, since);
        return true;
      }
      return false;
    }

    /** ReleaseNodeCommitment of the instance's tier on one node. */
    method ReleaseCapacity(node: NodeId) returns (r: Reply, ghost e: Entry)
      requires Valid() && MayRelease(p, w, node) && node in {p.source, p.target} && p.source != p.target
      modifies this`w, this`run, this`drawn
      ensures Valid() && drawn == old(drawn) + 1 && r == replies(old(drawn))
      ensures Names(e, ReleaseWrite, node) && e.reply == Some(r) && Rely(Released(p, old(w), e), w)
    {
      hide Safe, Sane, Fair, Rely, LawfulRun, Honest, HonestRun, Hindered, DeedsOf, Effect, Released, TargetServing;
      var entry := Entry(ReleaseWrite, node, None, w.clock, drawn, Some(replies(drawn)));
      e := entry;
      r := Draw();
      ReleaseSane(p, w, e);
      ReleasedIs(p, w, e);
      CommitWrite(e, Released(p, w, entry));
    }

    /** The stage of a rollback: nothing is forwarded, the target was never reached, the source is not gone. */
    ghost predicate Retreating()
      reads this`w, this`run, this`hindered, this`drawn, this`savedRoutes
    {
      Valid() && RetreatStage(w)
    }

    ghost predicate RetreatStage(a: World)
      reads this`savedRoutes
    {
      && a.opRunning && Quiet(a.view) && Saved(a) && p.source in a.books.holders
      && a.life.assignee == (if AssignmentLost(a.work) then p.target else p.source)
      && !a.work.sourceRemovalTried && a.traffic == UNSEEN
    }

    lemma RetreatHolds(a: World)
      requires Valid() && Kept(a, w) && RetreatStage(a)
      ensures Retreating() && w.work == a.work && w.books.holders == a.books.holders
      ensures w.life == a.life.(healthyAt := w.life.healthyAt)
    {
      hide Running, Quiet;
      KeptFacts(a, w);
    }

    /** Removes the target's workload, if one may exist; it is gone only when that was reported done. */
    method CleanUpTarget() returns (cleaned: bool)
      requires Retreating() && !w.work.targetRemovalTried && !w.work.targetRemoved
      requires (w.work.provisionTried <==> targetProvisionAttempted) && p.source != p.target
      modifies this`w, this`run, this`drawn, this`currentStep
      ensures Retreating() && old(drawn) <= drawn && w.books.holders == old(w.books.holders)
      ensures w.work == old(w.work).(targetRemovalTried := w.work.targetRemovalTried,
              targetRemoved := w.work.targetRemoved)
      ensures cleaned <==> (w.work.provisionTried ==> w.work.targetRemoved)
      ensures Fine(old(drawn), drawn) ==> cleaned
    {
      hide Safe, Sane, Fair, Rely, Drift, LawfulRun, Honest, HonestRun, Hindered, Quiet, Kept, TaskDone;
      if !targetProvisionAttempted { return true; }
      SetStep(RollbackTargetCleanup);
      RetreatHolds(old(w));
      ghost var before := w;
      var r, e := SubOp(DeprovisionTask, p.target, None);
      RetreatRemoved(before, e, r);
      return r.Done?;
    }

    lemma RetreatRemoved(a: World, e: Entry, r: Reply)
      requires Valid() && Names(e, DeprovisionTask, p.target) && Rely(TaskDone(p, a, e, r), w) && RetreatStage(a)
      requires p.source != p.target
      ensures Retreating() && w.books.holders == a.books.holders
      ensures w.work == a.work.(targetRemovalTried := true, targetRemoved := a.work.targetRemoved || r.Done?)
    {
      hide Running, Quiet, Rely, Kept;
      QuietRelied(TaskDone(p, a, e, r), w);
      RetreatHolds(TaskDone(p, a, e, r));
    }

    /** Has the source started again. */
    method StartSource() returns (ok: bool)
      requires Retreating()
      modifies this`w, this`run, this`drawn, this`currentStep
      ensures Retreating() && old(drawn) <= drawn && w.books.holders == old(w.books.holders) && w.work == old(w.work)
      ensures ok ==> w.life.restartedAt.Some?
      ensures Fine(old(drawn), drawn) ==> ok
    {
      hide Safe, Sane, Fair, Rely, Drift, LawfulRun, Honest, HonestRun, Hindered, Quiet, Kept, TaskDone;
      SetStep(RollbackSourceRestart);
      RetreatHolds(old(w));
      ghost var before := w;
      var r, e := SubOp(StartTask, p.source, None);
      RetreatStarted(before, e, r);
      ok := r.Done?;
    }

    lemma RetreatStarted(a: World, e: Entry, r: Reply)
      requires Valid() && e.task.StartTask? && Rely(TaskDone(p, a, e, r), w) && RetreatStage(a)
      ensures Retreating() && w.work == a.work && w.books.holders == a.books.holders
      ensures r.Done? ==> w.life.restartedAt.Some?
    {
      hide Running, Quiet, Rely, Kept;
      QuietRelied(TaskDone(p, a, e, r), w);
      RetreatHolds(TaskDone(p, a, e, r));
    }

    /** Starts the source again and waits for a fresh healthy report, which only an assigned node can give. */
    method RestartSource() returns (healthy: bool)
      requires Retreating()
      modifies this`w, this`run, this`drawn, this`currentStep
      ensures Retreating() && old(drawn) <= drawn && w.books.holders == old(w.books.holders) && w.work == old(w.work)
      ensures healthy ==> SourceServing(p, w.life) && w.life.assignee == p.source
      ensures Fine(old(drawn), drawn) && !AssignmentLost(w.work) ==> healthy
    {
      hide Safe, Sane, Fair, Rely, Drift, LawfulRun, Honest, HonestRun, Hindered, Quiet, Kept;
      var ok := StartSource();
      if !ok { return false; }
      RestartPast(p, w);
      ghost var before := w;
      healthy := WaitForNodeHealthy(p.source);
      QuietRelied(before, w);
      RetreatHolds(before);
    }

    /** Brings the source back: it counts as recovered once it is known to serve again. */
    method RecoverSource() returns (recovered: bool)
      requires Retreating()
      modifies this`w, this`run, this`drawn, this`currentStep
      ensures Retreating() && old(drawn) <= drawn && w.books.holders == old(w.books.holders) && w.work == old(w.work)
      ensures recovered ==> SourceServing(p, w.life) && w.life.assignee == p.source
      ensures Fine(old(drawn), drawn) && !AssignmentLost(w.work) ==> recovered
    {
      hide Safe, Sane, Fair, Rely, Drift, LawfulRun, Honest, HonestRun, Hindered, Quiet, Kept, SourceServing;
      var healthy := RestartSource();
      ghost var before := w;
      var r := SetTech(if healthy then StatusRunning else StatusFailed);
      ghost var stored := before.(tech := w.tech);
      KeptDrifts(stored, w);
      ServingHolds(p, stored, w);
      RetreatHolds(stored);
      return healthy && r.Done?;
    }

    lemma RetreatReleased(a: World, e: Entry, r: Reply)
      requires Valid() && Names(e, ReleaseWrite, p.target) && e.reply == Some(r) && p.target in a.books.nodes
      requires Rely(Released(p, a, e), w) && RetreatStage(a) && p.target in a.books.holders && p.source != p.target
      ensures Retreating() && w.work == a.work.(targetRelease := Some(r))
      ensures p.target in w.books.holders <==> !r.Applied()
    {
      hide Running, Quiet, Rely, Released, Release, Kept, DeedsOf, Effect;
      ReleasedIs(p, a, e);
      var next := Released(p, a, e);
      QuietRelied(next, w);
      RetreatHolds(next);
    }

    /** Gives the target's reservation back once its workload is known to be gone. */
    method ReturnTargetCapacity() returns (r: Reply)
      requires Retreating() && w.books.holders == {p.source, p.target} && p.source != p.target
      requires w.work.provisionTried ==> w.work.targetRemoved
      modifies this`w, this`run, this`drawn, this`targetCapacityReserved
      ensures Retreating() && drawn == old(drawn) + 1 && r == replies(old(drawn))
      ensures w.work == old(w.work).(targetRelease := Some(r))
      ensures p.target in w.books.holders <==> !r.Applied()
    {
      hide Running, RetreatStage, Rely, Released, Release, MayRelease, Names;
      RetreatMayRelease();
      ghost var e;
      r, e := ReleaseCapacity(p.target);
      RetreatReleased(old(w), e, r);
      if r.Done? { targetCapacityReserved := false; }
    }

    lemma RetreatMayRelease()
      requires Retreating() && w.books.holders == {p.source, p.target} && p.source != p.target
      requires w.work.provisionTried ==> w.work.targetRemoved
      ensures MayRelease(p, w, p.target) && p.target in w.books.nodes && RetreatStage(w)
    {
      hide Safe, Sane, LawfulRun, Honest, HonestRun, Hindered, Quiet;
      DataSafeNow(p, w);
    }

    /**
    The end of a rollback: routes only if the source recovered, and otherwise maintenance goes on; then the
    operation fails.
    */
    method CloseRollback(recovered: bool) returns (back: bool)
      requires Retreating() && (recovered ==> SourceServing(p, w.life))
      modifies this`w, this`run, this`drawn, this`currentStep
      ensures Valid() && old(drawn) <= drawn && w.books.holders == old(w.books.holders)
      ensures w.life.assignee == old(w.life.assignee)
      ensures w.work == old(w.work)
      ensures if recovered then SourceServing(p, w.life) else Quiet(w.view)
      ensures back ==> recovered && Serves(p, w.view, savedRoutes)
      ensures Fine(old(drawn), drawn) ==> (recovered ==> back) && !w.opRunning
    {
      hide Safe, Sane, Fair, Rely, Drift, LawfulRun, Honest, HonestRun, Hindered, Quiet, Kept, SourceServing, Serves;
      if recovered {
        back := BringRoutesBack();
      } else {
        back := false;
        DriftReflexive(w);
      }
      DriftFacts(old(w), w);
      ServingHolds(p, old(w), w);
      ghost var before := w;
      Fail();
      ghost var settled := before.(opRunning := w.opRunning);
      RelyDrifts(settled, w);
      DriftFacts(settled, w);
      ServingHolds(p, settled, w);
      if !recovered { QuietHolds(settled, w); }
      if back && savedRoutes != map[] { ServesHolds(p, settled, w, savedRoutes); }
      if savedRoutes == map[] { NothingToServe(p, w.view); }
    }

    /** Puts the original routes back after the source has recovered. */
    method BringRoutesBack() returns (back: bool)
      requires Retreating() && SourceServing(p, w.life)
      modifies this`w, this`run, this`drawn, this`currentStep
      ensures Valid() && old(drawn) <= drawn && Drift(old(w), w)
      ensures back && savedRoutes != map[] ==> Serves(p, w.view, savedRoutes) && w.opStep.RollbackRoutes?
      ensures Fine(old(drawn), drawn) ==> back
    {
      hide Safe, Sane, Fair, Honest, HonestRun, Hindered, Rely, Drift, LawfulRun, Quiet, Kept, SourceServing, Serves;
      if savedRoutes == map[] {
        DriftReflexive(w);
        return true;
      }
      DistinctNodes(p, w);
      SetStep(RollbackRoutes);
      RetreatHolds(old(w));
      ServingHolds(p, old(w), w);
      ghost var before := w;
      back := RestoreOriginalRoutes();
      DriftTransitive(old(w), before, w);
    }

    /** The target's workload is removed and then, if that was reported done, its reservation given back. */
    method ClearTarget() returns (cleaned: bool, released: Option<Reply>)
      requires Retreating() && w.books.holders == {p.source, p.target} && p.source != p.target
      requires !w.work.targetRemovalTried && !w.work.targetRemoved && w.work.targetRelease.None?
      requires (w.work.provisionTried <==> targetProvisionAttempted) && targetCapacityReserved
      modifies this`w, this`run, this`drawn, this`currentStep, this`targetCapacityReserved
      ensures Retreating() && old(drawn) <= drawn && w.work.assignment == old(w.work.assignment)
      ensures (cleaned <==> (w.work.provisionTried ==> w.work.targetRemoved)) && released == w.work.targetRelease
      ensures (p.target in w.books.holders <==> !Took(released)) && (released.Some? ==> cleaned)
      ensures Fine(old(drawn), drawn) ==> cleaned && released == Some(Done)
    {
      hide Running, RetreatStage;
      cleaned := CleanUpTarget();
      released := None;
      if targetCapacityReserved && cleaned {
        var r := ReturnTargetCapacity();
        released := Some(r);
      }
    }

    /**
    rollbackPreCutover: the target is cleaned up, its reservation given back, and the source brought
    back. With nothing going wrong all of that succeeds, unless the assignment of the target was lost:
    then the source can never report healthy, and the instance stays in maintenance.
    */
    method RollBack() returns (o: Outcome)
      requires Retreating() && w.books.holders == {p.source, p.target} && p.source != p.target
      requires !w.work.targetRemovalTried && !w.work.targetRemoved && w.work.targetRelease.None?
      requires (w.work.provisionTried <==> targetProvisionAttempted) && sourceStopped && targetCapacityReserved
      modifies this`w, this`run, this`drawn, this`currentStep, this`targetCapacityReserved
      ensures Valid() && old(drawn) <= drawn && o.RolledBack? && Settled(p, w, savedRoutes, o)
      ensures w.work.assignment == old(w.work.assignment)
      ensures var lost := AssignmentLost(w.work);
              Fine(old(drawn), drawn) ==> o == RolledBack(true, Some(Done), !lost, !lost) && !w.opRunning
    {
      hide Running, RetreatStage, Quiet, SourceServing, Serves, AssignmentLost, Settled;
      var cleaned, released := ClearTarget();
      var recovered := true;
      if sourceStopped { recovered := RecoverSource(); }
      RetreatFacts();
      var back := CloseRollback(recovered);
      RollbackSettles(cleaned, released, recovered, back);
      return RolledBack(cleaned, released, recovered, back);
    }

    lemma RollbackSettles(cleaned: bool, released: Option<Reply>, recovered: bool, back: bool)
      requires p.source in w.books.holders && !w.work.sourceRemovalTried
      requires w.life.assignee == if AssignmentLost(w.work) then p.target else p.source
      requires (cleaned <==> (w.work.provisionTried ==> w.work.targetRemoved)) && released == w.work.targetRelease
      requires (p.target in w.books.holders <==> !Took(released)) && (released.Some? ==> cleaned)
      requires if recovered then SourceServing(p, w.life) && w.life.assignee == p.source else Quiet(w.view)
      requires back ==> recovered && Serves(p, w.view, savedRoutes)
      ensures Settled(p, w, savedRoutes, RolledBack(cleaned, released, recovered, back))
    {
    }

    lemma RetreatFacts()
      requires Retreating()
      ensures p.source in w.books.holders && !w.work.sourceRemovalTried
      ensures w.life.assignee == if AssignmentLost(w.work) then p.target else p.source
    {
      hide Running;
    }

    /**
    UpdateCustomerAppNode: with nothing forwarded, to either node that holds the tier. Its reply is
    assign for the target, and drawn otherwise.
    */
    method AssignTo(n: NodeId) returns (r: Reply, ghost e: Entry)
      requires Valid() && Quiet(w.view) && n in {p.source, p.target} && n in w.books.holders
      requires w.traffic == UNSEEN && !w.work.sourceRemovalTried
      requires n == p.target ==> w.work.resumed && AllRestored(p, w.work) && w.work.assignment.None?
      modifies this`w, this`run, this`drawn
      ensures Valid() && drawn == old(drawn) + 1 && r == if n == p.target then assign else replies(old(drawn))
      ensures Names(e, AssignWrite, n) && e.reply == Some(r) && e.at == old(w.clock) && Kept(Did(p, old(w), e), w)
    {
      hide Safe, Sane, Fair, Rely, Drift, LawfulRun, Honest, HonestRun, Hindered, Quiet, Kept, AllRestored, DeedsOf;
      hide Effect, Did;
      r := if n == p.target then assign else replies(drawn);
      var entry := Entry(AssignWrite, n, None, w.clock, drawn, Some(r));
      e := entry;
      drawn := drawn + 1;
      AssignSane(p, w, e);
      DidDeeds(p, w, e);
      AssignIs(p, w, e);
      CommitWrite(e, Did(p, w, entry));
      QuietRelied(Did(p, old(w), e), w);
    }

    /** The stage of a cutover: assigned to the target, nothing forwarded yet. */
    ghost predicate Switching()
      reads this`w, this`run, this`hindered, this`drawn, this`savedRoutes, this`sourceStopped,
            this`targetCapacityReserved, this`targetProvisionAttempted
    {
      Valid() && SwitchStage(w)
    }

    ghost predicate SwitchStage(a: World)
      reads this`savedRoutes, this`sourceStopped, this`targetCapacityReserved, this`targetProvisionAttempted
    {
      && a.opRunning && Quiet(a.view) && Saved(a) && a.books.holders == {p.source, p.target} && p.source != p.target
      && a.life.assignee == p.target && AllRestored(p, a.work) && Moved(a.work) && a.traffic == UNSEEN
      && sourceStopped && targetCapacityReserved && (a.work.provisionTried <==> targetProvisionAttempted)
    }

    /** The assignment went through, and nothing has been removed or given back. */
    static predicate Moved(k: Work) {
      && k.assignment == Some(Done) && !k.targetRemovalTried && !k.targetRemoved && !k.sourceRemovalTried
      && !k.sourceRemoved
      && k.targetRelease.None?
    }

    lemma SwitchingHolds(a: World)
      requires Valid() && Kept(a, w) && SwitchStage(a)
      ensures Switching()
    {
      hide Running, Quiet, AllRestored;
      KeptFacts(a, w);
    }

    /** Health or bookkeeping failed after the assignment: back to the source, or leave everything to an operator. */
    method SwitchBack() returns (o: Outcome)
      requires Switching()
      modifies this`w, this`run, this`drawn, this`currentStep, this`targetCapacityReserved
      ensures Valid() && old(drawn) <= drawn && Settled(p, w, savedRoutes, o)
      ensures o.RolledBack? || o == HeldForOperator(true)
      ensures o.RolledBack? ==> !AssignmentLost(w.work)
      ensures Fine(old(drawn), drawn) ==> o == RolledBack(true, Some(Done), true, true) && !w.opRunning
    {
      hide Safe, Sane, Fair, Rely, Drift, LawfulRun, Honest, HonestRun, Hindered, Quiet, Kept, AllRestored;
      hide SourceServing, Serves, Did;
      var r, e := AssignTo(p.source);
      AssignIs(p, old(w), e);
      ghost var next := Did(p, old(w), e);
      KeptFacts(next, w);
      if !r.Done? {
        ghost var before := w;
        FailForIntervention();
        DriftFacts(before.(opRunning := w.opRunning, tech := w.tech), w);
        return HeldForOperator(true);
      }
      o := RollBack();
    }

    /** The saved routes, redirected to the target on the ports it reported. */
    function TargetRoutes(): map<Host, Route>
      reads this`savedRoutes, this`hostPorts
    {
      map h | h in savedRoutes ::
        if savedRoutes[h].service in hostPorts
        then savedRoutes[h].(node := p.target, port := hostPorts[savedRoutes[h].service])
        else savedRoutes[h].(node := p.target)
    }

    ghost predicate PortsReported()
      reads this`savedRoutes, this`hostPorts
    {
      forall h :: h in savedRoutes ==> savedRoutes[h].service in hostPorts && hostPorts[savedRoutes[h].service] > 0
    }

    /** The stage after the cutover. */
    ghost predicate Arrived()
      reads this`w, this`run, this`hindered, this`drawn, this`savedRoutes, this`hostPorts
    {
      Valid() && ArrivedStage(w)
    }

    ghost predicate ArrivedStage(a: World)
      reads this`savedRoutes, this`hostPorts
    {
      && a.opRunning && p.source != p.target && TargetServing(p, a.life) && AllRestored(p, a.work)
      && !a.work.targetRemovalTried && p.target in a.books.holders
      && (p.source in a.books.holders || a.work.sourceRemoved)
      && savedRoutes.Keys == a.view.rows.Keys && RowsAt(a.view, p.target)
      && a.traffic.promised == (if savedRoutes == map[] then None else Some(InstanceConfig(TargetRoutes(), false)))
    }

    lemma ArrivedHolds(a: World)
      requires Valid() && Rely(a, w) && ArrivedStage(a)
      ensures Arrived() && w.books.holders == a.books.holders && w.restartRequired == a.restartRequired
      ensures w.work == a.work
    {
      hide Running, Rely, TargetServing, AllRestored, RowsAt, InstanceConfig, Drift;
      RelyDrifts(a, w);
      ServingHolds(p, a, w);
      DriftFacts(a, w);
      DriftKeys(a, w);
      RowsAtHolds(a, w, p.target);
    }

    /** reconcileRoutes towards the target. On success Caddy serves the redirected routes, for good. */
    method ReconcileRoutes() returns (ok: bool)
      requires Switching() && TargetServing(p, w.life) && PortsReported() && savedRoutes != map[]
      requires w.opStep.EnablingTargetRoutes?
      modifies this`w, this`run, this`drawn
      ensures old(drawn) <= drawn && (ok ==> Arrived() && w.books.holders == {p.source, p.target})
      ensures !ok ==> Valid() && Drift(old(w), w)
      ensures Fine(old(drawn), drawn) ==> ok
    {
      hide Safe, Sane, Fair, Honest, HonestRun, Hindered, Rely, Drift, LawfulRun, Quiet, Kept, AllRestored;
      hide TargetServing, Writable, InstanceConfig, Shown, RowsAt;
      var ready := Draw();
      if !ready.Done? {
        DriftReflexive(w);
        return false;
      }
      var routes := TargetRoutes();
      TargetWritable(p, w, routes);
      ok := UpdateRoutesAndSync(routes);
      if ok {
        DriftFacts(old(w), w);
        DriftKeys(old(w), w);
        LoadedInForce(p, old(w), routes, w);
        LoadedRows(p, old(w), routes, w);
        ServingHolds(p, old(w), w);
        Promise();
      }
    }

    /** Notes what Caddy was told to serve. */
    method Promise()
      requires Valid() && w.traffic.promised.None? && CarriesTraffic(w.opStep) && savedRoutes != map[]
      requires w.view.caddy == InstanceConfig(TargetRoutes(), false) == InstanceConfig(w.view.rows, false)
      requires ArrivedStage(w.(traffic := w.traffic.(promised := Some(w.view.caddy))))
      modifies this`w, this`run
      ensures Arrived() && w.books.holders == old(w.books.holders)
    {
      hide Safe, Sane, Fair, Honest, HonestRun, Hindered, Rely, LawfulRun, ArrivedStage, DeedsOf, InstanceConfig;
      PromiseSafe(p, w);
      PromiseDeeds(w);
      CommitPlain(w.(traffic := w.traffic.(promised := Some(w.view.caddy))));
      ArrivedHolds(old(w).(traffic := old(w).traffic.(promised := Some(old(w).view.caddy))));
    }

    /**
    Moves public traffic to the target. If the outcome of the load is uncertain, maintenance is
    restored as far as possible and both workloads are kept.
    */
    method EnableTargetRoutes() returns (failed: Option<Outcome>)
      requires Switching() && TargetServing(p, w.life) && PortsReported() && savedRoutes != map[]
      modifies this`w, this`run, this`drawn, this`currentStep, this`targetCapacityReserved
      ensures old(drawn) <= drawn && (failed.None? ==> Arrived() && w.books.holders == {p.source, p.target})
      ensures failed.Some? ==>
                && Valid() && Settled(p, w, savedRoutes, failed.value)
                && (failed.value.RolledBack? || failed.value.HeldForOperator?)
      ensures Fine(old(drawn), drawn) ==> failed.None?
    {
      hide Running, SwitchStage, ArrivedStage, Drift, Quiet, Kept, TargetServing, Settled, PortsReported;
      SwitchingNow();
      currentStep := EnablingTargetRoutes;
      var r := RecordStep(EnablingTargetRoutes);
      SwitchingHolds(old(w));
      KeptDrifts(old(w), w);
      ServingHolds(p, old(w), w);
      if !r.Done? {
        var o := SwitchBack();
        return Some(o);
      }
      ghost var before := w;
      var ok := ReconcileRoutes();
      if ok { return None; }
      SwitchDrifts(before);
      var o := HoldBack();
      return Some(o);
    }

    lemma SwitchingNow()
      requires Switching()
      ensures Quiet(w.view) && w.traffic.promised.None?
    {
      hide Running;
    }

    lemma SwitchDrifts(a: World)
      requires Valid() && SwitchStage(a) && Drift(a, w)
      ensures RoutesSaved() && w.traffic.promised.None? && w.books.holders == {p.source, p.target}
      ensures !w.work.sourceRemovalTried && !w.work.targetRemovalTried
    {
      hide Running, Drift, Quiet, AllRestored;
      DriftFacts(a, w);
      DriftKeys(a, w);
    }

    /** An uncertain cutover: maintenance again, and the rest is left to an operator; done maintenance lasts. */
    method HoldBack() returns (o: Outcome)
      requires Valid() && RoutesSaved() && w.traffic.promised.None? && savedRoutes != map[]
      requires !w.work.sourceRemovalTried && !w.work.targetRemovalTried && w.books.holders == {p.source, p.target}
      modifies this`w, this`run, this`drawn, this`currentStep
      ensures Valid() && old(drawn) <= drawn && o.HeldForOperator? && Settled(p, w, savedRoutes, o)
      ensures Fine(old(drawn), drawn) ==> o.quiet && !w.opRunning
    {
      hide Safe, Sane, Fair, Honest, HonestRun, Hindered, Rely, Drift, LawfulRun, Quiet, Kept;
      var maintained := EnableMaintenance();
      DriftFacts(old(w), w);
      ghost var before := w;
      FailForIntervention();
      DriftFacts(before.(opRunning := w.opRunning, tech := w.tech), w);
      return HeldForOperator(maintained);
    }

    /** Assigns the instance to the target and waits for the target's fresh health report. */
    method AssignTarget(ghost k: Work) returns (failed: Option<Outcome>)
      requires Underway(k) && AllRestored(p, k) && k.resumed && !k.sourceRemoved
      requires k.provisionTried <==> targetProvisionAttempted
      modifies this`w, this`run, this`drawn, this`currentStep, this`targetCapacityReserved
      ensures old(drawn) <= drawn && (failed.None? ==> Switching() && TargetServing(p, w.life))
      ensures failed.Some? ==>
                && Valid() && Settled(p, w, savedRoutes, failed.value)
                && (failed.value.RolledBack? || failed.value.HeldForOperator?)
      ensures Fine(old(drawn), drawn) ==>
                if assign.Done? then failed.None?
                else failed == Some(RolledBack(true, Some(Done), assign.Refused?, assign.Refused?)) && !w.opRunning
                     && w.work.assignment == Some(assign)
    {
      hide Safe, Sane, Fair, Rely, Drift, LawfulRun, Honest, HonestRun, Hindered, Quiet, Kept, AllRestored;
      hide TargetServing, BackupsTaken, Serves, SourceServing, Did;
      DistinctNodes(p, w);
      var r, e := AssignTo(p.target);
      AssignIs(p, old(w), e);
      ghost var next := Did(p, old(w), e);
      RestoredLater(p, k, next.work);
      KeptFacts(next, w);
      if !r.Done? {
        var o := RollBack();
        return Some(o);
      }
      failed := GateTarget(next);
    }

    /** The health gate on the assigned target. */
    method GateTarget(ghost next: World) returns (failed: Option<Outcome>)
      requires Valid() && Kept(next, w) && SwitchStage(next)
      modifies this`w, this`run, this`drawn, this`currentStep, this`targetCapacityReserved
      ensures old(drawn) <= drawn && (failed.None? ==> Switching() && TargetServing(p, w.life))
      ensures failed.Some? ==>
                && Valid() && Settled(p, w, savedRoutes, failed.value)
                && (failed.value.RolledBack? || failed.value.HeldForOperator?)
      ensures failed.Some? && failed.value.RolledBack? ==> !AssignmentLost(w.work)
      ensures Fine(old(drawn), drawn) ==> failed.None?
    {
      hide Safe, Sane, Fair, Honest, HonestRun, Hindered, Rely, Drift, LawfulRun, Quiet, Kept, AllRestored;
      hide TargetServing, Serves, SourceServing;
      SwitchingHolds(next);
      ghost var before := w;
      var healthy := WaitForNodeHealthy(p.target);
      QuietRelied(before, w);
      SwitchingHolds(before);
      if healthy {
        GateServes(p, before, w);
        return None;
      }
      var o := SwitchBack();
      return Some(o);
    }

    /** The cutover: assignment, health gate, routes. */
    method CutOver(ghost k: Work) returns (failed: Option<Outcome>)
      requires Underway(k) && AllRestored(p, k) && k.resumed && PortsReported() && !cutoverComplete
      requires (k.provisionTried <==> targetProvisionAttempted) && !k.sourceRemoved
      modifies this`w, this`run, this`drawn, this`currentStep, this`targetCapacityReserved, this`cutoverComplete
      ensures old(drawn) <= drawn && (cutoverComplete <==> failed.None?)
      ensures failed.None? ==> Arrived() && w.books.holders == {p.source, p.target}
      ensures failed.Some? ==>
                && Valid() && Settled(p, w, savedRoutes, failed.value)
                && (failed.value.RolledBack? || failed.value.HeldForOperator?)
      ensures Fine(old(drawn), drawn) ==>
                if assign.Done? then failed.None?
                else failed == Some(RolledBack(true, Some(Done), assign.Refused?, assign.Refused?)) && !w.opRunning
                     && w.work.assignment == Some(assign)
    {
      hide UnderwayStage, SwitchStage, ArrivedStage, AllRestored, TargetServing, Settled, Running, PortsReported;
      Proceed(Cutover, k);
      failed := AssignTarget(k);
      if failed.Some? { return; }
      SwitchingHolders();
      if savedRoutes != map[] {
        failed := EnableTargetRoutes();
        if failed.Some? { return; }
      } else {
        ArrivedWithoutRoutes();
      }
      cutoverComplete := true;
    }

    lemma SwitchingHolders()
      requires Switching()
      ensures w.books.holders == {p.source, p.target}
    {
      hide Safe, Sane, Honest, HonestRun, LawfulRun;
    }

    /** An instance without public routes arrives with the health gate. */
    lemma ArrivedWithoutRoutes()
      requires Switching() && TargetServing(p, w.life) && savedRoutes == map[]
      ensures Arrived()
    {
      hide Safe, Sane, Honest, HonestRun, LawfulRun, Rely, TargetServing, AllRestored, RowsAt, InstanceConfig, Quiet;
      RelyReflexive(w);
      NoRows(w.view, p.target);
      ArrivedHolds(w);
    }

    /** Moves on to a named step after the cutover. */
    method Continue(step: Step)
      requires Arrived() && CarriesTraffic(step)
      modifies this`w, this`run, this`drawn, this`currentStep
      ensures Arrived() && old(drawn) <= drawn && w.books.holders == old(w.books.holders)
      ensures w.restartRequired == old(w.restartRequired)
      ensures w.work == old(w.work)
    {
      hide Safe, Sane, Fair, Honest, HonestRun, Hindered, Rely, Drift, LawfulRun, AllRestored, TargetServing, Kept;
      hide Quiet, InstanceConfig, RowsAt;
      SetStep(step);
      ArrivedHolds(old(w).(opStep := w.opStep));
    }

    /** Has the old workload removed; it is gone only when that was reported done. */
    method DropSource() returns (r: Reply)
      requires Arrived() && w.books.holders == {p.source, p.target}
      modifies this`w, this`run, this`drawn
      ensures Arrived() && drawn == old(drawn) + 1 && r == replies(old(drawn))
      ensures w.books.holders == {p.source, p.target}
      ensures r.Done? ==> w.work.sourceRemoved
    {
      hide Safe, Sane, Fair, Rely, Drift, LawfulRun, Honest, HonestRun, Hindered, AllRestored, TargetServing;
      hide InstanceConfig, RowsAt, Unreachable;
      SourceUnreachable(p, w, TargetRoutes());
      ghost var e;
      r, e := SubOp(DeprovisionTask, p.source, None);
      ghost var next := TaskDone(p, old(w), e, r);
      RestoredLater(p, old(w.work), next.work);
      ArrivedHolds(next);
    }

    /** Removes the old workload and gives its reservation back; returns whether both went through. */
    method RemoveSource() returns (ok: bool)
      requires Arrived() && w.books.holders == {p.source, p.target}
      modifies this`w, this`run, this`drawn, this`currentStep
      ensures Arrived() && old(drawn) <= drawn
      ensures ok ==> w.books.holders == {p.target} && w.work.sourceRemoved
      ensures Fine(old(drawn), drawn) ==> ok
    {
      hide Running, ArrivedStage;
      Continue(DeprovisioningSource);
      var r := DropSource();
      if !r.Done? {
        Continue(CleanupSourceFailed);
        return false;
      }
      ok := ReturnSourceCapacity();
    }

    method ReturnSourceCapacity() returns (ok: bool)
      requires Arrived() && w.books.holders == {p.source, p.target} && w.work.sourceRemoved
      modifies this`w, this`run, this`drawn
      ensures Arrived() && old(drawn) <= drawn
      ensures ok ==> w.books.holders == {p.target} && w.work.sourceRemoved
      ensures Fine(old(drawn), drawn) ==> ok
    {
      hide Running, ArrivedStage, Rely, Released, Release, MayRelease, Names;
      ArrivedMayRelease();
      var r, e := ReleaseCapacity(p.source);
      ArrivedReleased(old(w), e, r);
      ok := r.Done?;
    }

    lemma ArrivedMayRelease()
      requires Arrived() && w.books.holders == {p.source, p.target} && w.work.sourceRemoved
      ensures MayRelease(p, w, p.source) && p.source in w.books.nodes && ArrivedStage(w) && p.source != p.target
    {
      hide Safe, Sane, LawfulRun, Honest, HonestRun, Hindered, TargetServing, AllRestored, RowsAt, InstanceConfig;
      DataSafeNow(p, w);
    }

    lemma ArrivedReleased(a: World, e: Entry, r: Reply)
      requires Valid() && Names(e, ReleaseWrite, p.source) && e.reply == Some(r) && p.source in a.books.nodes
      requires Rely(Released(p, a, e), w) && ArrivedStage(a) && a.books.holders == {p.source, p.target}
      requires a.work.sourceRemoved
      ensures Arrived() && w.work.sourceRemoved && (r.Done? ==> w.books.holders == {p.target})
    {
      hide Running, Rely, Released, Release, DeedsOf, Effect, TargetServing, AllRestored, RowsAt, InstanceConfig;
      ReleasedIs(p, a, e);
      var next := Released(p, a, e);
      RestoredLater(p, a.work, next.work);
      ArrivedHolds(next);
    }

    /** ClearCustomerAppRestartRequired */
    method ClearRestart() returns (r: Reply)
      requires Arrived()
      modifies this`w, this`run, this`drawn
      ensures Arrived() && old(drawn) <= drawn && w.books.holders == old(w.books.holders)
      ensures w.work == old(w.work)
      ensures r.Done? ==> !w.restartRequired
      ensures Fine(old(drawn), drawn) ==> r.Done?
    {
      hide Safe, Sane, Fair, Honest, HonestRun, Hindered, Rely, Drift, LawfulRun, AllRestored, TargetServing;
      hide InstanceConfig, RowsAt;
      r := Draw();
      ColumnSafe(p, w, w.tech, w.restartRequired && r.Refused?, w.opRunning);
      ghost var next := w.(restartRequired := w.restartRequired && r.Refused?);
      CommitPlain(w.(restartRequired := w.restartRequired && r.Refused?));
      ArrivedHolds(next);
    }

    /** UpdateCustomerAppStatus to running after the cutover. */
    method MarkRunning() returns (r: Reply)
      requires Arrived()
      modifies this`w, this`run, this`drawn
      ensures Arrived() && old(drawn) <= drawn && w.books.holders == old(w.books.holders)
      ensures w.restartRequired == old(w.restartRequired)
      ensures w.work == old(w.work)
      ensures Fine(old(drawn), drawn) ==> r.Done?
    {
      hide Safe, Sane, Fair, Honest, HonestRun, Hindered, Rely, Drift, LawfulRun, AllRestored, TargetServing;
      hide InstanceConfig, Quiet, Kept, RowsAt;
      r := SetTech(StatusRunning);
      ghost var stored := old(w).(tech := if r.Applied() then StatusRunning else old(w).tech);
      ArrivedHolds(stored);
    }

    /** UpdateOperation of the migration itself, to succeeded or failed. */
    method SettleOperation()
      requires Arrived()
      modifies this`w, this`run, this`drawn
      ensures Valid() && old(drawn) <= drawn && Settled(p, w, savedRoutes, FailedAfterCutover)
      ensures w.books.holders == old(w.books.holders) && w.restartRequired == old(w.restartRequired)
      ensures w.work == old(w.work)
      ensures savedRoutes != map[] ==> w.traffic.promised == Some(InstanceConfig(TargetRoutes(), false))
      ensures Fine(old(drawn), drawn) ==> !w.opRunning
    {
      hide Safe, Sane, Fair, Honest, HonestRun, Hindered, Rely, Drift, LawfulRun, AllRestored, TargetServing;
      hide InstanceConfig, RowsAt;
      Fail();
      ghost var settled := old(w).(opRunning := w.opRunning);
      RelyDrifts(settled, w);
      ServingHolds(p, settled, w);
      DriftFacts(settled, w);
      RestoredLater(p, old(w).work, w.work);
    }

    /** Everything after the cutover; whatever fails, the target keeps serving. */
    method CleanUp() returns (o: Outcome)
      requires Arrived() && w.books.holders == {p.source, p.target}
      modifies this`w, this`run, this`drawn, this`currentStep
      ensures Valid() && old(drawn) <= drawn && Settled(p, w, savedRoutes, o) && (o.FailedAfterCutover? || o.Finished?)
      ensures savedRoutes != map[] ==> w.traffic.promised == Some(InstanceConfig(TargetRoutes(), false))
      ensures Fine(old(drawn), drawn) ==> o.Finished? && !w.opRunning
    {
      hide Running, AllRestored, TargetServing, InstanceConfig, RowsAt, ArrivedStage, TargetRoutes;
      var removed := RemoveSource();
      var cleared := Refused;
      if removed { cleared := ClearRestart(); }
      var r := MarkRunning();
      if cleared.Done? && r.Done? { Continue(Completed); }
      SettleOperation();
      return if cleared.Done? && r.Done? then Finished else FailedAfterCutover;
    }

    lemma UnderwayRetreats(k: Work)
      requires Underway(k) && (k.provisionTried <==> targetProvisionAttempted)
      ensures Retreating() && p.source != p.target && w.books.holders == {p.source, p.target}
      ensures !w.work.targetRemovalTried && !w.work.targetRemoved && w.work.targetRelease.None?
      ensures w.work.assignment.None?
      ensures (w.work.provisionTried <==> targetProvisionAttempted) && sourceStopped && targetCapacityReserved
    {
      hide Safe, Sane, LawfulRun, Honest, HonestRun;
      DistinctNodes(p, w);
    }

    /** From the pause of the source to the last check before the cutover. */
    method MoveWorkload() returns (ok: bool, ghost k: Work)
      requires Poised() && targetCapacityReserved && !targetProvisionAttempted
      modifies this`w, this`run, this`hindered, this`drawn, this`currentStep, this`sourceStopped,
               this`targetProvisionAttempted, this`hostPorts
      ensures Underway(k) && old(drawn) <= drawn && (k.provisionTried <==> targetProvisionAttempted)
      ensures ok ==> AllRestored(p, k) && k.resumed && PortsReported() && !k.sourceRemoved
      ensures Fine(old(drawn), drawn) && Favourable() && !hindered ==> ok
    {
      hide UnderwayStage, PoisedStage, AllRestored, Running;
      PoisedWork();
      ok := PauseSource();
      k := w.work;
      if !ok { return; }
      ok := ProvisionTarget();
      k := w.work;
      if !ok { return; }
      ok := RestoreBackups();
      k := w.work;
      if !ok { return; }
      ok := ResumeTarget(k);
      RestoredLater(p, k, w.work);
      k := w.work;
      NothingRemoved(k);
      if !ok { return; }
      ok := ValidateTarget(k);
    }

    lemma PoisedWork()
      requires Poised()
      ensures w.work == Prepared(w.work)
    {
      hide Running;
    }

    /** While the workload is moved the source is not removed. */
    lemma NothingRemoved(k: Work)
      requires Underway(k)
      ensures !k.sourceRemoved
    {
      hide Safe, Sane, LawfulRun, Honest, HonestRun;
      DataSafeNow(p, w);
    }

    lemma UnderwayWork(k: Work)
      requires Underway(k)
      ensures w.work == k
    {
      hide Running;
    }

    /** Up to the reservation on the target: everything that can still be abandoned without touching the source. */
    method Prelude() returns (failed: Option<Outcome>)
      requires Initial()
      modifies this`w, this`run, this`hindered, this`drawn, this`currentStep, this`savedRoutes, this`freshBackups,
               this`targetCapacityReserved
      ensures Valid() && old(drawn) <= drawn
      ensures failed.Some? ==> failed.value.Aborted? && Settled(p, w, savedRoutes, failed.value)
      ensures failed.None? ==> Poised() && targetCapacityReserved
      ensures Fine(old(drawn), drawn) && Favourable() && !hindered ==> failed.None?
    {
      hide Safe, Sane, Fair, Honest, HonestRun, Hindered, Rely, Drift, LawfulRun, Quiet, BackupsTaken, Settled;
      hide Undisturbed;
      failed := Prepare();
      if failed.Some? { return; }
      NothingTaken(p, w.backups);
      ReadyUndisturbed([]);
      var parsed := Draw();
      if !parsed.Done? {
        var o := Abort();
        return Some(o);
      }
      failed := BackUpServices();
      if failed.Some? { return; }
      failed := Reservation();
    }

    /** The tier must have resources, and the target room for it. */
    method Reservation() returns (failed: Option<Outcome>)
      requires Ready(p.services)
      modifies this`w, this`run, this`hindered, this`drawn, this`currentStep, this`targetCapacityReserved
      ensures Valid() && old(drawn) <= drawn
      ensures failed.Some? ==> failed.value.Aborted? && Settled(p, w, savedRoutes, failed.value)
      ensures failed.None? ==> Poised() && targetCapacityReserved
      ensures Fine(old(drawn), drawn) && p.tier.Positive() && !hindered ==> failed.None?
    {
      hide Running, ReadyStage, PoisedStage, RoutesSaved, Undisturbed, Serves, Full;
      ReadyUndisturbed(p.services);
      if !p.tier.Positive() {
        var o := Abort();
        return Some(o);
      }
      var r := ReserveTarget();
      if !r.Done? {
        ghost var reserve := w.work.reserve;
        var back := AbortBeforeStop();
        assert w.work.reserve == reserve;
        assert reserve == Some(Lost) <==> r.Lost?;
        return Some(Aborted(back, r.Lost?));
      }
      targetCapacityReserved := true;
      return None;
    }

    /**
    A whole migration. Whatever fails and whatever runs beside it, every state observed is safe, every
    change lawful, and the ending is one of five whose guarantees Settled spells out.

    Nothing but a failure keeps it from finishing: if every reply drawn was fine, the definition and the
    configuration are in order, and the run neither met a full target nor a spoiled backup, the migration
    finishes when the target's assignment is done. If that one write is refused, the source is back in
    service; if it is lost, the instance ends in maintenance on a node that holds nothing for it.
    */
    method RunMigration() returns (o: Outcome)
      requires Initial()
      modifies this
      ensures LawfulRun(p, run) && run[0] == start && run[|run| - 1] == w && Safe(p, w) && start.work == IDLE
      ensures HonestRun(p, replies, assign, run)
      ensures Settled(p, w, savedRoutes, o)
      ensures o.RolledBack? ==>
                (w.life.assignee !in w.books.holders <==> assign.Lost? && w.work.assignment.Some? && Took(o.released))
      ensures o.Aborted? && o.leaked ==>
                exists i :: 0 <= i < |w.log| && Names(w.log[i], ReserveWrite, p.target) && replies(w.log[i].draw).Lost?
      ensures !assign.Lost? ==> forall k :: 0 <= k < |run| ==> run[k].life.assignee in run[k].books.holders
      ensures cutoverComplete <==> o.FailedAfterCutover? || o.Finished?
      ensures cutoverComplete && savedRoutes != map[] ==>
                w.traffic.promised == Some(InstanceConfig(TargetRoutes(), false))
      ensures Fine(old(drawn), drawn) && Favourable() && !Hindered(p, run) ==>
                && !w.opRunning
                && o == (if assign.Done? then Finished
                    else RolledBack(true, Some(Done), assign.Refused?, assign.Refused?))
                && (assign.Lost? ==> w.life.assignee == p.target && p.target !in w.books.holders)
    {
      hide Safe, Sane, LawfulRun, Honest, HonestRun, Hindered, Quiet, AllRestored, Serves, Undisturbed, TargetServing;
      hide SourceServing;
      hide InstanceConfig, UnderwayStage, ArrivedStage, PoisedStage, RetreatStage, Favourable;
      var failed := Prelude();
      if failed.Some? {
        o := failed.value;
      } else {
        o := Migrate();
      }
      EndingsFollowReplies(p, replies, assign, w, savedRoutes, o);
      if !assign.Lost? {
        forall k | 0 <= k < |run| ensures run[k].life.assignee in run[k].books.holders {
          AlwaysCovered(p, replies, assign, run, k);
        }
      }
    }

    /** The part of a migration that follows the reservation on the target. */
    method Migrate() returns (o: Outcome)
      requires Poised() && targetCapacityReserved && !targetProvisionAttempted && !cutoverComplete
      modifies this`w, this`run, this`hindered, this`drawn, this`currentStep, this`sourceStopped,
               this`targetProvisionAttempted, this`hostPorts, this`targetCapacityReserved, this`cutoverComplete
      ensures Valid() && old(drawn) <= drawn && Settled(p, w, savedRoutes, o)
      ensures cutoverComplete <==> o.FailedAfterCutover? || o.Finished?
      ensures cutoverComplete && savedRoutes != map[] ==>
                w.traffic.promised == Some(InstanceConfig(TargetRoutes(), false))
      ensures Fine(old(drawn), drawn) && Favourable() && !hindered ==>
                && !w.opRunning
                && o == (if assign.Done? then Finished
                    else RolledBack(true, Some(Done), assign.Refused?, assign.Refused?))
                && (assign.Lost? ==> w.work.assignment == Some(Lost))
    {
      hide Running, AllRestored, Settled, InstanceConfig, UnderwayStage, ArrivedStage, PoisedStage, RetreatStage;
      hide Favourable, PortsReported;
      var done, k := MoveWorkload();
      if !done {
        UnderwayRetreats(k);
        o := RollBack();
        return;
      }
      var failed := CutOver(k);
      if failed.Some? { return failed.value; }
      o := CleanUp();
    }
  }
}
