/**
What the migration coordinator and everything running beside it can see: the instance row, the
migrate operation, the instance's route rows, Caddy, node counters, health reports and backup
records (internal/api/admin_instances.go, internal/database/health.go).

Some fields are history: facts about the run that no column stores but that the properties are
about. Nothing the coordinator decides reads them.
*/
module MigrationWorld {
  import opened Wrappers
  import opened Routes
  import opened Capacity

  type Time = nat
  type BackupId = nat

  datatype TechStatus = StatusRunning | StatusMigrating | StatusFailed | StatusOther

  datatype BackupStatus = BackupPending | Succeeded | BackupFailed | Expired
  datatype Backup = Backup(service: string, kind: string, node: NodeId, status: BackupStatus, backend: string,
      key: string, checksum: string)

  /** The last health report stored with the instance. */
  datatype Report = Report(healthy: bool, at: Time, boot: string)

  /** The last heartbeat stored with a node. */
  datatype Beat = Beat(at: Time, boot: string)

  /** A service of the app definition; backup is its declared backup type, "none" when it declares none. */
  datatype Service = Service(name: string, backup: string)

  /** since is when the instance was assigned to the source. */
  datatype Plan = Plan(source: NodeId, target: NodeId, tier: Size, services: seq<Service>, since: Time)

  /** Where the instance is assigned (a column) and what is known about the two workloads (history). */
  datatype Life = Life(
    assignee: NodeId,
    assignedAt: Time,
    paused: bool,                  // a pause of the source was dispatched
    restartedAt: Option<Time>,     // a restart of the source succeeded
    healthyAt: map<NodeId, Time>)  // the latest healthy report of each node

  /** Route rows and Caddy's running configuration, for this instance's hosts. */
  datatype View = View(rows: map<Host, Route>, caddy: map<Host, Handler>)

  /**
  Node rows, and as history who holds what: others is everyone else, holders are the nodes reserved for this
  instance.
  */
  datatype Books = Books(nodes: map<NodeId, Node>, others: map<NodeId, Size>, holders: set<NodeId>)

  /** A backup sent to the target: the record's ID and its content at that time. */
  datatype Sent = Sent(id: BackupId, record: Backup)

  /** What the coordinator asks for: tasks that a worker carries out, and writes of its own. */
  datatype Task =
    | BackUpTask | PauseTask | ProvisionTask | RestoreTask | ResumeTask | StartTask | DeprovisionTask
    | RecordWrite | ReserveWrite | AssignWrite | ReleaseWrite

  /** Writes are over at once; other tasks are dispatched first and end later. */
  predicate IsWrite(t: Task) { t.RecordWrite? || t.ReserveWrite? || t.AssignWrite? || t.ReleaseWrite? }

  /** One thing the coordinator did: for which node and record, when, which of its draws decided it, and the reply. */
  datatype Entry = Entry(task: Task, node: NodeId, sent: Option<Sent>, at: Time, draw: nat, reply: Option<Reply>)

  type Log = seq<Entry>

  /** What the log amounts to. */
  datatype Work = Work(
    made: set<BackupId>,           // backup records created
    dispatched: set<BackupId>,     // whose backup was dispatched
    backedUp: set<BackupId>,       // and succeeded
    stopped: bool,                 // the pause of the source succeeded
    provisionTried: bool, provisioned: bool,
    restoreSent: seq<Sent>, restored: seq<Sent>,
    resumeTried: bool, resumed: bool,
    targetRemovalTried: bool, targetRemoved: bool,
    sourceRemovalTried: bool, sourceRemoved: bool,
    reserve: Option<Reply>,        // the reservation on the target
    targetRelease: Option<Reply>,  // and its release
    sourceRelease: Option<Reply>,
    assignment: Option<Reply>)     // the assignment of the instance to the target

  /** History of what Caddy has shown. */
  datatype Traffic = Traffic(
    targetSeen: bool,              // it has forwarded to the target
    exposed: bool,                 // it has forwarded anything between the first record and the resume
    promised: Option<map<Host, Handler>>)  // what it was told to serve when the cutover completed

  /** The write that assigns the target took effect but reported an error. */
  predicate AssignmentLost(k: Work) { k.assignment == Some(Lost) }

  datatype World = World(
    clock: Time,
    life: Life, tech: TechStatus, restartRequired: bool, report: Report,
    opRunning: bool, opStep: Step,
    view: View, books: Books, beats: map<NodeId, Beat>,
    backups: map<BackupId, Backup>,
    work: Work, log: Log, traffic: Traffic)

  predicate HoldsBack(w: World) { w.opRunning && !CarriesTraffic(w.opStep) }

  /** MigrationInstanceHealthy: a report newer than since, from the assigned node's current boot. */
  predicate InstanceHealthy(w: World, node: NodeId, since: Time) {
    && w.life.assignee == node && node in w.books.nodes && node in w.beats
    && w.books.nodes[node].status == "active" && w.books.nodes[node].health == "healthy"
    && w.beats[node].at + 120 > w.clock
    && w.beats[node].boot != "" && w.report.boot == w.beats[node].boot
    && w.report.healthy && w.report.at > since
  }

  /** Some healthy report of the node is newer than t. */
  predicate HealthySince(l: Life, node: NodeId, t: Time) {
    node in l.healthyAt && l.healthyAt[node] > t
  }

  /** The source was never paused, or was restarted and has reported healthy since. */
  predicate SourceServing(p: Plan, l: Life) {
    !l.paused || (l.restartedAt.Some? && HealthySince(l, p.source, l.restartedAt.value))
  }

  /** The instance is assigned to the target, which has reported healthy since the assignment. */
  predicate TargetServing(p: Plan, l: Life) {
    l.assignee == p.target && HealthySince(l, p.target, l.assignedAt)
  }

  predicate MayForward(p: Plan, l: Life, n: NodeId) {
    (n == p.source && SourceServing(p, l)) || (n == p.target && TargetServing(p, l))
  }

  /** Caddy forwards a host only to a node known to be serving, and no row lets it do otherwise later. */
  predicate TrafficSafe(p: Plan, l: Life, v: View) {
    && (forall h :: h in v.caddy && v.caddy[h].Proxy? ==> MayForward(p, l, v.caddy[h].node))
    && (forall h :: h in v.rows && !v.rows[h].status.Disabled? ==> MayForward(p, l, v.rows[h].node))
    && v.caddy.Keys <= v.rows.Keys
  }

  function Share(p: Plan, b: Books, n: NodeId): Size {
    if n in b.holders then p.tier else Size(0, 0)
  }

  /** A node's counters are exactly what other workloads hold plus this instance's share. */
  predicate Ledger(p: Plan, b: Books, n: NodeId) {
    && n in b.nodes && n in b.others && b.others[n].NonNegative()
    && b.nodes[n].committed == b.others[n].Plus(Share(p, b, n))
  }

  predicate CapacitySafe(p: Plan, b: Books) {
    Ledger(p, b, p.source) && Ledger(p, b, p.target) && b.holders <= {p.source, p.target}
  }

  predicate Sha256Hex(s: string) {
    |s| == 64 && forall k :: 0 <= k < |s| ==> '0' <= s[k] <= '9' || 'a' <= s[k] <= 'f' || 'A' <= s[k] <= 'F'
  }

  /** The checks of waitForBackupRecord. */
  predicate Sound(b: Backup) {
    b.status.Succeeded? && b.key != "" && Sha256Hex(b.checksum) && b.backend == "s3"
  }

  predicate BackedUp(s: Service) { s.backup == "database" || s.backup == "volume" }

  /** The services that declare a backup, in order. */
  function Declared(services: seq<Service>): seq<Service> {
    if services == [] then []
    else (if BackedUp(services[0]) then [services[0]] else []) + Declared(services[1..])
  }

  /** A backup of service s, made on the source. */
  predicate MadeFor(p: Plan, b: Backup, s: Service) {
    b.service == s.name && b.kind == s.backup && b.node == p.source
  }

  /** Restores go one per declaring service, in order, from sound backups made on the source. */
  predicate RestoresOrdered(p: Plan, k: Work) {
    var d := Declared(p.services);
    && |k.restored| <= |k.restoreSent| <= |d|
    && k.restored == k.restoreSent[..|k.restored|]
    && (forall i :: 0 <= i < |k.restoreSent| ==>
          Sound(k.restoreSent[i].record) && MadeFor(p, k.restoreSent[i].record, d[i])
              && k.restoreSent[i].id in k.backedUp)
    && (forall i, j :: 0 <= i < j < |k.restoreSent| ==> k.restoreSent[i].id != k.restoreSent[j].id)
  }

  predicate AllRestored(p: Plan, k: Work) { |k.restored| == |Declared(p.services)| }

  predicate ForwardsTo(caddy: map<Host, Handler>, n: NodeId) {
    exists h :: h in caddy && caddy[h].Proxy? && caddy[h].node == n
  }

  /** Neither Caddy nor any enabled row leads to the node. */
  predicate Unreachable(v: View, n: NodeId) {
    && (forall h :: h in v.caddy && v.caddy[h].Proxy? ==> v.caddy[h].node != n)
    && (forall h :: h in v.rows && !v.rows[h].status.Disabled? ==> v.rows[h].node != n)
  }

  /** Each stage is entered only after the one before was reported done. */
  predicate StagesOrdered(k: Work) {
    && (k.provisionTried ==> k.stopped) && (k.provisioned ==> k.provisionTried)
    && (k.restoreSent != [] || k.resumeTried ==> k.provisioned) && (k.resumed ==> k.resumeTried)
  }

  predicate DataSafe(p: Plan, l: Life, k: Work) {
    && RestoresOrdered(p, k) && StagesOrdered(k) && (l.assignee == p.target ==> k.resumed)
    && (k.resumeTried || l.assignee == p.target ==> AllRestored(p, k))
    && (k.sourceRemovalTried ==> TargetServing(p, l))
    && (k.sourceRemoved ==> k.sourceRemovalTried)
    && k.backedUp <= k.dispatched <= k.made
  }

  /** A healthy report stored after the assignment came from the assigned node. */
  predicate ClockSane(clock: Time, l: Life, r: Report) {
    && l.assignedAt <= clock && r.at <= clock
    && (l.restartedAt.Some? ==> l.restartedAt.value <= clock)
    && (forall n :: n in l.healthyAt ==> l.healthyAt[n] <= clock)
    && (r.healthy && r.at > l.assignedAt ==> l.assignee in l.healthyAt && l.healthyAt[l.assignee] >= r.at)
  }

  /** After the cutover, and until the operation settles, Caddy serves exactly what the cutover loaded. */
  predicate PromiseKept(running: bool, step: Step, v: View, promised: Option<map<Host, Handler>>) {
    promised.Some? && running ==>
      CarriesTraffic(step) && v.caddy == promised.value && InstanceConfig(v.rows, false) == promised.value
  }

  /** Nothing was forwarded between the first backup and the resume of the target. */
  predicate Sealed(k: Work, exposed: bool, caddy: map<Host, Handler>) {
    && (k.made != {} && !k.resumeTried && !Closed(caddy) ==> exposed)
    && (k.resumeTried ==> !exposed)
  }

  /** The coordinator's records exist, and stay pending until their backup is dispatched. */
  predicate RecordsKept(k: Work, m: map<BackupId, Backup>) {
    forall id :: id in k.made ==> id in m && (m[id].status.BackupPending? || id in k.dispatched)
  }

  /** What Caddy has shown of the target fits its state; nothing leads to a workload that is being removed. */
  predicate ReachSafe(p: Plan, assignee: NodeId, v: View, k: Work, seen: bool) {
    && (ForwardsTo(v.caddy, p.target) ==> seen)
    && (seen ==> assignee == p.target && !k.targetRemovalTried)
    && (k.targetRemovalTried ==> Unreachable(v, p.target))
    && (k.sourceRemovalTried ==> Unreachable(v, p.source))
  }

  /** What holds in every state that anyone can observe during a migration. */
  predicate Sane(p: Plan, w: World) {
    && p.source != p.target && p.tier.NonNegative() && w.life.assignee in {p.source, p.target}
    && ClockSane(w.clock, w.life, w.report)
    && TrafficSafe(p, w.life, w.view)
    && CapacitySafe(p, w.books) && (w.life.assignee in w.books.holders || AssignmentLost(w.work))
    && DataSafe(p, w.life, w.work)
    && ReachSafe(p, w.life.assignee, w.view, w.work, w.traffic.targetSeen)
    && RecordsKept(w.work, w.backups) && Sealed(w.work, w.traffic.exposed, w.view.caddy)
    && PromiseKept(w.opRunning, w.opStep, w.view, w.traffic.promised)
  }

  /** When a step may give capacity back. */
  predicate LawfulRelease(p: Plan, w: World, w': World) {
    && (p.source in w.books.holders && p.source !in w'.books.holders ==>
          TargetServing(p, w.life) && w.work.sourceRemoved && p.target in w.books.holders)
    && (p.target in w.books.holders && p.target !in w'.books.holders ==>
          && (w.life.assignee == p.source || AssignmentLost(w.work))
          && (w.work.provisionTried ==> w.work.targetRemoved))
  }

  /** History only grows; nothing is restored once the target has been resumed. */
  predicate Remembers(k: Work, k': Work) {
    && k.made <= k'.made && k.dispatched <= k'.dispatched && k.backedUp <= k'.backedUp
    && (k.stopped ==> k'.stopped) && (k.provisionTried ==> k'.provisionTried) && (k.provisioned ==> k'.provisioned)
    && k.restoreSent <= k'.restoreSent && k.restored <= k'.restored
    && (k.resumeTried ==> k'.resumeTried && k'.restoreSent == k.restoreSent) && (k.resumed ==> k'.resumed)
    && (k.targetRemovalTried ==> k'.targetRemovalTried) && (k.targetRemoved ==> k'.targetRemoved)
    && (k.sourceRemovalTried ==> k'.sourceRemovalTried) && (k.sourceRemoved ==> k'.sourceRemoved)
    && (k.assignment.Some? ==> k'.assignment == k.assignment)
  }

  /** Records are never deleted and follow their life cycle; those the coordinator makes are new and pending. */
  predicate FreshRecords(w: World, w': World) {
    && BackupsFollow(w.backups, w'.backups)
    && forall id :: id in w'.work.made && id !in w.work.made ==>
         id !in w.backups && id in w'.backups && w'.backups[id].status.BackupPending?
  }

  predicate Fair(p: Plan, w: World, w': World) {
    && LawfulRelease(p, w, w') && Remembers(w.work, w'.work) && FreshRecords(w, w')
    && (w.traffic.targetSeen ==> w'.traffic.targetSeen) && (w.traffic.exposed ==> w'.traffic.exposed)
  }

  // ---- The log ----

  /** What the log determines: the columns and counters that only the coordinator writes, and its history. */
  datatype Deeds = Deeds(
    paused: bool, restartedAt: Option<Time>, assignee: NodeId, assignedAt: Time, holders: set<NodeId>, work: Work)

  function DeedsOf(w: World): Deeds {
    Deeds(w.life.paused, w.life.restartedAt, w.life.assignee, w.life.assignedAt, w.books.holders, w.work)
  }

  function Put(w: World, d: Deeds): World {
    w.(life := w.life.(paused := d.paused, restartedAt := d.restartedAt, assignee := d.assignee,
        assignedAt := d.assignedAt),
       books := w.books.(holders := d.holders),
       work := d.work)
  }

  function Ids(sent: Option<Sent>): set<BackupId> { if sent.Some? then {sent.value.id} else {} }

  function Sends(sent: Option<Sent>): seq<Sent> { if sent.Some? then [sent.value] else [] }

  predicate Names(e: Entry, t: Task, n: NodeId) { e.task == t && e.node == n }

  /** What dispatching a task already means, whatever becomes of it. */
  function Begun(p: Plan, d: Deeds, e: Entry): Deeds {
    var k := d.work;
    d.(paused := d.paused || Names(e, PauseTask, p.source),
       work := k.(
         dispatched := if Names(e, BackUpTask, p.source) then k.dispatched + Ids(e.sent) else k.dispatched,
         provisionTried := k.provisionTried || Names(e, ProvisionTask, p.target),
         restoreSent := if Names(e, RestoreTask, p.target) then k.restoreSent + Sends(e.sent) else k.restoreSent,
         resumeTried := k.resumeTried || Names(e, ResumeTask, p.target),
         targetRemovalTried := k.targetRemovalTried || Names(e, DeprovisionTask, p.target),
         sourceRemovalTried := k.sourceRemovalTried || Names(e, DeprovisionTask, p.source)))
  }

  /** What a reply means for a task that was dispatched or a write that was sent. */
  function Ended(p: Plan, d: Deeds, e: Entry, r: Reply): Deeds {
    var k := d.work;
    var assigns := r.Applied() && e.task.AssignWrite?;
    d.(restartedAt := if r.Done? && Names(e, StartTask, p.source) then Some(e.at) else d.restartedAt,
       assignee := if assigns then e.node else d.assignee,
       assignedAt := if assigns then e.at else d.assignedAt,
       holders := if r.Applied() && Names(e, ReserveWrite, p.target) then d.holders + {p.target}
                  else if r.Applied() && e.task.ReleaseWrite? then d.holders - {e.node} else d.holders,
       work := k.(
         made := if r.Applied() && e.task.RecordWrite? then k.made + Ids(e.sent) else k.made,
         backedUp := if r.Done? && Names(e, BackUpTask, p.source) then k.backedUp + Ids(e.sent) else k.backedUp,
         stopped := k.stopped || (r.Done? && Names(e, PauseTask, p.source)),
         provisioned := k.provisioned || (r.Done? && Names(e, ProvisionTask, p.target)),
         resumed := k.resumed || (r.Done? && Names(e, ResumeTask, p.target)),
         restored := if r.Done? && Names(e, RestoreTask, p.target) then k.restored + Sends(e.sent) else k.restored,
         targetRemoved := k.targetRemoved || (r.Done? && Names(e, DeprovisionTask, p.target)),
         sourceRemoved := k.sourceRemoved || (r.Done? && Names(e, DeprovisionTask, p.source)),
         reserve := if Names(e, ReserveWrite, p.target) then Some(r) else k.reserve,
         targetRelease := if Names(e, ReleaseWrite, p.target) then Some(r) else k.targetRelease,
         sourceRelease := if Names(e, ReleaseWrite, p.source) then Some(r) else k.sourceRelease,
         assignment := if Names(e, AssignWrite, p.target) then Some(r) else k.assignment))
  }

  function Effect(p: Plan, d: Deeds, e: Entry): Deeds {
    if e.reply.Some? then Ended(p, Begun(p, d, e), e, e.reply.value) else Begun(p, d, e)
  }

  /** Nothing has been done yet. */
  const IDLE := Work({}, {}, {}, false, false, false, [], [], false, false, false, false, false, false, None, None,
      None, None)

  const UNSEEN := Traffic(false, false, None)

  function Replay(p: Plan, log: Log): Deeds {
    if log == [] then Deeds(false, None, p.source, p.since, {p.source}, IDLE)
    else Effect(p, Replay(p, log[..|log| - 1]), log[|log| - 1])
  }

  /** The coordinator's columns, reservations and history are exactly what the log says. */
  predicate Accounted(p: Plan, w: World) { DeedsOf(w) == Replay(p, w.log) }

  predicate Idle(log: Log) { log == [] || log[|log| - 1].reply.Some? }

  /** The log gains one entry, or its last entry gains a reply; writes have theirs at once. */
  predicate LogFollows(w: World, w': World) {
    var a, b := w.log, w'.log;
    || b == a
    || (|b| == |a| + 1 && b[..|a|] == a && Idle(a) && b[|a|].at == w.clock
        && (b[|a|].reply.Some? <==> IsWrite(b[|a|].task)))
    || (|b| == |a| > 0 && !Idle(a) && Idle(b) && b[..|a| - 1] == a[..|a| - 1]
        && b[|a| - 1] == a[|a| - 1].(at := w.clock, reply := b[|a| - 1].reply))
  }

  predicate Safe(p: Plan, w: World) { Sane(p, w) && Accounted(p, w) }

  predicate Lawful(p: Plan, w: World, w': World) { Fair(p, w, w') && LogFollows(w, w') }

  // ---- What the log says ----

  /** A task was dispatched to the node. */
  predicate Attempted(log: Log, t: Task, n: NodeId) { exists i :: 0 <= i < |log| && Names(log[i], t, n) }

  /** And a task of that kind was reported done. */
  predicate Achieved(log: Log, t: Task, n: NodeId) {
    exists i :: 0 <= i < |log| && Names(log[i], t, n) && log[i].reply == Some(Done)
  }

  /** The same for one record. */
  predicate AttemptedFor(log: Log, t: Task, n: NodeId, id: BackupId) {
    exists i :: 0 <= i < |log| && Names(log[i], t, n) && id in Ids(log[i].sent)
  }

  predicate AchievedFor(log: Log, t: Task, n: NodeId, id: BackupId) {
    exists i :: 0 <= i < |log| && Names(log[i], t, n) && id in Ids(log[i].sent) && log[i].reply == Some(Done)
  }

  lemma LastEntry(log: Log, t: Task, n: NodeId)
    requires log != []
    ensures var init, e := log[..|log| - 1], log[|log| - 1];
            && (Attempted(log, t, n) <==> Attempted(init, t, n) || Names(e, t, n))
            && (Achieved(log, t, n) <==> Achieved(init, t, n) || (Names(e, t, n) && e.reply == Some(Done)))
  {
    var init := log[..|log| - 1];
    assert forall i :: 0 <= i < |init| ==> init[i] == log[i];
  }

  lemma LastEntryFor(log: Log, t: Task, n: NodeId, id: BackupId)
    requires log != []
    ensures var init, e := log[..|log| - 1], log[|log| - 1];
            && (AttemptedFor(log, t, n, id) <==> AttemptedFor(init, t, n, id) || (Names(e, t, n) && id in Ids(e.sent)))
            && (AchievedFor(log, t, n, id) <==>
                  AchievedFor(init, t, n, id) || (Names(e, t, n) && id in Ids(e.sent) && e.reply == Some(Done)))
  {
    var init := log[..|log| - 1];
    assert forall i :: 0 <= i < |init| ==> init[i] == log[i];
  }

  /** How one entry changes the flags. */
  lemma EffectFlags(p: Plan, d: Deeds, e: Entry)
    requires p.source != p.target
    ensures var d' := Effect(p, d, e); var done := e.reply == Some(Done);
            && (d'.paused <==> d.paused || Names(e, PauseTask, p.source))
            && (d'.work.stopped <==> d.work.stopped || (Names(e, PauseTask, p.source) && done))
            && (d'.work.provisioned <==> d.work.provisioned || (Names(e, ProvisionTask, p.target) && done))
            && (d'.work.resumed <==> d.work.resumed || (Names(e, ResumeTask, p.target) && done))
            && (d'.restartedAt.Some? <==> d.restartedAt.Some? || (Names(e, StartTask, p.source) && done))
            && (d'.work.provisionTried <==> d.work.provisionTried || Names(e, ProvisionTask, p.target))
            && (d'.work.resumeTried <==> d.work.resumeTried || Names(e, ResumeTask, p.target))
            && (d'.work.targetRemovalTried <==> d.work.targetRemovalTried || Names(e, DeprovisionTask, p.target))
            && (d'.work.targetRemoved <==> d.work.targetRemoved || (Names(e, DeprovisionTask, p.target) && done))
            && (d'.work.sourceRemovalTried <==> d.work.sourceRemovalTried || Names(e, DeprovisionTask, p.source))
            && (d'.work.sourceRemoved <==> d.work.sourceRemoved || (Names(e, DeprovisionTask, p.source) && done))
  {
  }

  /** The flags mean that the log holds such an entry. */
  lemma {:induction false} FlagsMean(p: Plan, log: Log)
    requires p.source != p.target
    ensures var d := Replay(p, log);
            && (d.paused <==> Attempted(log, PauseTask, p.source))
            && (d.work.stopped <==> Achieved(log, PauseTask, p.source))
            && (d.work.provisioned <==> Achieved(log, ProvisionTask, p.target))
            && (d.work.resumed <==> Achieved(log, ResumeTask, p.target))
            && (d.restartedAt.Some? <==> Achieved(log, StartTask, p.source))
            && (d.work.provisionTried <==> Attempted(log, ProvisionTask, p.target))
            && (d.work.resumeTried <==> Attempted(log, ResumeTask, p.target))
            && (d.work.targetRemovalTried <==> Attempted(log, DeprovisionTask, p.target))
            && (d.work.targetRemoved <==> Achieved(log, DeprovisionTask, p.target))
            && (d.work.sourceRemovalTried <==> Attempted(log, DeprovisionTask, p.source))
            && (d.work.sourceRemoved <==> Achieved(log, DeprovisionTask, p.source))
  {
    hide Effect, Attempted, Achieved, Names;
    if log == [] {
      NothingDone();
    } else {
      FlagsMean(p, log[..|log| - 1]);
      EffectFlags(p, Replay(p, log[..|log| - 1]), log[|log| - 1]);
      LastEntry(log, PauseTask, p.source);
      LastEntry(log, StartTask, p.source);
      LastEntry(log, ProvisionTask, p.target);
      LastEntry(log, ResumeTask, p.target);
      LastEntry(log, DeprovisionTask, p.target);
      LastEntry(log, DeprovisionTask, p.source);
    }
  }

  lemma NothingDone()
    ensures forall t, n :: !Attempted([], t, n) && !Achieved([], t, n)
  {
  }

  predicate HasId(sent: seq<Sent>, id: BackupId) { exists i :: 0 <= i < |sent| && sent[i].id == id }

  lemma EffectBackups(p: Plan, d: Deeds, e: Entry, id: BackupId)
    ensures var k, k' := d.work, Effect(p, d, e).work; var done := e.reply == Some(Done);
            && (id in k'.dispatched <==> id in k.dispatched || (Names(e, BackUpTask, p.source) && id in Ids(e.sent)))
            && (id in k'.backedUp <==>
                id in k.backedUp || (Names(e, BackUpTask, p.source) && id in Ids(e.sent) && done))
  {
    hide Names, Ids, Sends;
  }

  lemma EffectRestores(p: Plan, d: Deeds, e: Entry, id: BackupId)
    ensures var k, k' := d.work, Effect(p, d, e).work; var done := e.reply == Some(Done);
            && (HasId(k'.restoreSent, id) <==>
                HasId(k.restoreSent, id) || (Names(e, RestoreTask, p.target) && id in Ids(e.sent)))
            && (HasId(k'.restored, id) <==>
                HasId(k.restored, id) || (Names(e, RestoreTask, p.target) && id in Ids(e.sent) && done))
  {
    hide Names, HasId, Ids, Sends;
    HasIdSplit(d.work.restoreSent, e.sent, id);
    HasIdSplit(d.work.restored, e.sent, id);
  }

  lemma HasIdSplit(sent: seq<Sent>, last: Option<Sent>, id: BackupId)
    ensures HasId(sent + Sends(last), id) <==> HasId(sent, id) || id in Ids(last)
  {
    var all := sent + Sends(last);
    if HasId(sent, id) {
      var i :| 0 <= i < |sent| && sent[i].id == id;
      assert all[i].id == id;
    }
    if id in Ids(last) { assert all[|sent|].id == id; }
  }

  /** A record was backed up, sent or restored exactly when the log holds such an entry for it. */
  lemma {:induction false} RecordsMean(p: Plan, log: Log, id: BackupId)
    ensures var k := Replay(p, log).work;
            && (id in k.dispatched <==> AttemptedFor(log, BackUpTask, p.source, id))
            && (id in k.backedUp <==> AchievedFor(log, BackUpTask, p.source, id))
            && (HasId(k.restoreSent, id) <==> AttemptedFor(log, RestoreTask, p.target, id))
            && (HasId(k.restored, id) <==> AchievedFor(log, RestoreTask, p.target, id))
  {
    if log != [] {
      hide Effect, AttemptedFor, AchievedFor, Names, HasId, Ids;
      RecordsMean(p, log[..|log| - 1], id);
      EffectBackups(p, Replay(p, log[..|log| - 1]), log[|log| - 1], id);
      EffectRestores(p, Replay(p, log[..|log| - 1]), log[|log| - 1], id);
      LastEntryFor(log, BackUpTask, p.source, id);
      LastEntryFor(log, RestoreTask, p.target, id);
    }
  }

  lemma EffectAssignment(p: Plan, d: Deeds, e: Entry)
    ensures var k, k' := d.work, Effect(p, d, e).work;
            k'.assignment == if Names(e, AssignWrite, p.target) && e.reply.Some? then e.reply else k.assignment
    ensures var k, k' := d.work, Effect(p, d, e).work;
            k'.reserve == if Names(e, ReserveWrite, p.target) && e.reply.Some? then e.reply else k.reserve
    ensures var k, k' := d.work, Effect(p, d, e).work;
            k'.targetRelease == if Names(e, ReleaseWrite, p.target) && e.reply.Some? then e.reply else k.targetRelease
  {
  }

  /** The reply to the last write of that kind. */
  function LastReply(log: Log, t: Task, n: NodeId): Option<Reply> {
    if log == [] then None
    else
      var e := log[|log| - 1];
      if Names(e, t, n) && e.reply.Some? then e.reply else LastReply(log[..|log| - 1], t, n)
  }

  /** What is noted of a write is the reply in the log. */
  lemma {:induction false} WritesMean(p: Plan, log: Log)
    ensures var k := Replay(p, log).work;
            && k.assignment == LastReply(log, AssignWrite, p.target)
            && k.reserve == LastReply(log, ReserveWrite, p.target)
            && k.targetRelease == LastReply(log, ReleaseWrite, p.target)
  {
    if log != [] {
      hide Effect, Names;
      WritesMean(p, log[..|log| - 1]);
      EffectAssignment(p, Replay(p, log[..|log| - 1]), log[|log| - 1]);
    }
  }

  lemma {:induction false} LastReplyLogged(log: Log, t: Task, n: NodeId)
    ensures LastReply(log, t, n).Some? ==>
              exists i :: 0 <= i < |log| && Names(log[i], t, n) && log[i].reply == LastReply(log, t, n)
  {
    if log != [] {
      hide Names;
      LastReplyLogged(log[..|log| - 1], t, n);
      assert forall i :: 0 <= i < |log| - 1 ==> log[..|log| - 1][i] == log[i];
    }
  }

  // ---- Runs ----

  /** Everything observed during a run, in order: each state is safe and each change lawful. */
  ghost predicate LawfulRun(p: Plan, run: seq<World>) {
    && run != [] && Safe(p, run[|run| - 1])
    && (|run| > 1 ==> LawfulRun(p, run[..|run| - 1]) && Lawful(p, run[|run| - 2], run[|run| - 1]))
  }

  lemma {:induction false} ExtendRun(p: Plan, run: seq<World>, w: World)
    requires LawfulRun(p, run) && Safe(p, w) && Lawful(p, run[|run| - 1], w)
    ensures LawfulRun(p, run + [w])
  {
    hide Safe, Lawful;
    assert (run + [w])[..|run|] == run;
  }

  lemma {:induction false} LawfulEverywhere(p: Plan, run: seq<World>, k: nat)
    requires LawfulRun(p, run) && k < |run|
    ensures Safe(p, run[k]) && Sane(p, run[k])
    ensures k + 1 < |run| ==> Lawful(p, run[k], run[k + 1]) && Fair(p, run[k], run[k + 1])
  {
    hide Sane, Fair, Accounted, LogFollows;
    if k + 1 < |run| {
      LawfulEverywhere(p, run[..|run| - 1], k);
    }
  }

  /**
  Over a whole run: once Caddy has forwarded to the target, the instance stays assigned to it and the
  target's workload is never removed; the source's is removed only with the target serving.
  */
  lemma {:induction false} TrafficNeverStranded(p: Plan, run: seq<World>, i: nat, j: nat)
    requires LawfulRun(p, run) && i <= j < |run|
    requires ForwardsTo(run[i].view.caddy, p.target)
    ensures run[j].life.assignee == p.target && !Attempted(run[j].log, DeprovisionTask, p.target)
    ensures run[j].traffic.targetSeen
    decreases j
  {
    hide Safe, Attempted, Lawful, LawfulRun, LawfulRelease, FreshRecords, Remembers, TrafficSafe, CapacitySafe;
    hide DataSafe, ClockSane, RecordsKept, Sealed, PromiseKept, Unreachable;
    LawfulEverywhere(p, run, i);
    LawfulEverywhere(p, run, j);
    RemovedMeans(p, run[j]);
    if i < j {
      TrafficNeverStranded(p, run, i, j - 1);
      LawfulEverywhere(p, run, j - 1);
    }
  }

  /** Every record that the coordinator made is absent from the first state of the run. */
  lemma {:induction false} MadeInThisRun(p: Plan, run: seq<World>, k: nat, id: BackupId)
    requires LawfulRun(p, run) && k < |run| && run[0].work.made == {} && id in run[k].work.made
    ensures id !in run[0].backups
    decreases k
  {
    hide Safe, Lawful, Sane, LawfulRun, LawfulRelease, Remembers;
    if id in run[k - 1].work.made { MadeInThisRun(p, run, k - 1, id); } else {
      LawfulEverywhere(p, run, k - 1);
      if id in run[0].backups { RecordsStay(p, run, k - 1, id); }
    }
  }

  lemma {:induction false} RecordsStay(p: Plan, run: seq<World>, k: nat, id: BackupId)
    requires LawfulRun(p, run) && k < |run| && id in run[0].backups
    ensures id in run[k].backups
    decreases k
  {
    hide Safe, Lawful, Sane, LawfulRun, LawfulRelease;
    if k > 0 {
      RecordsStay(p, run, k - 1, id);
      LawfulEverywhere(p, run, k - 1);
    }
  }

  lemma {:induction false} SentStays(p: Plan, run: seq<World>, i: nat, j: nat)
    requires LawfulRun(p, run) && i <= j < |run|
    ensures run[i].work.restoreSent <= run[j].work.restoreSent
    ensures run[i].work.resumeTried ==> run[j].work.resumeTried && run[j].work.restoreSent == run[i].work.restoreSent
    decreases j
  {
    hide Safe, Lawful, Sane, LawfulRun, LawfulRelease;
    if i < j {
      SentStays(p, run, i, j - 1);
      LawfulEverywhere(p, run, j - 1);
    }
  }

  /** One sound backup per declaring service, made on the source: its backup and its restore were both reported done. */
  predicate HasItsData(p: Plan, w: World) {
    var k, d := w.work, Declared(p.services);
    && k.restored == k.restoreSent && |k.restored| == |d|
    && (forall n :: 0 <= n < |d| ==> Sound(k.restored[n].record) && MadeFor(p, k.restored[n].record, d[n]))
    && (forall n, m :: 0 <= n < m < |d| ==> k.restored[n].id != k.restored[m].id)
    && (forall n :: 0 <= n < |d| ==>
          && AchievedFor(w.log, BackUpTask, p.source, k.restored[n].id)
          && AchievedFor(w.log, RestoreTask, p.target, k.restored[n].id))
  }

  lemma SafeHasData(p: Plan, w: World)
    requires Safe(p, w) && (Attempted(w.log, ResumeTask, p.target) || w.life.assignee == p.target)
    ensures HasItsData(p, w)
    ensures forall n :: 0 <= n < |w.work.restored| ==> w.work.restored[n].id in w.work.made
    ensures forall id :: AttemptedFor(w.log, RestoreTask, p.target, id) ==> HasId(w.work.restored, id)
  {
    hide Attempted, AttemptedFor, AchievedFor, Replay, Sound, MadeFor, Declared;
    hide TrafficSafe, ClockSane, CapacitySafe, ReachSafe, PromiseKept, TargetServing;
    FlagsMean(p, w.log);
    forall n | 0 <= n < |w.work.restored|
      ensures AchievedFor(w.log, BackUpTask, p.source, w.work.restored[n].id)
      ensures AchievedFor(w.log, RestoreTask, p.target, w.work.restored[n].id)
    {
      RecordsMean(p, w.log, w.work.restored[n].id);
    }
    forall id | AttemptedFor(w.log, RestoreTask, p.target, id) ensures HasId(w.work.restored, id) {
      RecordsMean(p, w.log, id);
    }
  }

  /**
  Over a whole run: when the target has been resumed or assigned, it has been given exactly one sound
  backup of each declaring service. Each was made on the source and in this run, by a backup that was
  reported done, and restored on the target by a restore that was reported done. No other record was
  sent to it, and from a resume on none is sent at all.
  */
  lemma TargetHasItsData(p: Plan, run: seq<World>, i: nat)
    requires LawfulRun(p, run) && run[0].work == IDLE && i < |run|
    requires Attempted(run[i].log, ResumeTask, p.target) || run[i].life.assignee == p.target
    ensures HasItsData(p, run[i])
    ensures forall n :: 0 <= n < |run[i].work.restored| ==> run[i].work.restored[n].id !in run[0].backups
    ensures forall id :: AttemptedFor(run[i].log, RestoreTask, p.target, id) ==> HasId(run[i].work.restored, id)
    ensures Attempted(run[i].log, ResumeTask, p.target) ==>
              forall j :: i <= j < |run| ==> run[j].work.restoreSent == run[i].work.restored
  {
    hide Safe, Sane, Lawful, Fair, HasItsData, Attempted, AttemptedFor, LawfulRun, HasId;
    LawfulEverywhere(p, run, i);
    SafeHasData(p, run[i]);
    var k := run[i].work;
    forall n | 0 <= n < |k.restored| ensures k.restored[n].id !in run[0].backups {
      MadeInThisRun(p, run, i, k.restored[n].id);
    }
    if Attempted(run[i].log, ResumeTask, p.target) {
      ResumedMeans(p, run[i]);
      forall j | i <= j < |run| ensures run[j].work.restoreSent == k.restored {
        SentStays(p, run, i, j);
        AllSent(p, run[i]);
      }
    }
  }

  lemma ResumedMeans(p: Plan, w: World)
    requires Safe(p, w)
    ensures w.work.resumeTried <==> Attempted(w.log, ResumeTask, p.target)
  {
    hide Attempted, Replay;
    FlagsMean(p, w.log);
  }

  lemma AllSent(p: Plan, w: World)
    requires HasItsData(p, w)
    ensures w.work.restoreSent == w.work.restored
  {
    hide AchievedFor;
  }

  /**
  Over a whole run: no stage is entered before the one it needs was reported done. The target is
  provisioned after the pause of the source, given data after its provisioning, and assigned or forwarded
  to after its resume; and the source's workload is removed only then.
  */
  lemma StagesInOrder(p: Plan, run: seq<World>, i: nat)
    requires LawfulRun(p, run) && i < |run|
    ensures var log := run[i].log;
            && (Attempted(log, ProvisionTask, p.target) ==> Achieved(log, PauseTask, p.source))
            && (forall id :: AttemptedFor(log, RestoreTask, p.target, id) ==> Achieved(log, ProvisionTask, p.target))
            && (Attempted(log, ResumeTask, p.target) ==> Achieved(log, ProvisionTask, p.target))
            && (Achieved(log, ProvisionTask, p.target) ==> Achieved(log, PauseTask, p.source))
            && (run[i].life.assignee == p.target || ForwardsTo(run[i].view.caddy, p.target) ==>
                Achieved(log, ResumeTask, p.target))
            && (Attempted(log, DeprovisionTask, p.source) ==> Achieved(log, ResumeTask, p.target))
  {
    hide Attempted, Achieved, AttemptedFor, Replay, LawfulRun, ForwardsTo, TrafficSafe, CapacitySafe, ClockSane;
    hide RecordsKept, PromiseKept, Sealed;
    LawfulEverywhere(p, run, i);
    FlagsMean(p, run[i].log);
    forall id | AttemptedFor(run[i].log, RestoreTask, p.target, id) ensures run[i].work.restoreSent != [] {
      RecordsMean(p, run[i].log, id);
    }
  }

  /**
  Over a whole run: if the target is ever resumed, nothing was forwarded from the first backup record until
  then, so no public write is lost.
  */
  lemma NoWriteLost(p: Plan, run: seq<World>, i: nat, j: nat)
    requires LawfulRun(p, run) && i <= j < |run| && Attempted(run[j].log, ResumeTask, p.target)
    requires run[i].work.made != {} && !Attempted(run[i].log, ResumeTask, p.target)
    ensures Closed(run[i].view.caddy)
  {
    hide Safe, Attempted, Lawful, Fair, LawfulRun, TrafficSafe, CapacitySafe, DataSafe, ClockSane, RecordsKept;
    hide PromiseKept, ReachSafe;
    LawfulEverywhere(p, run, i);
    ResumedMeans(p, run[i]);
    ResumedMeans(p, run[j]) by { LawfulEverywhere(p, run, j); }
    LawfulEverywhere(p, run, j);
    if run[i].traffic.exposed { ExposedStays(p, run, i, j); }
  }

  lemma {:induction false} ExposedStays(p: Plan, run: seq<World>, i: nat, j: nat)
    requires LawfulRun(p, run) && i <= j < |run| && run[i].traffic.exposed
    ensures run[j].traffic.exposed
    decreases j
  {
    hide Safe, Lawful, Sane, LawfulRun, LawfulRelease;
    if i < j {
      ExposedStays(p, run, i, j - 1);
      LawfulEverywhere(p, run, j - 1);
    }
  }

  /**
  The source gives up its reservation only in a state where the target serves and holds one, and after
  the removal of the source's workload was reported done.
  */
  lemma {:induction false} SourceReleasedLast(p: Plan, run: seq<World>, i: nat, j: nat) returns (k: nat)
    requires LawfulRun(p, run) && i <= j < |run| && p.source in run[i].books.holders
    requires p.source !in run[j].books.holders
    ensures i <= k < j && TargetServing(p, run[k].life) && p.target in run[k].books.holders
    ensures Achieved(run[k].log, DeprovisionTask, p.source)
    decreases j
  {
    hide Safe, Lawful, Sane, LawfulRun, Remembers, FreshRecords, Achieved, TargetServing;
    LawfulEverywhere(p, run, j - 1);
    if p.source in run[j - 1].books.holders {
      RemovedMeans(p, run[j - 1]);
      return j - 1;
    }
    k := SourceReleasedLast(p, run, i, j - 1);
  }

  lemma RemovedMeans(p: Plan, w: World)
    requires Safe(p, w)
    ensures w.work.sourceRemoved <==> Achieved(w.log, DeprovisionTask, p.source)
    ensures w.work.targetRemoved <==> Achieved(w.log, DeprovisionTask, p.target)
    ensures w.work.provisionTried <==> Attempted(w.log, ProvisionTask, p.target)
    ensures w.work.targetRemovalTried <==> Attempted(w.log, DeprovisionTask, p.target)
    ensures AssignmentLost(w.work) <==> LostAssignment(p, w.log)
  {
    hide Attempted, Achieved, Replay, Names;
    FlagsMean(p, w.log);
    WritesMean(p, w.log);
  }

  /** The log shows that the assignment of the target took effect but reported an error. */
  predicate LostAssignment(p: Plan, log: Log) { LastReply(log, AssignWrite, p.target) == Some(Lost) }

  /**
  The target gives up its reservation only while the source is assigned, or after a lost assignment, and
  only after its removal was reported done if provisioning was tried.
  */
  lemma {:induction false} TargetReleasedClean(p: Plan, run: seq<World>, i: nat, j: nat) returns (k: nat)
    requires LawfulRun(p, run) && i <= j < |run| && p.target in run[i].books.holders
    requires p.target !in run[j].books.holders
    ensures i <= k < j && (run[k].life.assignee == p.source || LostAssignment(p, run[k].log))
    ensures Attempted(run[k].log, ProvisionTask, p.target) ==> Achieved(run[k].log, DeprovisionTask, p.target)
    decreases j
  {
    hide Safe, Lawful, Sane, LawfulRun, Remembers, FreshRecords, Attempted, Achieved, Names;
    LawfulEverywhere(p, run, j - 1);
    if p.target in run[j - 1].books.holders {
      RemovedMeans(p, run[j - 1]);
      return j - 1;
    }
    k := TargetReleasedClean(p, run, i, j - 1);
  }

  // ---- Where the replies come from ----

  /** Each reply in the log is the one drawn for it, the assignment of the target aside, and no draw is used twice. */
  ghost predicate Honest(p: Plan, replies: nat -> Reply, assign: Reply, log: Log) {
    && (forall i :: 0 <= i < |log| && log[i].reply.Some? ==>
          log[i].reply.value == if Names(log[i], AssignWrite, p.target) then assign else replies(log[i].draw))
    && (forall i, j :: 0 <= i < j < |log| ==> log[i].draw < log[j].draw)
  }

  /** Draws come after those of the log. */
  predicate Later(log: Log, draw: nat) { log == [] || log[|log| - 1].draw < draw }

  lemma HonestAct(p: Plan, replies: nat -> Reply, assign: Reply, log: Log, e: Entry)
    requires Honest(p, replies, assign, log) && Later(log, e.draw)
    requires e.reply.Some? ==> e.reply.value == if Names(e, AssignWrite, p.target) then assign else replies(e.draw)
    ensures Honest(p, replies, assign, log + [e]) && Later(log + [e], e.draw + 1)
  {
  }

  lemma HonestEnd(p: Plan, replies: nat -> Reply, assign: Reply, log: Log, at: Time)
    requires Honest(p, replies, assign, log) && log != [] && !IsWrite(log[|log| - 1].task)
    ensures var n := |log| - 1; var e := log[n].(at := at, reply := Some(replies(log[n].draw)));
            Honest(p, replies, assign, log[..n] + [e]) && Later(log[..n] + [e], e.draw + 1) && Idle(log[..n] + [e])
  {
  }

  lemma HonestExtends(p: Plan, replies: nat -> Reply, assign: Reply, run: seq<World>, w: World)
    requires HonestRun(p, replies, assign, run) && Honest(p, replies, assign, w.log)
    ensures HonestRun(p, replies, assign, run + [w])
  {
    hide Honest;
  }

  ghost predicate HonestRun(p: Plan, replies: nat -> Reply, assign: Reply, run: seq<World>) {
    forall k :: 0 <= k < |run| ==> Honest(p, replies, assign, run[k].log)
  }

  /** The assignment of the target was answered with its own reply. */
  lemma AssignmentAnswered(p: Plan, replies: nat -> Reply, assign: Reply, log: Log)
    requires Honest(p, replies, assign, log)
    ensures LastReply(log, AssignWrite, p.target) in {None, Some(assign)}
  {
    hide LastReply;
    LastReplyLogged(log, AssignWrite, p.target);
  }

  /** And the reservation and the release with the replies drawn for them. */
  lemma WriteAnswered(p: Plan, replies: nat -> Reply, assign: Reply, log: Log, t: Task) returns (i: nat)
    requires Honest(p, replies, assign, log) && (t.ReserveWrite? || t.ReleaseWrite?)
    requires LastReply(log, t, p.target).Some?
    ensures i < |log| && Names(log[i], t, p.target) && LastReply(log, t, p.target) == Some(replies(log[i].draw))
  {
    hide LastReply;
    LastReplyLogged(log, t, p.target);
    i :| 0 <= i < |log| && Names(log[i], t, p.target) && log[i].reply == LastReply(log, t, p.target);
  }

  /** Unless the reply to the assignment of the target was lost, the assigned node holds the tier in every state. */
  lemma AlwaysCovered(p: Plan, replies: nat -> Reply, assign: Reply, run: seq<World>, k: nat)
    requires LawfulRun(p, run) && HonestRun(p, replies, assign, run) && k < |run| && !assign.Lost?
    ensures run[k].life.assignee in run[k].books.holders && !LostAssignment(p, run[k].log)
  {
    hide Lawful, LawfulRun, Accounted, LastReply;
    LawfulEverywhere(p, run, k);
    AssignmentAnswered(p, replies, assign, run[k].log);
    RemovedMeans(p, run[k]);
  }

  /** And then the target's reservation is given back only while the source is assigned. */
  lemma ReleasedWhileAway(p: Plan, replies: nat -> Reply, assign: Reply, run: seq<World>, i: nat, j: nat)
      returns (k: nat)
    requires LawfulRun(p, run) && HonestRun(p, replies, assign, run) && !assign.Lost?
    requires i <= j < |run| && p.target in run[i].books.holders && p.target !in run[j].books.holders
    ensures i <= k < j && run[k].life.assignee == p.source
    ensures Attempted(run[k].log, ProvisionTask, p.target) ==> Achieved(run[k].log, DeprovisionTask, p.target)
  {
    hide Lawful, LawfulRun, HonestRun, Attempted, Achieved, LostAssignment;
    k := TargetReleasedClean(p, run, i, j);
    AlwaysCovered(p, replies, assign, run, k);
  }

  // ---- What runs beside the coordinator ----

  datatype Event =
    | Tick(seconds: nat)
    | HealthReport(node: NodeId, healthy: bool, boot: string)
    | Heartbeat(node: NodeId, boot: string)
    | NodePolicy(node: NodeId, row: Node)
    | OtherReserve(node: NodeId, size: Size)
    | OtherRelease(node: NodeId, size: Size)
    | BackupWrite(id: BackupId, record: Backup)
    | RouteCall(view: View)

  /** A record that has left the pending state never gains new content. */
  predicate RecordFollows(b: Backup, b': Backup) {
    && b'.service == b.service && b'.kind == b.kind && b'.node == b.node
    && (b.status.BackupPending? || b' == b || !b'.status.Succeeded?)
    && (!b.status.BackupPending? ==> !b'.status.BackupPending?)
  }

  /** The events other parts of the control plane may produce in state w. */
  predicate Allowed(w: World, e: Event) {
    match e
    case Tick(_) => true
    case HealthReport(_, _, _) => true
    case Heartbeat(_, _) => true
    case NodePolicy(node, row) => node in w.books.nodes && row.committed == w.books.nodes[node].committed
    case OtherReserve(node, size) => node in w.books.nodes && node in w.books.others && size.NonNegative()
    case OtherRelease(node, size) =>
      node in w.books.nodes && node in w.books.others && size.NonNegative() && size.AtMost(w.books.others[node])
    case BackupWrite(id, record) =>
      && (id in w.backups ==> RecordFollows(w.backups[id], record))
      && (id in w.work.made ==> id in w.work.dispatched)  // a worker reports only on what was dispatched
    case RouteCall(v) =>
      if w.opRunning then Shielded(w.view.rows, w.view.caddy, HoldsBack(w), v.rows, v.caddy)
      else Tended(w.view.rows, w.view.caddy, v.rows, v.caddy)
  }

  /** Caddy or the rows change; history notes when the target becomes reachable and when the seal is broken. */
  function Shown(p: Plan, w: World, v: View): World {
    w.(view := v, traffic := w.traffic.(
        targetSeen := w.traffic.targetSeen || ForwardsTo(v.caddy, p.target),
        exposed := w.traffic.exposed || (w.work.made != {} && !w.work.resumeTried && !Closed(v.caddy))))
  }

  function AfterBooks(b: Books, e: Event): Books
    requires e.NodePolicy? || e.OtherReserve? || e.OtherRelease?
    requires e.node in b.nodes && e.node in b.others
  {
    match e
    case NodePolicy(node, row) => b.(nodes := b.nodes[node := row])
    case OtherReserve(node, size) =>
      var r := Reserve(b.nodes[node], size);
      if r.None? then b
      else b.(nodes := b.nodes[node := r.value], others := b.others[node := b.others[node].Plus(size)])
    case OtherRelease(node, size) =>
      b.(nodes := b.nodes[node := Release(b.nodes[node], size)], others := b.others[node := b.others[node].Minus(size)])
  }

  function After(p: Plan, w: World, e: Event): World {
    match e
    case Tick(seconds) => w.(clock := w.clock + seconds)
    case HealthReport(node, healthy, boot) =>
      if node != w.life.assignee then w else
        w.(report := Report(healthy, w.clock, boot),
           tech := if w.opRunning || w.tech.StatusMigrating? then w.tech
                   else if healthy then StatusRunning else StatusFailed,
           life := if healthy then w.life.(healthyAt := w.life.healthyAt[node := w.clock]) else w.life)
    case Heartbeat(node, boot) => w.(beats := w.beats[node := Beat(w.clock, boot)])
    case BackupWrite(id, record) => w.(backups := w.backups[id := record])
    case RouteCall(v) => Shown(p, w, v)
    case _ =>
      if e.node in w.books.nodes && e.node in w.books.others then w.(books := AfterBooks(w.books, e)) else w
  }

  predicate AllDisabled(rows: map<Host, Route>) { forall h :: h in rows ==> rows[h].status.Disabled? }

  /** Nothing is forwarded and no row would let anything be forwarded. */
  predicate Quiet(v: View) { AllDisabled(v.rows) && Closed(v.caddy) }

  /** Caddy shows exactly what the rows say. */
  predicate InForce(v: View) { v.caddy == InstanceConfig(v.rows, false) }

  predicate BackupsFollow(m: map<BackupId, Backup>, m': map<BackupId, Backup>) {
    forall id :: id in m ==> id in m' && RecordFollows(m[id], m'[id])
  }

  /** Only health reports are added. */
  predicate LifeFollows(l: Life, l': Life) {
    && l' == l.(healthyAt := l'.healthyAt)
    && forall n :: n in l.healthyAt ==> n in l'.healthyAt && l.healthyAt[n] <= l'.healthyAt[n]
  }

  /** The host is enabled for node n and Caddy forwards it there. */
  predicate Reached(v: View, h: Host, n: NodeId) {
    && h in v.rows && Forwards(v.rows[h]) && v.rows[h].node == n
    && h in v.caddy && v.caddy[h].Proxy? && v.caddy[h].node == n
  }

  /** The host is disabled and Caddy does not forward it. */
  predicate Dark(v: View, h: Host) {
    h in v.rows && v.rows[h].status.Disabled? && (h in v.caddy ==> v.caddy[h].Unavailable?)
  }

  /** The saved routes are in force again: enabled hosts reach the source, disabled ones nothing. */
  predicate Serves(p: Plan, v: View, saved: map<Host, Route>) {
    forall h :: h in saved ==>
        (Forwards(saved[h]) ==> Reached(v, h, p.source)) && (saved[h].status.Disabled? ==> Dark(v, h))
  }

  /** What reconciliation can do to the view while the operation has the given state. */
  predicate ViewFollows(v: View, v': View, running: bool, step: Step) {
    && v'.rows.Keys == v.rows.Keys
    && (forall h :: h in v.rows ==> (v.rows[h].status.Disabled? <==> v'.rows[h].status.Disabled?))
    && (Quiet(v) ==> Closed(v'.caddy))
    && (running ==> InstanceConfig(v'.rows, false) == InstanceConfig(v.rows, false))
    && (running && CarriesTraffic(step) && InForce(v) ==> InForce(v'))
    && (forall h :: h in v.rows ==> v'.rows[h].node == v.rows[h].node)
    && ((running ==> CarriesTraffic(step)) ==>
        forall h :: h in v.rows && Reached(v, h, v.rows[h].node) ==> Reached(v', h, v.rows[h].node))
    && (forall h :: h in v.rows && Dark(v, h) ==> Dark(v', h))
  }

  /** The parts of the world that only the coordinator writes stay put; the rest moves forward. */
  predicate Drift(w: World, w': World) {
    && w.clock <= w'.clock
    && LifeFollows(w.life, w'.life)
    && w'.opRunning == w.opRunning && (w.opRunning ==> w'.tech == w.tech) && w'.restartRequired == w.restartRequired
    && w'.books.holders == w.books.holders
    && w'.work == w.work && w'.traffic.promised == w.traffic.promised && (w.traffic.exposed ==> w'.traffic.exposed)
    && (w.traffic.targetSeen ==> w'.traffic.targetSeen)
    && (w.work.made == {} ==> w'.traffic.exposed == w.traffic.exposed)
    && w'.view.rows.Keys == w.view.rows.Keys
    && BackupsFollow(w.backups, w'.backups) && w'.log == w.log
  }

  /** What any number of events beside the coordinator can do. */
  predicate Rely(w: World, w': World) {
    && Drift(w, w')
    && w'.opStep == w.opStep
    && ViewFollows(w.view, w'.view, w.opRunning, w.opStep)
    && (Quiet(w.view) ==> w'.traffic == w.traffic)
  }

  lemma RelyReflexive(w: World)
    ensures Rely(w, w)
  {
  }

  lemma RelyTransitive(a: World, b: World, c: World)
    requires Rely(a, b) && Rely(b, c)
    ensures Rely(a, c)
  {
    BackupsFollowTransitive(a.backups, b.backups, c.backups);
  }

  lemma BackupsFollowTransitive(a: map<BackupId, Backup>, b: map<BackupId, Backup>, c: map<BackupId, Backup>)
    requires BackupsFollow(a, b) && BackupsFollow(b, c)
    ensures BackupsFollow(a, c)
  {
  }

  /** Reconciliation of a running migration shows nothing that the rows or the previous configuration did not allow. */
  lemma ShieldedFollows(v: View, v': View, step: Step)
    requires Shielded(v.rows, v.caddy, !CarriesTraffic(step), v'.rows, v'.caddy)
    ensures ViewFollows(v, v', true, step)
  {
    PromotedConfig(v.rows, v'.rows, false);
  }

  lemma ShieldedSafe(p: Plan, l: Life, v: View, v': View, held: bool)
    requires TrafficSafe(p, l, v) && Shielded(v.rows, v.caddy, held, v'.rows, v'.caddy)
    ensures TrafficSafe(p, l, v')
    ensures forall n :: Unreachable(v, n) ==> Unreachable(v', n)
  {
  }

  lemma TendedSafe(p: Plan, l: Life, v: View, v': View)
    requires TrafficSafe(p, l, v) && Tended(v.rows, v.caddy, v'.rows, v'.caddy)
    ensures TrafficSafe(p, l, v')
    ensures forall n :: Unreachable(v, n) ==> Unreachable(v', n)
  {
  }

  lemma TendedFollows(v: View, v': View, step: Step)
    requires Tended(v.rows, v.caddy, v'.rows, v'.caddy) && v.caddy.Keys <= v.rows.Keys
    ensures ViewFollows(v, v', false, step)
  {
  }

  /** What a followed view means for the world that shows it. */
  lemma ShownRelied(p: Plan, w: World, v: View)
    requires ViewFollows(w.view, v, w.opRunning, w.opStep)
    ensures Rely(w, Shown(p, w, v))
  {
    hide InstanceConfig, CarriesTraffic;
  }

  lemma RouteCallSafe(p: Plan, w: World, v: View)
    requires Sane(p, w) && Allowed(w, RouteCall(v))
    ensures var w' := Shown(p, w, v); Sane(p, w') && Fair(p, w, w') && Rely(w, w')
  {
    hide Shielded, Tended, TrafficSafe, ViewFollows, Unreachable, Rely, Lawful, ClockSane, CapacitySafe, DataSafe;
    hide Sealed, Shown, InstanceConfig;
    TrafficKeys(p, w.life, w.view);
    if w.opRunning {
      ShieldedFollows(w.view, v, w.opStep);
      ShieldedSafe(p, w.life, w.view, v, HoldsBack(w));
      ShieldedPromise(w, v);
    } else {
      TendedSafe(p, w.life, w.view, v);
      TendedFollows(w.view, v, w.opStep);
    }
    ShownRelied(p, w, v);
    ShownSafe(p, w, v);
  }

  lemma TrafficKeys(p: Plan, l: Life, v: View)
    requires TrafficSafe(p, l, v)
    ensures v.caddy.Keys <= v.rows.Keys
  {
  }

  /** A promised configuration survives reconciliation. */
  lemma ShieldedPromise(w: World, v: View)
    requires w.opRunning && PromiseKept(true, w.opStep, w.view, w.traffic.promised)
    requires Shielded(w.view.rows, w.view.caddy, HoldsBack(w), v.rows, v.caddy)
    ensures w.traffic.promised.Some? ==>
              v.caddy == w.view.caddy && InstanceConfig(v.rows, false) == InstanceConfig(w.view.rows, false)
  {
    PromotedConfig(w.view.rows, v.rows, false);
  }

  /** A safe view is safe to show. */
  lemma ShownSafe(p: Plan, w: World, v: View)
    requires Sane(p, w) && TrafficSafe(p, w.life, v)
    requires w.work.targetRemovalTried ==> Unreachable(v, p.target)
    requires w.work.sourceRemovalTried ==> Unreachable(v, p.source)
    requires w.traffic.promised.Some? && w.opRunning ==>
              v.caddy == w.view.caddy && InstanceConfig(v.rows, false) == InstanceConfig(w.view.rows, false)
    ensures Sane(p, Shown(p, w, v)) && Fair(p, w, Shown(p, w, v))
  {
  }

  lemma BooksSafe(p: Plan, b: Books, e: Event)
    requires p.source != p.target && p.tier.NonNegative() && CapacitySafe(p, b)
    requires e.NodePolicy? || e.OtherReserve? || e.OtherRelease?
    requires e.node in b.nodes && e.node in b.others
    requires e.NodePolicy? ==> e.row.committed == b.nodes[e.node].committed
    requires !e.NodePolicy? ==> e.size.NonNegative()
    requires e.OtherRelease? ==> e.size.AtMost(b.others[e.node])
    ensures CapacitySafe(p, AfterBooks(b, e)) && AfterBooks(b, e).holders == b.holders
  {
  }

  /** More reports never make a node unfit to be forwarded to. */
  lemma LaterReports(p: Plan, l: Life, l': Life, v: View, k: Work)
    requires LifeFollows(l, l')
    ensures TrafficSafe(p, l, v) ==> TrafficSafe(p, l', v)
    ensures DataSafe(p, l, k) ==> DataSafe(p, l', k)
    ensures TargetServing(p, l) ==> TargetServing(p, l')
  {
  }

  lemma ReportSafe(p: Plan, w: World, e: Event)
    requires Sane(p, w) && e.HealthReport? && e.node == w.life.assignee
    ensures var w' := After(p, w, e); Sane(p, w') && LifeFollows(w.life, w'.life)
  {
    var w' := After(p, w, e);
    assert LifeFollows(w.life, w'.life);
    LaterReports(p, w.life, w'.life, w.view, w.work);
  }

  /** Nothing that runs beside the coordinator leaves the safe states. */
  lemma EventSafe(p: Plan, w: World, e: Event)
    requires Sane(p, w) && Allowed(w, e)
    ensures Sane(p, After(p, w, e))
  {
    match e
    case RouteCall(v) => RouteCallSafe(p, w, v);
    case HealthReport(n, _, _) => if n == w.life.assignee { ReportSafe(p, w, e); }
    case Tick(_) =>
    case Heartbeat(_, _) =>
    case BackupWrite(_, _) =>
    case _ => if e.node in w.books.others { BooksSafe(p, w.books, e); }
  }

  /** A change that leaves the view, the history and the coordinator's own columns alone is relied on. */
  lemma AsideChange(p: Plan, w: World, w': World)
    requires w' == w.(clock := w'.clock, life := w'.life, tech := w'.tech, report := w'.report, books := w'.books,
             beats := w'.beats, backups := w'.backups)
    requires w.clock <= w'.clock && LifeFollows(w.life, w'.life) && (w.opRunning ==> w'.tech == w.tech)
    requires w'.books.holders == w.books.holders && BackupsFollow(w.backups, w'.backups)
    ensures Fair(p, w, w') && Rely(w, w')
  {
  }

  lemma BackupWritten(m: map<BackupId, Backup>, id: BackupId, record: Backup)
    requires id in m ==> RecordFollows(m[id], record)
    ensures BackupsFollow(m, m[id := record])
  {
  }

  lemma ReportFollows(p: Plan, w: World, e: Event)
    requires ClockSane(w.clock, w.life, w.report) && e.HealthReport?
    ensures LifeFollows(w.life, After(p, w, e).life) && (w.opRunning ==> After(p, w, e).tech == w.tech)
  {
  }

  lemma AsideEvent(p: Plan, w: World, e: Event)
    requires ClockSane(w.clock, w.life, w.report) && Allowed(w, e) && !e.RouteCall?
    ensures Fair(p, w, After(p, w, e)) && Rely(w, After(p, w, e))
  {
    hide Fair, Rely, Reserve, Release, RecordFollows, ClockSane;
    BackupsStand(w.backups);
    if e.BackupWrite? { BackupWritten(w.backups, e.id, e.record); }
    if e.HealthReport? { ReportFollows(p, w, e); }
    AsideChange(p, w, After(p, w, e));
  }

  /** Nothing that runs beside the coordinator breaks what it relies on. */
  lemma EventRelied(p: Plan, w: World, e: Event)
    requires Sane(p, w) && Allowed(w, e)
    ensures Fair(p, w, After(p, w, e)) && Rely(w, After(p, w, e))
  {
    if e.RouteCall? {
      RouteCallSafe(p, w, e.view);
    } else {
      AsideEvent(p, w, e);
    }
  }

  /** Nothing beside the coordinator touches its log or what the log determines. */
  lemma EventDeeds(p: Plan, w: World, e: Event)
    ensures After(p, w, e).log == w.log && DeedsOf(After(p, w, e)) == DeedsOf(w)
  {
  }

  /** Any event keeps a run lawful and within what the coordinator relies on since the state base. */
  lemma EventExtends(p: Plan, run: seq<World>, base: World, e: Event)
    requires LawfulRun(p, run) && Rely(base, run[|run| - 1]) && Allowed(run[|run| - 1], e)
    ensures var w' := After(p, run[|run| - 1], e); LawfulRun(p, run + [w']) && Rely(base, w')
  {
    var w := run[|run| - 1];
    EventSafe(p, w, e);
    EventRelied(p, w, e);
    EventDeeds(p, w, e);
    LogSame(p, w, After(p, w, e));
    ExtendRun(p, run, After(p, w, e));
    RelyTransitive(base, w, After(p, w, e));
  }

  // ---- What the coordinator does ----

  lemma LogSame(p: Plan, w: World, next: World)
    requires next.log == w.log && DeedsOf(next) == DeedsOf(w)
    ensures (Accounted(p, w) ==> Accounted(p, next)) && LogFollows(w, next)
  {
    hide Replay;
  }

  /** An entry is added together with its effect. */
  lemma LogAct(p: Plan, w: World, e: Entry, next: World)
    requires Accounted(p, w) && Idle(w.log) && e.at == w.clock && (e.reply.Some? <==> IsWrite(e.task))
    requires next.log == w.log + [e] && DeedsOf(next) == Effect(p, DeedsOf(w), e)
    ensures Accounted(p, next) && LogFollows(w, next)
  {
    hide Effect;
    assert next.log[..|w.log|] == w.log;
  }

  /** The last entry gets its reply together with the effect of that. */
  lemma LogEnd(p: Plan, w: World, r: Reply, next: World)
    requires Accounted(p, w) && !Idle(w.log)
    requires var n := |w.log| - 1; var e := w.log[n].(at := w.clock, reply := Some(r));
             next.log == w.log[..n] + [e] && DeedsOf(next) == Ended(p, DeedsOf(w), e, r)
    ensures Accounted(p, next) && LogFollows(w, next)
  {
    hide Ended;
    var n := |w.log| - 1;
    var e := w.log[n].(at := w.clock, reply := Some(r));
    assert next.log[..n] == w.log[..n] && next.log[n] == e;
    var d := Replay(p, w.log[..n]);
    assert Replay(p, w.log) == Begun(p, d, w.log[n]);
    BegunAlike(p, d, w.log[n], e);
  }

  lemma BegunAlike(p: Plan, d: Deeds, e: Entry, e': Entry)
    requires e'.task == e.task && e'.node == e.node && e'.sent == e.sent
    ensures Begun(p, d, e') == Begun(p, d, e)
  {
  }

  /** The state in which the coordinator has done this. */
  function Did(p: Plan, w: World, e: Entry): World { Put(w, Effect(p, DeedsOf(w), e)).(log := w.log + [e]) }

  /** The state in which the task under way has ended with this reply. */
  function Over(p: Plan, w: World, r: Reply): World
    requires w.log != []
  {
    var n := |w.log| - 1;
    var e := w.log[n].(at := w.clock, reply := Some(r));
    Put(w, Ended(p, DeedsOf(w), e, r)).(log := w.log[..n] + [e])
  }

  lemma DidDeeds(p: Plan, w: World, e: Entry)
    ensures DeedsOf(Did(p, w, e)) == Effect(p, DeedsOf(w), e) && Did(p, w, e).log == w.log + [e]
  {
    hide Replay;
  }

  lemma OverDeeds(p: Plan, w: World, r: Reply)
    requires w.log != []
    ensures var n := |w.log| - 1; var e := w.log[n].(at := w.clock, reply := Some(r));
            DeedsOf(Over(p, w, r)) == Ended(p, DeedsOf(w), e, r) && Over(p, w, r).log == w.log[..n] + [e]
  {
  }

  /** What each task needs to be dispatched safely. */
  predicate MayBegin(p: Plan, w: World, t: Task, n: NodeId, sent: Option<Sent>) {
    match t
    case BackUpTask => n == p.source && sent.Some? && sent.value.id in w.work.made
    case PauseTask => n == p.source && Quiet(w.view)
    case ProvisionTask => n == p.target && w.work.stopped
    case RestoreTask =>
      && n == p.target && sent.Some? && w.work.provisioned && Quiet(w.view) && w.life.assignee == p.source
      && !w.work.resumeTried
      && w.work.restored == w.work.restoreSent && |w.work.restored| < |Declared(p.services)|
      && sent.value.id in w.work.backedUp && Sound(sent.value.record)
      && MadeFor(p, sent.value.record, Declared(p.services)[|w.work.restored|])
      && forall i :: 0 <= i < |w.work.restored| ==> w.work.restored[i].id != sent.value.id
    case ResumeTask => n == p.target && w.work.provisioned && AllRestored(p, w.work) && !w.traffic.exposed
    case StartTask => n == p.source && Quiet(w.view)
    case DeprovisionTask =>
      || (n == p.target && Quiet(w.view) && !w.traffic.targetSeen)
      || (n == p.source && TargetServing(p, w.life) && Unreachable(w.view, p.source))
    case _ => false
  }

  /** A change of the history alone, which keeps the data rules. */
  lemma WorkSane(p: Plan, w: World, k: Work, log: Log)
    requires Sane(p, w) && Remembers(w.work, k) && DataSafe(p, w.life, k)
    requires k.made == w.work.made && k.assignment == w.work.assignment && (k.resumeTried ==> !w.traffic.exposed)
    requires k.targetRemovalTried ==> Unreachable(w.view, p.target) && !w.traffic.targetSeen
    requires k.sourceRemovalTried ==> Unreachable(w.view, p.source)
    ensures var w' := w.(work := k, log := log); Sane(p, w') && Fair(p, w, w')
  {
    hide TrafficSafe, ClockSane, CapacitySafe, DataSafe, PromiseKept, Replay;
    hide Unreachable, ForwardsTo, Closed;
    BackupsStand(w.backups);
  }

  lemma BackupsStand(m: map<BackupId, Backup>)
    ensures BackupsFollow(m, m)
  {
  }

  /** With nothing forwarded, the source may be paused and restarted. */
  lemma PauseSane(p: Plan, w: World, paused: bool, restartedAt: Option<Time>, log: Log)
    requires Sane(p, w) && Quiet(w.view) && (restartedAt.Some? ==> restartedAt.value <= w.clock)
    ensures var w' := w.(life := w.life.(paused := paused, restartedAt := restartedAt), log := log);
            Sane(p, w') && Fair(p, w, w')
  {
    hide CapacitySafe, ReachSafe, RecordsKept, Sealed, PromiseKept, Replay;
    hide RestoresOrdered, AllRestored;
    BackupsStand(w.backups);
  }

  lemma PutWork(w: World, k: Work)
    ensures Put(w, DeedsOf(w).(work := k)) == w.(work := k)
  {
  }

  lemma PutRestart(w: World, t: Time)
    ensures Put(w, DeedsOf(w).(restartedAt := Some(t))) == w.(life := w.life.(restartedAt := Some(t)))
    ensures w.(life := w.life.(restartedAt := Some(t))) ==
            w.(life := w.life.(paused := w.life.paused, restartedAt := Some(t)))
  {
  }

  lemma PutBooks(w: World, holders: set<NodeId>, k: Work)
    ensures Put(w, DeedsOf(w).(holders := holders, work := k)) == w.(books := w.books.(holders := holders), work := k)
  {
  }

  lemma DidWork(p: Plan, w: World, e: Entry, k: Work)
    requires Effect(p, DeedsOf(w), e) == DeedsOf(w).(work := k)
    ensures Did(p, w, e) == w.(work := k, log := w.log + [e])
  {
    hide Effect, Put, DeedsOf;
    PutWork(w, k);
  }

  lemma DidPause(p: Plan, w: World, e: Entry)
    requires Effect(p, DeedsOf(w), e) == DeedsOf(w).(paused := true)
    ensures Did(p, w, e) == w.(life := w.life.(paused := true, restartedAt := w.life.restartedAt), log := w.log + [e])
  {
    hide Effect;
  }

  /** The history once the task is dispatched. */
  function WorkBegun(p: Plan, k: Work, t: Task, n: NodeId, sent: Option<Sent>): Work {
    match t
    case BackUpTask => k.(dispatched := k.dispatched + Ids(sent))
    case ProvisionTask => k.(provisionTried := true)
    case RestoreTask => k.(restoreSent := k.restoreSent + Sends(sent))
    case ResumeTask => k.(resumeTried := true)
    case DeprovisionTask => if n == p.target then k.(targetRemovalTried := true) else k.(sourceRemovalTried := true)
    case _ => k
  }

  lemma BegunWork(p: Plan, w: World, e: Entry)
    requires e.reply.None? && MayBegin(p, w, e.task, e.node, e.sent) && !e.task.PauseTask? && p.source != p.target
    ensures Effect(p, DeedsOf(w), e) == DeedsOf(w).(work := WorkBegun(p, w.work, e.task, e.node, e.sent))
  {
    hide Quiet, TargetServing, Unreachable, Sound, Declared;
  }

  /** Sending the next backup keeps the restores in order. */
  lemma RestoreBegun(p: Plan, l: Life, k: Work, next: Sent)
    requires DataSafe(p, l, k) && l.assignee == p.source && p.source != p.target && !k.resumeTried && k.provisioned
    requires k.restored == k.restoreSent && |k.restored| < |Declared(p.services)| && next.id in k.backedUp
    requires Sound(next.record) && MadeFor(p, next.record, Declared(p.services)[|k.restored|])
    requires forall i :: 0 <= i < |k.restored| ==> k.restored[i].id != next.id
    ensures var k' := k.(restoreSent := k.restoreSent + [next]); Remembers(k, k') && DataSafe(p, l, k')
  {
    hide Sound, Declared, MadeFor, TargetServing;
    assert (k.restoreSent + [next])[..|k.restored|] == k.restored;
  }

  lemma OtherBegun(p: Plan, l: Life, k: Work, t: Task, n: NodeId, sent: Option<Sent>)
    requires DataSafe(p, l, k) && !t.RestoreTask?
    requires t.BackUpTask? ==> sent.Some? && sent.value.id in k.made
    requires (t.ProvisionTask? ==> k.stopped) && (t.ResumeTask? ==> k.provisioned && AllRestored(p, k))
    requires t.DeprovisionTask? && n != p.target ==> TargetServing(p, l)
    ensures var k' := WorkBegun(p, k, t, n, sent); Remembers(k, k') && DataSafe(p, l, k')
  {
    hide Sound, Declared, MadeFor, TargetServing;
  }

  lemma WorkBegunSafe(p: Plan, w: World, e: Entry)
    requires Sane(p, w) && MayBegin(p, w, e.task, e.node, e.sent)
    ensures var k := WorkBegun(p, w.work, e.task, e.node, e.sent);
            && Remembers(w.work, k) && DataSafe(p, w.life, k)
            && k.made == w.work.made && k.assignment == w.work.assignment && (k.resumeTried ==> !w.traffic.exposed)
            && (k.targetRemovalTried ==> Unreachable(w.view, p.target) && !w.traffic.targetSeen)
            && (k.sourceRemovalTried ==> Unreachable(w.view, p.source))
  {
    hide TrafficSafe, ClockSane, CapacitySafe, DataSafe, Remembers, RecordsKept, PromiseKept;
    hide Unreachable, ForwardsTo, Closed, Sound, Declared, MadeFor, TargetServing, Quiet, AllRestored;
    if Quiet(w.view) { QuietUnreachable(w.view, p.target); }
    if e.task.RestoreTask? {
      RestoreBegun(p, w.life, w.work, e.sent.value);
    } else {
      OtherBegun(p, w.life, w.work, e.task, e.node, e.sent);
    }
  }

  lemma BeginSane(p: Plan, w: World, e: Entry)
    requires Sane(p, w) && e.reply.None? && MayBegin(p, w, e.task, e.node, e.sent)
    ensures Sane(p, Did(p, w, e)) && Fair(p, w, Did(p, w, e))
  {
    hide Did, Fair, DataSafe, Remembers, WorkBegun;
    SaneNodes(p, w);
    if e.task.PauseTask? {
      hide Sane;
      DidPause(p, w, e);
      PauseSane(p, w, true, w.life.restartedAt, w.log + [e]) by { RestartPast(p, w); }
    } else {
      hide Sane, Effect;
      BegunWork(p, w, e);
      WorkBegunSafe(p, w, e);
      DidWork(p, w, e, WorkBegun(p, w.work, e.task, e.node, e.sent));
      WorkSane(p, w, WorkBegun(p, w.work, e.task, e.node, e.sent), w.log + [e]);
    }
  }

  lemma SaneNodes(p: Plan, w: World)
    requires Sane(p, w)
    ensures p.source != p.target
  {
  }

  lemma RestartPast(p: Plan, w: World)
    requires Sane(p, w)
    ensures w.life.restartedAt.Some? ==> w.life.restartedAt.value <= w.clock
  {
  }

  /** What the task under way needs to end safely, with any reply. */
  predicate MayEnd(p: Plan, w: World) {
    && !Idle(w.log)
    && var e := w.log[|w.log| - 1];
       match e.task
       case BackUpTask => e.sent.Some? && e.sent.value.id in w.work.dispatched
       case RestoreTask =>
         && e.sent.Some? && w.work.restoreSent == w.work.restored + [e.sent.value]
       case ProvisionTask => w.work.provisionTried
       case ResumeTask => w.work.resumeTried
       case StartTask => Quiet(w.view)
       case DeprovisionTask => e.node == p.source ==> w.work.sourceRemovalTried
       case _ => !IsWrite(e.task)
  }

  /** The history once the task has ended. */
  function WorkEnded(p: Plan, k: Work, t: Task, n: NodeId, sent: Option<Sent>, r: Reply): Work {
    var source, target := r.Done? && n == p.source, r.Done? && n == p.target;
    k.(stopped := k.stopped || (source && t.PauseTask?),
       provisioned := k.provisioned || (target && t.ProvisionTask?),
       resumed := k.resumed || (target && t.ResumeTask?),
       backedUp := if source && t.BackUpTask? then k.backedUp + Ids(sent) else k.backedUp,
       restored := if target && t.RestoreTask? then k.restored + Sends(sent) else k.restored,
       targetRemoved := k.targetRemoved || (target && t.DeprovisionTask?),
       sourceRemoved := k.sourceRemoved || (source && t.DeprovisionTask?))
  }

  lemma EndedTask(p: Plan, d: Deeds, e: Entry, r: Reply)
    requires !IsWrite(e.task) && p.source != p.target
    ensures Ended(p, d, e, r) ==
            if e.task.StartTask? && e.node == p.source && r.Done? then d.(restartedAt := Some(e.at))
            else d.(work := WorkEnded(p, d.work, e.task, e.node, e.sent, r))
  {
  }

  lemma OverIs(p: Plan, w: World, r: Reply)
    requires MayEnd(p, w) && p.source != p.target
    ensures var n := |w.log| - 1; var e := w.log[n].(at := w.clock, reply := Some(r));
            Over(p, w, r) ==
            if e.task.StartTask? && e.node == p.source && r.Done?
            then w.(life := w.life.(paused := w.life.paused, restartedAt := Some(w.clock)), log := w.log[..n] + [e])
            else w.(work := WorkEnded(p, w.work, e.task, e.node, e.sent, r), log := w.log[..n] + [e])
  {
    hide Quiet, Ended, Put, WorkEnded;
    var n := |w.log| - 1;
    var e := w.log[n].(at := w.clock, reply := Some(r));
    EndedTask(p, DeedsOf(w), e, r);
    PutRestart(w, w.clock);
    PutWork(w, WorkEnded(p, w.work, e.task, e.node, e.sent, r));
  }

  lemma WorkEndedSafe(p: Plan, l: Life, k: Work, e: Entry, r: Reply)
    requires DataSafe(p, l, k)
    requires e.task.BackUpTask? ==> e.sent.Some? && e.sent.value.id in k.dispatched
    requires e.task.RestoreTask? ==> e.sent.Some? && k.restoreSent == k.restored + [e.sent.value]
    requires (e.task.ProvisionTask? ==> k.provisionTried) && (e.task.ResumeTask? ==> k.resumeTried)
    requires e.task.DeprovisionTask? && e.node == p.source ==> k.sourceRemovalTried
    ensures var k' := WorkEnded(p, k, e.task, e.node, e.sent, r); Remembers(k, k') && DataSafe(p, l, k')
  {
    hide Sound, Declared, MadeFor, TargetServing;
  }

  lemma WorkEndedAlike(p: Plan, k: Work, e: Entry, r: Reply)
    ensures var k' := WorkEnded(p, k, e.task, e.node, e.sent, r);
            && k'.made == k.made && k'.assignment == k.assignment && k'.resumeTried == k.resumeTried
            && k'.targetRemovalTried == k.targetRemovalTried && k'.sourceRemovalTried == k.sourceRemovalTried
  {
  }

  lemma SaneParts(p: Plan, w: World)
    requires Sane(p, w)
    ensures DataSafe(p, w.life, w.work) && (w.work.resumeTried ==> !w.traffic.exposed)
    ensures w.work.targetRemovalTried ==> Unreachable(w.view, p.target) && !w.traffic.targetSeen
    ensures w.work.sourceRemovalTried ==> Unreachable(w.view, p.source)
  {
    hide DataSafe, Unreachable, TrafficSafe;
  }

  lemma EndSane(p: Plan, w: World, r: Reply)
    requires Sane(p, w) && MayEnd(p, w)
    ensures Sane(p, Over(p, w, r)) && Fair(p, w, Over(p, w, r))
  {
    hide Over, Fair, Sane, DataSafe, Remembers, WorkEnded, Unreachable, Quiet;
    var n := |w.log| - 1;
    var e := w.log[n].(at := w.clock, reply := Some(r));
    SaneNodes(p, w);
    OverIs(p, w, r);
    if e.task.StartTask? && e.node == p.source && r.Done? {
      PauseSane(p, w, w.life.paused, Some(w.clock), w.log[..n] + [e]);
    } else {
      SaneParts(p, w);
      WorkEndedSafe(p, w.life, w.work, e, r);
      WorkEndedAlike(p, w.work, e, r);
      WorkSane(p, w, WorkEnded(p, w.work, e.task, e.node, e.sent, r), w.log[..n] + [e]);
    }
  }

  /** Whatever happens meanwhile, a task that was dispatched can end. */
  lemma BegunMayEnd(p: Plan, w: World, e: Entry, w': World)
    requires p.source != p.target && e.reply.None? && MayBegin(p, w, e.task, e.node, e.sent) && Rely(Did(p, w, e), w')
    ensures MayEnd(p, w')
  {
    hide ViewFollows, Replay;
    if Quiet(w.view) { QuietHolds(Did(p, w, e), w'); }
  }

  /** The history after a task and its end. */
  function WorkDid(p: Plan, k: Work, t: Task, n: NodeId, sent: Option<Sent>, r: Reply): Work {
    WorkEnded(p, WorkBegun(p, k, t, n, sent), t, n, sent, r)
  }

  /** The state after a task that ended with a reply. */
  function TaskDone(p: Plan, w: World, e: Entry, r: Reply): World {
    if e.task.PauseTask?
    then w.(life := w.life.(paused := true), work := w.work.(stopped := w.work.stopped || r.Done?), log := w.log + [e])
    else if e.task.StartTask? && r.Done? then w.(life := w.life.(restartedAt := Some(e.at)), log := w.log + [e])
    else w.(work := WorkDid(p, w.work, e.task, e.node, e.sent, r), log := w.log + [e])
  }

  lemma EffectTask(p: Plan, w: World, e: Entry, r: Reply)
    requires e.reply == Some(r) && MayBegin(p, w, e.task, e.node, e.sent) && p.source != p.target
    ensures Effect(p, DeedsOf(w), e) ==
            if e.task.PauseTask? then DeedsOf(w).(paused := true, work := w.work.(stopped := w.work.stopped || r.Done?))
            else if e.task.StartTask? && r.Done? then DeedsOf(w).(restartedAt := Some(e.at))
            else DeedsOf(w).(work := WorkDid(p, w.work, e.task, e.node, e.sent, r))
  {
    hide WorkBegun, WorkEnded, Begun, Ended, Quiet, TargetServing, Unreachable, Sound, Declared, MadeFor;
    BegunTask(p, DeedsOf(w), e);
    EndedTask(p, Begun(p, DeedsOf(w), e), e, r);
    BegunIdle(p, w.work, e, r);
  }

  lemma BegunTask(p: Plan, d: Deeds, e: Entry)
    requires p.source != p.target && !IsWrite(e.task) && (e.task.DeprovisionTask? ==> e.node in {p.source, p.target})
    requires e.task.BackUpTask? || e.task.PauseTask? ==> e.node == p.source
    requires e.task.ProvisionTask? || e.task.RestoreTask? || e.task.ResumeTask? ==> e.node == p.target
    ensures Begun(p, d, e) ==
            if e.task.PauseTask? then d.(paused := true) else d.(work := WorkBegun(p, d.work, e.task, e.node, e.sent))
  {
  }

  lemma BegunIdle(p: Plan, k: Work, e: Entry, r: Reply)
    ensures e.task.PauseTask? && e.node == p.source ==>
              WorkEnded(p, k, e.task, e.node, e.sent, r) == k.(stopped := k.stopped || r.Done?)
    ensures e.task.StartTask? ==> WorkBegun(p, k, e.task, e.node, e.sent) == k
  {
  }

  lemma DidTask(p: Plan, w: World, e: Entry, r: Reply)
    requires e.reply == Some(r) && MayBegin(p, w, e.task, e.node, e.sent) && p.source != p.target
    ensures Did(p, w, e) == TaskDone(p, w, e, r)
  {
    hide Effect, MayBegin, Put, WorkDid;
    EffectTask(p, w, e, r);
    PutWork(w, WorkDid(p, w.work, e.task, e.node, e.sent, r));
    PutPaused(w, w.work.(stopped := w.work.stopped || r.Done?));
    PutRestart(w, e.at);
  }

  lemma PutPaused(w: World, k: Work)
    ensures Put(w, DeedsOf(w).(paused := true, work := k)) == w.(life := w.life.(paused := true), work := k)
  {
  }

  /** A task with its end, and what happened between and after, relied on as a whole. */
  lemma DoneRelied(p: Plan, w: World, e: Entry, w1: World, r: Reply, w2: World)
    requires e.reply.None? && Rely(Did(p, w, e), w1) && w1.log != [] && Rely(Over(p, w1, r), w2)
    ensures Rely(Did(p, w, e.(at := w1.clock, reply := Some(r))), w2)
  {
    var whole := Did(p, w, e.(at := w1.clock, reply := Some(r)));
    OverFollows(p, w, e, w1, r);
    RelyTransitive(whole, Over(p, w1, r), w2);
  }

  /** Life and history after a task, whatever else was reported meanwhile. */
  lemma OverFollows(p: Plan, w: World, e: Entry, w1: World, r: Reply)
    requires e.reply.None? && Rely(Did(p, w, e), w1) && w1.log != []
    ensures Rely(Did(p, w, e.(at := w1.clock, reply := Some(r))), Over(p, w1, r))
  {
    hide ViewFollows, Replay, Quiet, Begun, Ended, BackupsFollow;
    var e' := e.(at := w1.clock, reply := Some(r));
    assert w1.log == w.log + [e] && w1.log[..|w.log|] == w.log && w1.log[|w.log|] == e;
    BegunAlike(p, DeedsOf(w), e, e');
    assert DeedsOf(w1) == Begun(p, DeedsOf(w), e);
    EndedMade(p, DeedsOf(w1), e', r);
  }

  lemma EndedMade(p: Plan, d: Deeds, e: Entry, r: Reply)
    ensures d.work.made <= Ended(p, d, e, r).work.made
  {
  }

  // ---- Writes ----

  function WithRecord(p: Plan, w: World, e: Entry): World
    requires e.sent.Some?
  {
    var s := e.sent.value;
    Did(p, w, e).(backups := if e.reply == Some(Refused) then w.backups else w.backups[s.id := s.record])
  }

  predicate RecordEntry(p: Plan, w: World, e: Entry) {
    && e.task.RecordWrite? && e.node == p.source && e.reply.Some? && e.sent.Some?
    && e.sent.value.id !in w.backups && e.sent.value.record.status.BackupPending?
  }

  lemma EffectRecord(p: Plan, d: Deeds, e: Entry)
    requires e.task.RecordWrite? && e.reply.Some?
    ensures var made := if e.reply.value.Applied() then d.work.made + Ids(e.sent) else d.work.made;
            Effect(p, d, e) == d.(work := d.work.(made := made))
  {
  }

  lemma WithRecordIs(p: Plan, w: World, e: Entry)
    requires RecordEntry(p, w, e)
    ensures DeedsOf(WithRecord(p, w, e)) == Effect(p, DeedsOf(w), e) && WithRecord(p, w, e).log == w.log + [e]
    ensures var id, applied := e.sent.value.id, e.reply.value.Applied();
            WithRecord(p, w, e) ==
            w.(work := w.work.(made := if applied then w.work.made + Ids(e.sent) else w.work.made),
               backups := if applied then w.backups[id := e.sent.value.record] else w.backups, log := w.log + [e])
  {
    hide Effect, Ids;
    EffectRecord(p, DeedsOf(w), e);
    var k := w.work.(made := if e.reply.value.Applied() then w.work.made + Ids(e.sent) else w.work.made);
    DidWork(p, w, e, k);
  }

  lemma OrderedStays(p: Plan, k: Work, k': Work)
    requires k'.restored == k.restored && k'.restoreSent == k.restoreSent && k'.backedUp == k.backedUp
    requires RestoresOrdered(p, k)
    ensures RestoresOrdered(p, k')
  {
  }

  /** What the record rules make of a record that is added, or not. */
  lemma RecordParts(p: Plan, w: World, e: Entry, next: World)
    requires RecordEntry(p, w, e) && Closed(w.view.caddy)
    requires DataSafe(p, w.life, w.work) && RecordsKept(w.work, w.backups)
    requires Sealed(w.work, w.traffic.exposed, w.view.caddy)
    requires next.backups ==
             if e.reply.value.Applied() then w.backups[e.sent.value.id := e.sent.value.record] else w.backups
    requires next.work == w.work.(made := if e.reply.value.Applied() then w.work.made + Ids(e.sent) else w.work.made)
    ensures DataSafe(p, w.life, next.work) && RecordsKept(next.work, next.backups) && FreshRecords(w, next)
    ensures Sealed(next.work, w.traffic.exposed, w.view.caddy) && Remembers(w.work, next.work)
  {
    hide RestoresOrdered, AllRestored, TargetServing;
    BackupsStand(w.backups);
    OrderedStays(p, w.work, next.work);
    RestoredLater(p, w.work, next.work);
  }

  /** With nothing forwarded, a fresh pending record is added. */
  lemma RecordSane(p: Plan, w: World, e: Entry)
    requires Sane(p, w) && Quiet(w.view) && RecordEntry(p, w, e)
    ensures Sane(p, WithRecord(p, w, e)) && Fair(p, w, WithRecord(p, w, e))
  {
    hide WithRecord, TrafficSafe, ClockSane, CapacitySafe, PromiseKept, Unreachable, ForwardsTo;
    hide DeedsOf, Effect, Did, DataSafe, RecordsKept, FreshRecords, Sealed, Remembers, Closed;
    WithRecordIs(p, w, e);
    RecordParts(p, w, e, WithRecord(p, w, e));
  }

  function Reserved(p: Plan, w: World, e: Entry, n: Node): World {
    var next := Did(p, w, e);
    if e.reply == Some(Refused) then next else next.(books := next.books.(nodes := w.books.nodes[p.target := n]))
  }

  /** A change of the books, noted in the history. */
  lemma BooksSane(p: Plan, w: World, books: Books, k: Work, log: Log)
    requires Sane(p, w) && CapacitySafe(p, books) && (w.life.assignee in books.holders || AssignmentLost(k))
    requires k == w.work.(reserve := k.reserve, targetRelease := k.targetRelease, sourceRelease := k.sourceRelease)
    requires LawfulRelease(p, w, w.(books := books))
    ensures var w' := w.(books := books, work := k, log := log); Sane(p, w') && Fair(p, w, w')
  {
    hide TrafficSafe, ClockSane, CapacitySafe, PromiseKept, TargetServing, Unreachable, ForwardsTo, Closed, Sound;
    hide Declared;
    BackupsStand(w.backups);
  }

  lemma EffectBooks(p: Plan, d: Deeds, e: Entry)
    requires Names(e, ReserveWrite, p.target) || Names(e, ReleaseWrite, p.target) || Names(e, ReleaseWrite, p.source)
    requires e.reply.Some? && p.source != p.target
    ensures var applied := e.reply.value.Applied();
            Effect(p, d, e) ==
            d.(holders := if !applied then d.holders else if e.task.ReserveWrite? then d.holders + {p.target}
                else d.holders - {e.node},
               work := WorkBooked(p, d.work, e))
  {
  }

  function WorkBooked(p: Plan, k: Work, e: Entry): Work {
    if e.task.ReserveWrite? then k.(reserve := e.reply)
    else if e.node == p.target then k.(targetRelease := e.reply) else k.(sourceRelease := e.reply)
  }

  lemma ReservedIs(p: Plan, w: World, e: Entry, n: Node)
    requires Names(e, ReserveWrite, p.target) && e.reply.Some? && p.source != p.target
    ensures DeedsOf(Reserved(p, w, e, n)) == Effect(p, DeedsOf(w), e) && Reserved(p, w, e, n).log == w.log + [e]
    ensures Reserved(p, w, e, n) ==
            w.(books := if e.reply.value.Refused? then w.books
                        else w.books.(nodes := w.books.nodes[p.target := n], holders := w.books.holders + {p.target}),
               work := w.work.(reserve := e.reply), log := w.log + [e])
  {
    hide Effect, Put;
    EffectBooks(p, DeedsOf(w), e);
    PutBooks(w, if e.reply.value.Applied() then w.books.holders + {p.target} else w.books.holders,
        w.work.(reserve := e.reply));
  }

  lemma ReserveSane(p: Plan, w: World, e: Entry, n: Node)
    requires Sane(p, w) && e.task.ReserveWrite? && e.node == p.target && e.reply.Some?
    requires p.target !in w.books.holders && p.target in w.books.nodes
    requires Reserve(w.books.nodes[p.target], p.tier) == Some(n)
    ensures Sane(p, Reserved(p, w, e, n)) && Fair(p, w, Reserved(p, w, e, n))
  {
    hide Reserved, Fair, DataSafe, TrafficSafe, ClockSane, ReachSafe, PromiseKept, Sealed, RecordsKept;
    hide DeedsOf, Effect, Did;
    SaneNodes(p, w);
    ReservedIs(p, w, e, n);
    var next := Reserved(p, w, e, n);
    assert Ledger(p, next.books, p.target) && Ledger(p, next.books, p.source);
    BooksSane(p, w, next.books, next.work, next.log);
  }

  function Released(p: Plan, w: World, e: Entry): World
    requires e.node in w.books.nodes
  {
    var next := Did(p, w, e);
    if e.reply == Some(Refused) then next
    else next.(books := next.books.(nodes := w.books.nodes[e.node := Release(w.books.nodes[e.node], p.tier)]))
  }

  /** When the coordinator may give a node's reservation back. */
  predicate MayRelease(p: Plan, w: World, node: NodeId) {
    && node in w.books.holders && node in w.books.nodes
    && (node == p.source ==> TargetServing(p, w.life) && w.work.sourceRemoved && p.target in w.books.holders)
    && (node == p.target ==>
          (w.life.assignee == p.source || AssignmentLost(w.work)) && (w.work.provisionTried ==> w.work.targetRemoved))
  }

  lemma ReleasedIs(p: Plan, w: World, e: Entry)
    requires e.task.ReleaseWrite? && e.reply.Some? && e.node in w.books.nodes && e.node in {p.source, p.target}
    requires p.source != p.target
    ensures DeedsOf(Released(p, w, e)) == Effect(p, DeedsOf(w), e) && Released(p, w, e).log == w.log + [e]
    ensures Released(p, w, e) ==
            w.(books := if e.reply.value.Refused? then w.books
                        else w.books.(nodes := w.books.nodes[e.node := Release(w.books.nodes[e.node], p.tier)],
                            holders := w.books.holders - {e.node}),
               work := WorkBooked(p, w.work, e), log := w.log + [e])
  {
    hide Effect, Put, Release, WorkBooked;
    EffectBooks(p, DeedsOf(w), e);
    PutBooks(w, if e.reply.value.Applied() then w.books.holders - {e.node} else w.books.holders,
        WorkBooked(p, w.work, e));
  }

  lemma ReleaseLedger(p: Plan, b: Books, b': Books, n: NodeId, applied: bool)
    requires CapacitySafe(p, b) && p.tier.NonNegative() && n in {p.source, p.target} && n in b.holders
    requires p.source != p.target
    requires b' == if !applied then b
                   else b.(nodes := b.nodes[n := Release(b.nodes[n], p.tier)], holders := b.holders - {n})
    ensures CapacitySafe(p, b')
    ensures b'.nodes[n].committed == if applied then b.nodes[n].committed.Minus(p.tier) else b.nodes[n].committed
  {
    assert Ledger(p, b, p.source) && Ledger(p, b, p.target);
    assert Ledger(p, b', p.source) && Ledger(p, b', p.target);
  }

  /** The clamp at zero never fires: the counters hold at least what is given back. */
  lemma ReleaseSane(p: Plan, w: World, e: Entry)
    requires Sane(p, w) && e.task.ReleaseWrite? && e.reply.Some? && MayRelease(p, w, e.node)
    requires e.node in {p.source, p.target}
    ensures Sane(p, Released(p, w, e)) && Fair(p, w, Released(p, w, e))
    ensures Released(p, w, e).books.nodes[e.node].committed ==
            if e.reply.value.Applied()
            then w.books.nodes[e.node].committed.Minus(p.tier) else w.books.nodes[e.node].committed
  {
    hide Released, Fair, DataSafe, TrafficSafe, ClockSane, ReachSafe, PromiseKept, Sealed, RecordsKept, HealthySince;
    hide CapacitySafe, Release, DeedsOf, Effect;
    SaneNodes(p, w);
    ReleasedIs(p, w, e);
    var next := Released(p, w, e);
    ReleaseLedger(p, w.books, next.books, e.node, e.reply.value.Applied());
    BooksSane(p, w, next.books, next.work, next.log);
  }

  lemma AssignIs(p: Plan, w: World, e: Entry)
    requires e.task.AssignWrite? && e.reply.Some?
    ensures Did(p, w, e) ==
            w.(life := if e.reply.value.Applied() then w.life.(assignee := e.node, assignedAt := e.at) else w.life,
               work := if e.node == p.target then w.work.(assignment := e.reply) else w.work, log := w.log + [e])
  {
    hide Replay;
  }

  /** With nothing forwarded, the instance may be assigned to either node that holds its tier. */
  lemma AssignSane(p: Plan, w: World, e: Entry)
    requires Sane(p, w) && Quiet(w.view) && e.task.AssignWrite? && e.reply.Some? && e.at == w.clock
    requires e.node in {p.source, p.target} && e.node in w.books.holders
    requires !w.traffic.targetSeen && !w.work.sourceRemovalTried
    requires e.node == p.target ==> w.work.resumed && AllRestored(p, w.work) && w.work.assignment.None?
    ensures Sane(p, Did(p, w, e)) && Fair(p, w, Did(p, w, e))
  {
    hide Did, CapacitySafe, PromiseKept, Sealed, RecordsKept, RestoresOrdered, Unreachable, ForwardsTo;
    AssignIs(p, w, e);
    BackupsStand(w.backups);
    AssignParts(p, w, e);
  }

  /** What an assignment leaves alone although it changes the life or the history. */
  lemma AssignParts(p: Plan, w: World, e: Entry)
    ensures var k := w.work.(assignment := e.reply);
            && (Sealed(w.work, w.traffic.exposed, w.view.caddy) ==> Sealed(k, w.traffic.exposed, w.view.caddy))
            && (RecordsKept(w.work, w.backups) ==> RecordsKept(k, w.backups))
            && (RestoresOrdered(p, w.work) ==> RestoresOrdered(p, k))
  {
  }

  lemma StepSafe(p: Plan, w: World, step: Step)
    requires Sane(p, w) && (w.traffic.promised.Some? && w.opRunning ==> CarriesTraffic(step))
    ensures Sane(p, w.(opStep := step)) && Fair(p, w, w.(opStep := step))
  {
  }

  /** Technical status, the restart flag and the end of the operation are not part of what must stay safe. */
  lemma ColumnSafe(p: Plan, w: World, tech: TechStatus, restart: bool, running: bool)
    requires Sane(p, w) && (running ==> w.opRunning)
    ensures var w' := w.(tech := tech, restartRequired := restart, opRunning := running); Sane(p, w') && Fair(p, w, w')
  {
  }

  /** Rows that may be written in state w: whatever they enable is serving and has not been removed. */
  predicate Writable(p: Plan, w: World, updates: map<Host, Route>) {
    && updates.Keys <= w.view.rows.Keys
    && forall h :: h in updates && !updates[h].status.Disabled? ==>
         && MayForward(p, w.life, updates[h].node) && (w.work.targetRemovalTried ==> updates[h].node != p.target)
         && (w.work.sourceRemovalTried ==> updates[h].node != p.source)
  }

  /** Route rows after some of the updates were written. */
  function Written(rows: map<Host, Route>, updates: map<Host, Route>, done: set<Host>): map<Host, Route> {
    map h | h in rows :: if h in updates && h in done then updates[h] else rows[h]
  }

  /** Writing any part of writable rows, and then loading Caddy or not, is safe before the cutover completes. */
  lemma WriteSafe(p: Plan, w: World, updates: map<Host, Route>, done: set<Host>, loaded: bool)
    requires Sane(p, w) && Writable(p, w, updates) && w.traffic.promised.None?
    ensures var rows := Written(w.view.rows, updates, done);
            var w' := Shown(p, w, View(rows, if loaded then InstanceConfig(rows, HoldsBack(w)) else w.view.caddy));
            Sane(p, w') && Fair(p, w, w')
  {
    var rows := Written(w.view.rows, updates, done);
    var v := View(rows, if loaded then InstanceConfig(rows, HoldsBack(w)) else w.view.caddy);
    ShownSafe(p, w, v);
  }

  /** The stage of a run: where the instance is, whether the source was paused, what was done and what is reserved. */
  predicate At(p: Plan, w: World, paused: bool, k: Work, holders: set<NodeId>) {
    && w.opRunning && w.life.assignee == p.source && w.life.paused == paused && w.life.restartedAt.None?
    && w.work == k && w.books.holders == holders && !w.traffic.targetSeen && !w.traffic.exposed
    && w.traffic.promised.None?
  }

  lemma StageHolds(p: Plan, w: World, w': World, paused: bool, k: Work, holders: set<NodeId>)
    requires At(p, w, paused, k, holders) && Drift(w, w') && Sane(p, w') && k.made == {}
    ensures At(p, w', paused, k, holders)
  {
  }

  lemma QuietHolds(w: World, w': World)
    requires Rely(w, w') && Quiet(w.view)
    ensures Quiet(w'.view)
  {
  }

  lemma RelyDrifts(w: World, w': World)
    requires Rely(w, w')
    ensures Drift(w, w')
  {
  }

  lemma StepDrifts(w: World, step: Step, w': World)
    requires Rely(w.(opStep := step), w')
    ensures Drift(w, w') && w'.opStep == step && (Quiet(w.view) ==> Quiet(w'.view))
  {
    if Quiet(w.view) { QuietHolds(w.(opStep := step), w'); }
  }

  /** Keeping the stored step breaks no promise. */
  lemma StepStays(p: Plan, w: World)
    requires Sane(p, w)
    ensures w.traffic.promised.Some? && w.opRunning ==> CarriesTraffic(w.opStep)
  {
  }

  lemma DistinctNodes(p: Plan, w: World)
    requires Sane(p, w)
    ensures p.source != p.target && (w.life.assignee == p.source ==> !w.traffic.targetSeen)
  {
  }

  lemma DriftReflexive(w: World)
    ensures Drift(w, w)
  {
  }

  /** The facts of a drift that the coordinator's branches use. */
  lemma DriftKeys(w: World, w': World)
    requires Drift(w, w')
    ensures w'.view.rows.Keys == w.view.rows.Keys && w'.opRunning == w.opRunning && w.clock <= w'.clock
    ensures w'.life.assignee == w.life.assignee && w'.books.holders == w.books.holders
    ensures w'.traffic.promised == w.traffic.promised && w'.work == w.work
  {
  }

  lemma DriftTransitive(a: World, b: World, c: World)
    requires Drift(a, b) && Drift(b, c)
    ensures Drift(a, c)
  {
    BackupsFollowTransitive(a.backups, b.backups, c.backups);
  }

  lemma ShownDrifts(p: Plan, w: World, v: View, w': World)
    requires v.rows.Keys == w.view.rows.Keys && Rely(Shown(p, w, v), w')
    ensures Drift(w, w') && w'.opStep == w.opStep
  {
  }

  lemma DisabledWritable(p: Plan, w: World, routes: map<Host, Route>)
    requires routes.Keys <= w.view.rows.Keys && AllDisabled(routes)
    ensures Writable(p, w, routes)
  {
  }

  /** Loading disabled rows leaves nothing forwarded, whatever step is stored, and that lasts. */
  lemma MaintenanceQuiet(p: Plan, w: World, routes: map<Host, Route>, w': World)
    requires AllDisabled(routes) && Rely(Shown(p, w, View(routes, InstanceConfig(routes, HoldsBack(w)))), w')
    ensures Quiet(w'.view)
  {
    QuietHolds(Shown(p, w, View(routes, InstanceConfig(routes, HoldsBack(w)))), w');
  }

  lemma SourceWritable(p: Plan, w: World, routes: map<Host, Route>)
    requires routes.Keys <= w.view.rows.Keys && SourceServing(p, w.life) && p.source != p.target
    requires !w.work.sourceRemovalTried
    requires forall h :: h in routes && !routes[h].status.Disabled? ==> routes[h].node == p.source
    ensures Writable(p, w, routes)
  {
  }

  lemma ServingHolds(p: Plan, w: World, w': World)
    requires Drift(w, w')
    ensures SourceServing(p, w.life) ==> SourceServing(p, w'.life)
    ensures TargetServing(p, w.life) ==> TargetServing(p, w'.life)
  {
    LaterReports(p, w.life, w'.life, w.view, w.work);
  }

  /** Rows loaded in a traffic-carrying step stay in force. */
  lemma LoadedInForce(p: Plan, w: World, routes: map<Host, Route>, w': World)
    requires CarriesTraffic(w.opStep) && w.opRunning
    requires Rely(Shown(p, w, View(routes, InstanceConfig(routes, HoldsBack(w)))), w')
    ensures w'.view.caddy == InstanceConfig(routes, false)
    ensures InstanceConfig(w'.view.rows, false) == InstanceConfig(routes, false)
  {
  }

  /** Some backups were recorded, ordered and taken, the target was perhaps reserved, and nothing else was done. */
  function Prepared(k: Work): Work {
    IDLE.(made := k.made, dispatched := k.dispatched, backedUp := k.backedUp, reserve := k.reserve)
  }

  /** The source was never disturbed: still assigned, never paused, still reserved. */
  predicate Undisturbed(p: Plan, w: World) {
    && w.life.assignee == p.source && !w.life.paused && p.source in w.books.holders
    && w.work == Prepared(w.work) && !w.traffic.targetSeen && w.traffic.promised.None?
  }

  lemma UndisturbedHolds(p: Plan, w: World, running: bool, w': World)
    requires Undisturbed(p, w) && Drift(w.(opRunning := running), w') && Sane(p, w')
    ensures Undisturbed(p, w')
  {
  }

  /** A row that forwards while the source was never paused leads to the source. */
  lemma RowsLeadToSource(p: Plan, w: World)
    requires Sane(p, w) && w.life.assignee == p.source
    ensures forall h :: h in w.view.rows && !w.view.rows[h].status.Disabled? ==> w.view.rows[h].node == p.source
    ensures w.view.rows == map[] ==> Quiet(w.view)
  {
  }

  /** A backup taken in this run for service s; if it is still there to be restored, it is sound. */
  predicate Usable(p: Plan, m: map<BackupId, Backup>, id: BackupId, s: Service) {
    id in m && MadeFor(p, m[id], s) && !m[id].status.BackupPending? && (m[id].status.Succeeded? ==> Sound(m[id]))
  }

  /** One usable backup per declaring service of the prefix, in order and all different. */
  predicate BackupsTaken(p: Plan, m: map<BackupId, Backup>, ids: seq<BackupId>, services: seq<Service>) {
    var d := Declared(services);
    && |ids| == |d| && (forall i :: 0 <= i < |d| ==> Usable(p, m, ids[i], d[i]))
    && (forall i, j :: 0 <= i < j < |ids| ==> ids[i] != ids[j])
  }

  lemma {:induction false} DeclaredExtends(services: seq<Service>, s: Service)
    ensures Declared(services + [s]) == Declared(services) + (if BackedUp(s) then [s] else [])
  {
    if services != [] {
      assert (services + [s])[1..] == services[1..] + [s];
      DeclaredExtends(services[1..], s);
    } else {
      assert [s][1..] == [];
    }
  }

  lemma TakenHolds(p: Plan, w: World, w': World, ids: seq<BackupId>, services: seq<Service>)
    requires Drift(w, w') && BackupsTaken(p, w.backups, ids, services)
    ensures BackupsTaken(p, w'.backups, ids, services)
  {
  }

  lemma TakenExtends(p: Plan, m: map<BackupId, Backup>, ids: seq<BackupId>, services: seq<Service>, s: Service,
      id: BackupId)
    requires BackupsTaken(p, m, ids, services) && BackedUp(s) && Usable(p, m, id, s) && id !in ids
    ensures BackupsTaken(p, m, ids + [id], services + [s])
  {
    DeclaredExtends(services, s);
  }

  lemma SkipTaken(p: Plan, m: map<BackupId, Backup>, ids: seq<BackupId>, services: seq<Service>, s: Service)
    requires BackupsTaken(p, m, ids, services) && !BackedUp(s)
    ensures BackupsTaken(p, m, ids, services + [s])
  {
    DeclaredExtends(services, s);
  }

  lemma FreshId(p: Plan, m: map<BackupId, Backup>, ids: seq<BackupId>, services: seq<Service>, id: BackupId)
    requires BackupsTaken(p, m, ids, services) && id !in m
    ensures id !in ids
  {
  }

  lemma SoundUsable(p: Plan, m: map<BackupId, Backup>, id: BackupId, s: Service)
    requires id in m && MadeFor(p, m[id], s) && Sound(m[id])
    ensures Usable(p, m, id, s)
  {
  }

  lemma RecordedTaken(p: Plan, m: map<BackupId, Backup>, ids: seq<BackupId>, services: seq<Service>, id: BackupId,
      b: Backup)
    requires BackupsTaken(p, m, ids, services) && id !in m
    ensures BackupsTaken(p, m[id := b], ids, services)
  {
  }

  /** Nothing the coordinator wrote has moved, and nothing is forwarded. */
  predicate Kept(a: World, b: World) {
    Drift(a, b) && b.traffic == a.traffic && Quiet(b.view)
  }

  lemma KeptFacts(a: World, b: World)
    requires Kept(a, b)
    ensures b.work == a.work && b.traffic == a.traffic && b.log == a.log
    ensures b.books.holders == a.books.holders && b.opRunning == a.opRunning
    ensures a.opRunning ==> b.tech == a.tech
    ensures b.life == a.life.(healthyAt := b.life.healthyAt) && a.clock <= b.clock
    ensures b.view.rows.Keys == a.view.rows.Keys && Quiet(b.view) && BackupsFollow(a.backups, b.backups)
  {
  }

  lemma QuietRelied(a: World, b: World)
    requires Rely(a, b) && Quiet(a.view)
    ensures Kept(a, b)
  {
    QuietHolds(a, b);
  }

  lemma QuietStep(a: World, step: Step, b: World)
    requires Rely(a.(opStep := step), b) && Quiet(a.view)
    ensures Kept(a, b)
  {
    QuietHolds(a.(opStep := step), b);
  }

  lemma QuietUnreachable(v: View, n: NodeId)
    requires Quiet(v)
    ensures Unreachable(v, n)
  {
  }

  lemma DataSafeNow(p: Plan, w: World)
    requires Sane(p, w)
    ensures DataSafe(p, w.life, w.work)
    ensures p.source in w.books.nodes && p.target in w.books.nodes && p.source in w.books.others
    ensures p.target in w.books.others
  {
  }

  /** A gate that passed: the assigned node has reported healthy since the gate was entered. */
  lemma GatePassed(p: Plan, w: World, node: NodeId, since: Time)
    requires Sane(p, w) && InstanceHealthy(w, node, since) && w.life.assignedAt <= since
    ensures w.life.assignee == node && HealthySince(w.life, node, since)
  {
  }

  lemma KeptDrifts(a: World, b: World)
    requires Kept(a, b)
    ensures Drift(a, b)
  {
  }

  lemma TakenLength(p: Plan, m: map<BackupId, Backup>, ids: seq<BackupId>, services: seq<Service>)
    requires BackupsTaken(p, m, ids, services)
    ensures |ids| == |Declared(services)|
  {
  }

  lemma TakenAt(p: Plan, m: map<BackupId, Backup>, ids: seq<BackupId>, services: seq<Service>, i: nat)
    requires BackupsTaken(p, m, ids, services) && i < |ids|
    ensures ids[i] in m && |ids| == |Declared(services)| && MadeFor(p, m[ids[i]], Declared(services)[i])
    ensures !m[ids[i]].status.BackupPending? && (m[ids[i]].status.Succeeded? ==> Sound(m[ids[i]]))
    ensures forall j :: 0 <= j < i ==> ids[j] != ids[i]
  {
  }

  lemma ClockNow(p: Plan, w: World)
    requires Sane(p, w)
    ensures w.life.assignedAt <= w.clock
  {
  }

  lemma SameAssignment(w: World, w': World)
    requires Rely(w, w')
    ensures w'.life.assignee == w.life.assignee && w'.life.assignedAt == w.life.assignedAt
  {
  }

  /** What a drift leaves alone. */
  lemma DriftFacts(a: World, b: World)
    requires Drift(a, b)
    ensures b.life.assignee == a.life.assignee && b.books.holders == a.books.holders
    ensures b.work == a.work && b.traffic.promised == a.traffic.promised && b.log == a.log
    ensures b.life == a.life.(healthyAt := b.life.healthyAt)
    ensures a.opRunning ==> b.tech == a.tech
    ensures b.restartRequired == a.restartRequired
  {
  }

  lemma QuietTech(w: World, tech: TechStatus, w': World)
    requires Quiet(w.view) && Rely(w.(tech := tech), w')
    ensures Kept(w.(tech := w'.tech), w')
  {
    QuietHolds(w.(tech := tech), w');
  }

  /** All that was restored stays restored. */
  lemma RestoredLater(p: Plan, k: Work, k': Work)
    requires k'.restored == k.restored
    ensures AllRestored(p, k) <==> AllRestored(p, k')
  {
  }

  lemma TargetWritable(p: Plan, w: World, routes: map<Host, Route>)
    requires routes.Keys <= w.view.rows.Keys && TargetServing(p, w.life) && !w.work.targetRemovalTried
    requires p.source != p.target
    requires forall h :: h in routes ==> routes[h].node == p.target
    ensures Writable(p, w, routes)
  {
  }

  /** What Caddy serves at the cutover becomes what it must go on serving. */
  lemma PromiseSafe(p: Plan, w: World)
    requires Sane(p, w) && CarriesTraffic(w.opStep) && w.traffic.promised.None?
    requires w.view.caddy == InstanceConfig(w.view.rows, false)
    ensures var w' := w.(traffic := w.traffic.(promised := Some(w.view.caddy))); Sane(p, w') && Fair(p, w, w')
  {
  }

  /** A health gate passed on the assigned target means that the target serves. */
  lemma GateServes(p: Plan, w: World, w': World)
    requires Rely(w, w') && Sane(p, w) && w'.life.assignee == p.target && HealthySince(w'.life, p.target, w.clock)
    ensures TargetServing(p, w'.life)
  {
  }

  lemma NothingTaken(p: Plan, m: map<BackupId, Backup>)
    ensures BackupsTaken(p, m, [], [])
  {
  }

  lemma NothingHeld(p: Plan, w: World, n: NodeId)
    requires Sane(p, w) && n in {p.source, p.target} && n !in w.books.holders
    ensures n in w.books.nodes && n in w.books.others && w.books.nodes[n].committed == w.books.others[n]
  {
    assert Ledger(p, w.books, n);
  }

  // ---- What a migration can run into ----

  /** The target has no room for the tier. */
  predicate Full(p: Plan, w: World) {
    p.target in w.books.nodes && p.target !in w.books.holders && !ReserveGuard(w.books.nodes[p.target], p.tier)
  }

  /** A backup that the coordinator ordered has ended without being usable, or is no longer. */
  predicate Spoiled(w: World) {
    exists id :: id in w.work.made && id in w.backups && !w.backups[id].status.BackupPending? && !Sound(w.backups[id])
  }

  /** In some state of the run the target was full or a backup spoiled. */
  predicate Hindered(p: Plan, run: seq<World>) { exists k :: 0 <= k < |run| && (Full(p, run[k]) || Spoiled(run[k])) }

  lemma HinderedLater(p: Plan, run: seq<World>, later: seq<World>)
    requires run <= later && Hindered(p, run)
    ensures Hindered(p, later)
  {
    var k :| 0 <= k < |run| && (Full(p, run[k]) || Spoiled(run[k]));
    assert later[k] == run[k];
  }

  lemma HinderedNow(p: Plan, run: seq<World>)
    requires run != [] && (Full(p, run[|run| - 1]) || Spoiled(run[|run| - 1]))
    ensures Hindered(p, run)
  {
  }

  /** A record ID that is not in use. */
  method NewRecordId(ids: set<BackupId>) returns (id: BackupId)
    ensures id !in ids
  {
    id := 0;
    var rest := ids;
    while rest != {}
      invariant forall x :: x in ids && x !in rest ==> x < id
      decreases rest
    {
      var x :| x in rest;
      rest := rest - {x};
      if x >= id { id := x + 1; }
    }
  }

  /** What a worker reports for a backup that went well. */
  function FinishedBackup(b: Backup): Backup {
    b.(status := Succeeded, backend := "s3", key := "backup", checksum := seq(64, i => '0'))
  }

  lemma FinishedSound(b: Backup)
    ensures Sound(FinishedBackup(b))
    ensures b.status.BackupPending? ==> RecordFollows(b, FinishedBackup(b))
  {
  }

  // ---- Routes in force ----

  lemma ServesHolds(p: Plan, w: World, w': World, saved: map<Host, Route>)
    requires Rely(w, w') && Serves(p, w.view, saved) && (w.opRunning ==> CarriesTraffic(w.opStep))
    ensures Serves(p, w'.view, saved)
  {
  }

  /** Routes that lead to the source serve once they are written and loaded in a step that carries traffic. */
  lemma LoadedServes(p: Plan, w: World, saved: map<Host, Route>, w': World)
    requires CarriesTraffic(w.opStep) && Rely(Shown(p, w, View(saved, InstanceConfig(saved, HoldsBack(w)))), w')
    requires forall h :: h in saved && !saved[h].status.Disabled? ==> saved[h].node == p.source
    ensures Serves(p, w'.view, saved) && w'.opStep == w.opStep
  {
    ServesHolds(p, Shown(p, w, View(saved, InstanceConfig(saved, HoldsBack(w)))), w', saved);
  }

  /** Every row leads to node n. */
  predicate RowsAt(v: View, n: NodeId) { forall h :: h in v.rows ==> v.rows[h].node == n }

  lemma RowsAtHolds(w: World, w': World, n: NodeId)
    requires Rely(w, w') && RowsAt(w.view, n)
    ensures RowsAt(w'.view, n)
  {
  }

  /** After the cutover no row and no load leads back to the source. */
  lemma SourceUnreachable(p: Plan, w: World, routes: map<Host, Route>)
    requires Sane(p, w) && w.opRunning && RowsAt(w.view, p.target) && routes.Keys == w.view.rows.Keys
    requires forall h :: h in routes ==> routes[h].node == p.target
    requires w.traffic.promised == if routes == map[] then None else Some(InstanceConfig(routes, false))
    ensures Unreachable(w.view, p.source)
  {
  }

  /**
  What HandleMigrateInstance leaves: a fresh operation for an instance that runs on the source, holds its
  tier there and is served from there.
  */
  predicate Startable(p: Plan, w: World) {
    && p.source != p.target && p.tier.NonNegative()
    && w.life.assignee == p.source && w.life.assignedAt == p.since && !w.life.paused && w.life.restartedAt.None?
    && ClockSane(w.clock, w.life, w.report)
    && CapacitySafe(p, w.books) && w.books.holders == {p.source}
    && (forall h :: h in w.view.caddy && w.view.caddy[h].Proxy? ==> w.view.caddy[h].node == p.source)
    && (forall h :: h in w.view.rows && !w.view.rows[h].status.Disabled? ==> w.view.rows[h].node == p.source)
    && w.view.caddy.Keys <= w.view.rows.Keys
    && w.opRunning && w.opStep.Starting? && w.work == IDLE && w.log == [] && w.traffic == UNSEEN
  }

  lemma StartableSafe(p: Plan, w: World)
    requires Startable(p, w)
    ensures Safe(p, w) && LawfulRun(p, [w])
  {
  }

  lemma FullNow(p: Plan, w: World)
    requires p.target in w.books.nodes && p.target !in w.books.holders && Reserve(w.books.nodes[p.target], p.tier).None?
    ensures Full(p, w)
  {
  }

  lemma SpoiledNow(w: World, id: BackupId)
    requires id in w.work.made && id in w.backups && !w.backups[id].status.BackupPending?
    requires !w.backups[id].status.Succeeded?
    ensures Spoiled(w)
  {
  }

  lemma NothingToServe(p: Plan, v: View)
    ensures Serves(p, v, map[])
  {
  }

  lemma NoRows(v: View, n: NodeId)
    ensures v.rows == map[] ==> RowsAt(v, n)
  {
  }

  lemma ClockFollows(w: World, w': World)
    requires Rely(w, w')
    ensures w.clock <= w'.clock
  {
  }

  /** Rows that were written and loaded stay on their nodes. */
  lemma LoadedRows(p: Plan, w: World, routes: map<Host, Route>, w': World)
    requires Rely(Shown(p, w, View(routes, InstanceConfig(routes, HoldsBack(w)))), w')
    requires forall h :: h in routes ==> routes[h].node == p.target
    ensures RowsAt(w'.view, p.target)
  {
  }

  lemma SafeAccounted(p: Plan, w: World)
    requires Safe(p, w)
    ensures Accounted(p, w)
  {
  }

  lemma LastSane(p: Plan, run: seq<World>)
    requires LawfulRun(p, run)
    ensures Safe(p, run[|run| - 1]) && Sane(p, run[|run| - 1])
  {
  }

  lemma NoWriteBegins(p: Plan, w: World, t: Task, n: NodeId, sent: Option<Sent>)
    requires MayBegin(p, w, t, n, sent)
    ensures !IsWrite(t)
  {
  }

  lemma NotIdle(p: Plan, w: World)
    requires MayEnd(p, w)
    ensures !Idle(w.log) && !IsWrite(w.log[|w.log| - 1].task)
  {
  }

  lemma RelyClock(w: World, w': World, t: Time)
    requires Rely(w, w') && w.clock == t
    ensures t <= w'.clock
  {
  }

  lemma DidClock(p: Plan, w: World, e: Entry)
    ensures Did(p, w, e).clock == w.clock
  {
    hide Effect;
  }

  lemma ShownDeeds(p: Plan, w: World, v: View)
    ensures DeedsOf(Shown(p, w, v)) == DeedsOf(w) && Shown(p, w, v).log == w.log
  {
  }

  lemma PromiseDeeds(w: World)
    ensures DeedsOf(w.(traffic := w.traffic.(promised := Some(w.view.caddy)))) == DeedsOf(w)
  {
  }

  lemma RecordAdded(m: map<BackupId, Backup>, m': map<BackupId, Backup>, m'': map<BackupId, Backup>, id: BackupId,
      b: Backup, r: Reply)
    requires id !in m && m' == (if r.Applied() then m[id := b] else m) && BackupsFollow(m', m'')
    ensures BackupsFollow(m, m'')
    ensures r.Applied() ==> id in m'' && RecordFollows(b, m''[id])
  {
  }

  /** What carrying out a task on the target leaves of the history. */
  lemma WorkDidAlike(p: Plan, k: Work, t: Task, n: NodeId, sent: Option<Sent>, r: Reply)
    requires t.ProvisionTask? || t.RestoreTask? || t.ResumeTask?
    ensures var k' := WorkDid(p, k, t, n, sent, r);
            && k'.stopped == k.stopped && k'.backedUp == k.backedUp && k'.assignment == k.assignment
            && k'.targetRelease == k.targetRelease
            && k'.targetRemovalTried == k.targetRemovalTried && k'.targetRemoved == k.targetRemoved
            && k'.sourceRemovalTried == k.sourceRemovalTried
            && k'.provisionTried == (k.provisionTried || t.ProvisionTask?)
  {
  }
}
