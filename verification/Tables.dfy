/**
  The shared tables of the backend and what the database enforces on a save: foreign keys with cascading removal
  and the unique indexes. Identifiers stand for generated ids: each is handed out once.
 */
module Tables {
  import opened Wrappers
  import opened Text
  import opened ShellCommand

  type Id = nat
  type Time = int

  // ---------- Rows ----------

  datatype ServiceStatus = Unknown | Running | Unhealthy | Stopped | CrashLoop

  datatype Service = Service(
    orgId: Id, hostId: Id, containerId: string, containerName: string, image: string, currentTag: Option<string>,
    status: ServiceStatus, ports: Option<string>, lastCheckedAt: Time)

  /** A deployment snapshot; its configuration is stored encrypted, and reading it back may fail. */
  datatype Snapshot = Snapshot(
    serviceId: Id, imageTag: string, config: Config, deployedAt: Time, deployedBy: Option<Id>, isCurrent: bool)

  datatype EventStatus = Pending | InProgress | Succeeded | Failed

  datatype CommandResult = CommandResult(command: string, exitCode: Option<int>, stdout: string, stderr: string)

  datatype CommandStep = StopContainer | RemoveContainer | StartContainer | ListContainers

  datatype FailReason =
    | ServiceGone
    | HostGone
    | TargetGone
    | KeyUnreadable
    | SshFailed
    | RunFailed
    | NotRunning(status: ServiceStatus)

  datatype LogEntry =
    | Command(step: CommandStep, result: CommandResult)
    | PostRollbackHealthCheck(found: bool, status: ServiceStatus)
    | Failure(reason: FailReason)

  datatype Event = Event(
    serviceId: Id, fromSnapshotId: Id, toSnapshotId: Id, triggeredBy: Id, status: EventStatus, log: seq<LogEntry>,
    completedAt: Option<Time>)

  datatype HealthLogReason = SeenInListing | MissingFromListing | RolledBack(eventId: Id)
  datatype HealthLog = HealthLog(serviceId: Id, status: ServiceStatus, reason: HealthLogReason)

  datatype Alert =
    | ServiceTransition(serviceId: Id, previous: ServiceStatus, current: ServiceStatus)
    | RollbackFailed(eventId: Id)

  datatype Db = Db(
    hosts: set<Id>,
    services: map<Id, Service>,
    snapshots: map<Id, Snapshot>,
    events: map<Id, Event>,
    healthLogs: multiset<HealthLog>,
    alerts: multiset<Alert>,
    next: Id)

  const EMPTY_DB := Db({}, map[], map[], map[], multiset{}, multiset{}, 0)

  /** Docker's own status text as a service status; a restarting container is not taken for a running one. */
  function ClassifyContainerStatus(rawStatus: string): ServiceStatus {
    if Contains(rawStatus, "Restarting") then CrashLoop
    else if Contains(rawStatus, "Up") then
      if Contains(rawStatus, "(unhealthy)") then Unhealthy else Running
    else if Contains(rawStatus, "Exited") then Stopped
    else Unknown
  }

  /** A status text that docker gives for a container that is up, and neither restarting nor unhealthy. */
  predicate ReadsAsRunning(rawStatus: string) {
    Contains(rawStatus, "Up") && !Contains(rawStatus, "Restarting") && !Contains(rawStatus, "(unhealthy)")
  }

  /** Restarting outranks everything, an unhealthy container must be up, and stopped means exited and not up. */
  lemma ClassificationIs(rawStatus: string)
    ensures var status := ClassifyContainerStatus(rawStatus);
            && (status == CrashLoop <==> Contains(rawStatus, "Restarting"))
            && (status == Running <==> ReadsAsRunning(rawStatus))
            && (status == Unhealthy <==> Contains(rawStatus, "Up") && Contains(rawStatus, "(unhealthy)")
                                         && !Contains(rawStatus, "Restarting"))
            && (status == Stopped <==> Contains(rawStatus, "Exited") && !Contains(rawStatus, "Up")
                                       && !Contains(rawStatus, "Restarting"))
  {
  }

  // ---------- Saving ----------

  predicate Active(status: EventStatus) {
    status == Pending || status == InProgress
  }

  /** The unique index on (host, container) and the foreign key to the host. */
  predicate CanSaveService(db: Db, id: Id, row: Service) {
    && row.hostId in db.hosts
    && forall i :: i in db.services && i != id ==>
         !(db.services[i].hostId == row.hostId && db.services[i].containerId == row.containerId)
  }

  function PutService(db: Db, id: Id, row: Service): Db {
    db.(services := db.services[id := row])
  }

  /** A sync's save of a service, an update or an insert, with the log rows and alerts that follow it. */
  function AfterSyncSave(db: Db, id: Id, row: Service, logs: multiset<HealthLog>, alerts: multiset<Alert>): Db {
    PutService(db, id, row).(next := if id in db.services then db.next else db.next + 1,
                             healthLogs := db.healthLogs + logs, alerts := db.alerts + alerts)
  }

  /** The partial unique index of one active event a service, and the foreign keys to the service and both snapshots. */
  predicate CanSaveEvent(db: Db, id: Id, row: Event) {
    && row.serviceId in db.services
    && row.fromSnapshotId in db.snapshots
    && row.toSnapshotId in db.snapshots
    && (Active(row.status) ==>
          forall i :: i in db.events && i != id ==>
            !(db.events[i].serviceId == row.serviceId && Active(db.events[i].status)))
  }

  /** A save updates the row, or inserts it when there is none. */
  function PutEvent(db: Db, id: Id, row: Event): Db {
    db.(events := db.events[id := row])
  }

  // ---------- The snapshot transaction ----------

  predicate IsCurrentFor(snapshots: map<Id, Snapshot>, i: Id, serviceId: Id) {
    i in snapshots && snapshots[i].serviceId == serviceId && snapshots[i].isCurrent
  }

  function CurrentIds(db: Db, serviceId: Id): set<Id> {
    set i | i in db.snapshots && IsCurrentFor(db.snapshots, i, serviceId)
  }

  /** The partial unique index of one current snapshot a service, seen when the transaction's insert takes effect. */
  predicate CanCommit(db: Db, serviceId: Id, flips: set<Id>) {
    serviceId in db.services && CurrentIds(db, serviceId) <= flips
  }

  function Flipped(snapshots: map<Id, Snapshot>, flips: set<Id>): map<Id, Snapshot> {
    map i | i in snapshots :: if i in flips then snapshots[i].(isCurrent := false) else snapshots[i]
  }

  /** The flips and the insert take effect together. */
  function Commit(db: Db, flips: set<Id>, row: Snapshot): Db {
    db.(snapshots := Flipped(db.snapshots, flips)[db.next := row], next := db.next + 1)
  }

  // ---------- Hosts ----------

  function AddHost(db: Db): Db {
    db.(hosts := db.hosts + {db.next}, next := db.next + 1)
  }

  predicate ServiceSurvives(db: Db, h: Id, serviceId: Id) {
    serviceId in db.services && db.services[serviceId].hostId != h
  }

  /** Removing a host removes its services and, with them, their snapshots and events. */
  function RemoveHost(db: Db, h: Id): Db {
    db.(
      hosts := db.hosts - {h},
      services := map i | i in db.services && db.services[i].hostId != h :: db.services[i],
      snapshots := map i | i in db.snapshots && ServiceSurvives(db, h, db.snapshots[i].serviceId) :: db.snapshots[i],
      events := map i | i in db.events && ServiceSurvives(db, h, db.events[i].serviceId) :: db.events[i])
  }

  // ---------- What the tables keep ----------

  predicate AllBelow(ids: set<Id>, next: Id) {
    forall i :: i in ids ==> i < next
  }

  predicate FreshIds(db: Db) {
    && AllBelow(db.hosts, db.next)
    && AllBelow(db.services.Keys, db.next)
    && AllBelow(db.snapshots.Keys, db.next)
    && AllBelow(db.events.Keys, db.next)
  }

  predicate SnapshotOf(snapshots: map<Id, Snapshot>, snapshotId: Id, serviceId: Id) {
    snapshotId in snapshots && snapshots[snapshotId].serviceId == serviceId
  }

  predicate HostsPresent(hosts: set<Id>, services: map<Id, Service>) {
    forall i :: i in services ==> services[i].hostId in hosts
  }

  predicate ServicesPresent(services: map<Id, Service>, snapshots: map<Id, Snapshot>) {
    forall i :: i in snapshots ==> snapshots[i].serviceId in services
  }

  /** An event's service is there, and its two snapshots belong to that very service. */
  predicate EventReferences(services: map<Id, Service>, snapshots: map<Id, Snapshot>, row: Event) {
    && row.serviceId in services
    && SnapshotOf(snapshots, row.fromSnapshotId, row.serviceId)
    && SnapshotOf(snapshots, row.toSnapshotId, row.serviceId)
  }

  predicate EventsReference(services: map<Id, Service>, snapshots: map<Id, Snapshot>, events: map<Id, Event>) {
    forall i :: i in events ==> EventReferences(services, snapshots, events[i])
  }

  /** At most one pending or running rollback event a service. */
  predicate OneActive(events: map<Id, Event>) {
    forall i, j | i in events && j in events ::
      (events[i].serviceId == events[j].serviceId && Active(events[i].status) && Active(events[j].status)) ==> i == j
  }

  predicate AtMostOneCurrent(snapshots: map<Id, Snapshot>) {
    forall i, j | i in snapshots && j in snapshots ::
      (snapshots[i].serviceId == snapshots[j].serviceId && snapshots[i].isCurrent && snapshots[j].isCurrent) ==> i == j
  }

  predicate HasCurrent(snapshots: map<Id, Snapshot>, serviceId: Id) {
    exists j :: j in snapshots && IsCurrentFor(snapshots, j, serviceId)
  }

  /** Every service that has any snapshot has a current one. */
  predicate SomeCurrent(snapshots: map<Id, Snapshot>) {
    forall i :: i in snapshots ==> HasCurrent(snapshots, snapshots[i].serviceId)
  }

  predicate UniqueContainers(services: map<Id, Service>) {
    forall i, j | i in services && j in services ::
      (services[i].hostId == services[j].hostId && services[i].containerId == services[j].containerId) ==> i == j
  }

  ghost predicate TablesOk(db: Db) {
    && FreshIds(db)
    && HostsPresent(db.hosts, db.services)
    && ServicesPresent(db.services, db.snapshots)
    && EventsReference(db.services, db.snapshots, db.events)
    && OneActive(db.events)
    && AtMostOneCurrent(db.snapshots)
    && SomeCurrent(db.snapshots)
    && UniqueContainers(db.services)
  }

  lemma SaveServiceKeepsTables(db: Db, id: Id, row: Service)
    requires TablesOk(db) && CanSaveService(db, id, row) && id in db.services
    ensures TablesOk(PutService(db, id, row))
  {
  }

  lemma InsertServiceKeepsTables(db: Db, row: Service)
    requires TablesOk(db) && CanSaveService(db, db.next, row)
    ensures TablesOk(PutService(db, db.next, row).(next := db.next + 1))
  {
  }

  lemma SaveEventKeepsTables(db: Db, id: Id, row: Event)
    requires TablesOk(db) && CanSaveEvent(db, id, row) && id < db.next
    requires SnapshotOf(db.snapshots, row.fromSnapshotId, row.serviceId)
    requires SnapshotOf(db.snapshots, row.toSnapshotId, row.serviceId)
    ensures TablesOk(PutEvent(db, id, row))
  {
    PutEventKeepsOneActive(db, id, row);
    PutEventKeepsReferences(db, id, row);
    hide OneActive, EventsReference, CanSaveEvent;
  }

  lemma PutEventKeepsOneActive(db: Db, id: Id, row: Event)
    requires OneActive(db.events) && CanSaveEvent(db, id, row)
    ensures OneActive(PutEvent(db, id, row).events)
  {
  }

  lemma PutEventKeepsReferences(db: Db, id: Id, row: Event)
    requires EventsReference(db.services, db.snapshots, db.events) && EventReferences(db.services, db.snapshots, row)
    ensures EventsReference(db.services, db.snapshots, PutEvent(db, id, row).events)
  {
  }

  lemma InsertEventKeepsTables(db: Db, row: Event)
    requires TablesOk(db) && CanSaveEvent(db, db.next, row)
    requires SnapshotOf(db.snapshots, row.fromSnapshotId, row.serviceId)
    requires SnapshotOf(db.snapshots, row.toSnapshotId, row.serviceId)
    ensures TablesOk(PutEvent(db, db.next, row).(next := db.next + 1))
  {
    PutEventKeepsOneActive(db, db.next, row);
    PutEventKeepsReferences(db, db.next, row);
    hide OneActive, EventsReference, CanSaveEvent;
  }

  lemma CommitKeepsCurrent(snapshots: map<Id, Snapshot>, flips: set<Id>, id: Id, row: Snapshot)
    requires AtMostOneCurrent(snapshots) && SomeCurrent(snapshots)
    requires id !in snapshots && row.isCurrent
    requires forall i :: i in snapshots && IsCurrentFor(snapshots, i, row.serviceId) ==> i in flips
    requires forall i :: i in flips && i in snapshots ==> snapshots[i].serviceId == row.serviceId
    ensures var after := Flipped(snapshots, flips)[id := row];
            AtMostOneCurrent(after) && SomeCurrent(after)
  {
    var after := Flipped(snapshots, flips)[id := row];
    forall i | i in after
      ensures HasCurrent(after, after[i].serviceId)
    {
      if after[i].serviceId == row.serviceId {
        assert IsCurrentFor(after, id, row.serviceId);
      } else {
        assert HasCurrent(snapshots, snapshots[i].serviceId);
        var j :| j in snapshots && IsCurrentFor(snapshots, j, snapshots[i].serviceId);
        assert IsCurrentFor(after, j, after[i].serviceId);
      }
    }
    assert forall i :: i in snapshots && i in flips ==> !after[i].isCurrent;
  }

  lemma CommitKeepsEventReferences(db: Db, flips: set<Id>, row: Snapshot)
    requires TablesOk(db)
    ensures EventsReference(db.services, Commit(db, flips, row).snapshots, db.events)
  {
    var after := Commit(db, flips, row).snapshots;
    forall i | i in db.events
      ensures EventReferences(db.services, after, db.events[i])
    {
      assert EventReferences(db.services, db.snapshots, db.events[i]);
    }
  }

  /** A commit leaves every service with exactly one current snapshot, if it has any. */
  lemma CommitKeepsTables(db: Db, flips: set<Id>, row: Snapshot)
    requires TablesOk(db) && CanCommit(db, row.serviceId, flips) && row.isCurrent
    requires forall i :: i in flips && i in db.snapshots ==> db.snapshots[i].serviceId == row.serviceId
    ensures TablesOk(Commit(db, flips, row))
  {
    CommitKeepsFreshIds(db, flips, row);
    CommitKeepsServices(db.services, db.snapshots, flips, db.next, row);
    CommitKeepsEventReferences(db, flips, row);
    assert db.next !in db.snapshots.Keys;
    CommitFlipsCurrent(db, flips, row.serviceId);
    CommitKeepsCurrent(db.snapshots, flips, db.next, row);
  }

  lemma CommitKeepsFreshIds(db: Db, flips: set<Id>, row: Snapshot)
    requires FreshIds(db)
    ensures FreshIds(Commit(db, flips, row))
  {
    assert Commit(db, flips, row).snapshots.Keys == db.snapshots.Keys + {db.next};
  }

  lemma CommitKeepsServices(services: map<Id, Service>, snapshots: map<Id, Snapshot>, flips: set<Id>, id: Id,
                            row: Snapshot)
    requires ServicesPresent(services, snapshots) && row.serviceId in services
    ensures ServicesPresent(services, Flipped(snapshots, flips)[id := row])
  {
  }

  lemma CommitFlipsCurrent(db: Db, flips: set<Id>, serviceId: Id)
    requires CanCommit(db, serviceId, flips)
    ensures forall i :: i in db.snapshots && IsCurrentFor(db.snapshots, i, serviceId) ==> i in flips
  {
    assert forall i :: i in db.snapshots && IsCurrentFor(db.snapshots, i, serviceId) ==> i in CurrentIds(db, serviceId);
  }

  lemma CommittedIsTheCurrent(db: Db, flips: set<Id>, row: Snapshot)
    requires FreshIds(db) && CanCommit(db, row.serviceId, flips) && row.isCurrent
    ensures CurrentIds(Commit(db, flips, row), row.serviceId) == {db.next}
  {
    CommitFlipsCurrent(db, flips, row.serviceId);
    assert IsCurrentFor(Commit(db, flips, row).snapshots, db.next, row.serviceId);
  }

  lemma RemoveHostKeepsCurrent(db: Db, h: Id)
    requires TablesOk(db)
    ensures SomeCurrent(RemoveHost(db, h).snapshots)
  {
    var after := RemoveHost(db, h).snapshots;
    forall i | i in after
      ensures HasCurrent(after, after[i].serviceId)
    {
      assert HasCurrent(db.snapshots, db.snapshots[i].serviceId);
      var j :| j in db.snapshots && IsCurrentFor(db.snapshots, j, db.snapshots[i].serviceId);
      assert IsCurrentFor(after, j, after[i].serviceId);
    }
  }

  lemma RemoveHostKeepsEventReferences(db: Db, h: Id)
    requires TablesOk(db)
    ensures var after := RemoveHost(db, h); EventsReference(after.services, after.snapshots, after.events)
  {
    var after := RemoveHost(db, h);
    forall i | i in after.events
      ensures EventReferences(after.services, after.snapshots, after.events[i])
    {
      assert EventReferences(db.services, db.snapshots, db.events[i]);
    }
  }

  /** A host goes with its services, a service with its snapshots and its events, and nothing else goes or changes. */
  lemma RemoveHostTakesExactly(db: Db, h: Id)
    ensures var after := RemoveHost(db, h);
            && after == db.(hosts := db.hosts - {h}, services := after.services, snapshots := after.snapshots,
                            events := after.events)
            && (forall i :: i in after.services <==> i in db.services && db.services[i].hostId != h)
            && (forall i :: i in after.snapshots <==> i in db.snapshots && db.snapshots[i].serviceId in after.services)
            && (forall i :: i in after.events <==> i in db.events && db.events[i].serviceId in after.services)
            && (forall i :: i in after.services ==> after.services[i] == db.services[i])
            && (forall i :: i in after.snapshots ==> after.snapshots[i] == db.snapshots[i])
            && (forall i :: i in after.events ==> after.events[i] == db.events[i])
  {
  }

  lemma RemoveHostKeepsTables(db: Db, h: Id)
    requires TablesOk(db)
    ensures TablesOk(RemoveHost(db, h))
  {
    RemoveHostKeepsCurrent(db, h);
    RemoveHostKeepsEventReferences(db, h);
  }

  lemma AddHostKeepsTables(db: Db)
    requires TablesOk(db)
    ensures TablesOk(AddHost(db))
  {
  }
}
