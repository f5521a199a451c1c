/**
  The service sync of one host: every listed container is upserted into the service table, a changed image is
  captured as a snapshot, and the rows of unlisted containers are marked unknown.
 */
module ServicesSync {
  import opened Wrappers
  import opened ShellCommand
  import opened ImageReference
  import opened Tables
  import opened Repositories
  import opened DeploymentSnapshots
  import DockerPs

  datatype Host = Host(id: Id, orgId: Id)

  /** The configuration that inspecting a container gave, and when. */
  datatype Inspection = Inspection(config: Config, takenAt: Time)

  /** A listed container; its inspection is None when the key, the session, the command or the parsing fails. */
  datatype Item = Item(container: DockerPs.Container, inspection: Option<Inspection>)

  /** The listed containers, each with what inspecting it would give. */
  function Items(containers: seq<DockerPs.Container>, inspect: nat -> Option<Inspection>): (items: seq<Item>)
    ensures |items| == |containers|
  {
    seq(|containers|, k requires 0 <= k < |containers| => Item(containers[k], inspect(k)))
  }

  // ---------- What one container does to the tables ----------

  predicate IsRowOf(services: map<Id, Service>, i: Id, hostId: Id, containerId: string) {
    i in services && services[i].hostId == hostId && services[i].containerId == containerId
  }

  predicate HasRow(services: map<Id, Service>, hostId: Id, containerId: string) {
    exists i :: i in services && IsRowOf(services, i, hostId, containerId)
  }

  ghost function RowOf(services: map<Id, Service>, hostId: Id, containerId: string): (i: Id)
    requires HasRow(services, hostId, containerId)
    ensures IsRowOf(services, i, hostId, containerId)
  {
    var i :| i in services && IsRowOf(services, i, hostId, containerId);
    i
  }

  lemma RowIsUnique(services: map<Id, Service>, i: Id, hostId: Id, containerId: string)
    requires UniqueContainers(services) && IsRowOf(services, i, hostId, containerId)
    ensures HasRow(services, hostId, containerId) && RowOf(services, hostId, containerId) == i
  {
  }

  /** The row with what the listing says of its container. */
  function Listed(row: Service, c: DockerPs.Container, now: Time): Service {
    var r := SplitImageAndTag(c.image);
    row.(containerName := c.names, image := r.image, currentTag := r.tag, status := ClassifyContainerStatus(c.status),
         ports := if c.ports == [] then None else Some(c.ports), lastCheckedAt := now)
  }

  /** A row about to be inserted; its status counts as unknown. */
  function NewRow(host: Host, containerId: string): Service {
    Service(host.orgId, host.id, containerId, [], [], None, Unknown, None, 0)
  }

  function Transition(serviceId: Id, previous: ServiceStatus, current: ServiceStatus): multiset<Alert> {
    if previous == current then multiset{} else multiset{ServiceTransition(serviceId, previous, current)}
  }

  ghost function TargetId(db: Db, host: Host, containerId: string): Id {
    if HasRow(db.services, host.id, containerId) then RowOf(db.services, host.id, containerId) else db.next
  }

  ghost function LoadedRow(db: Db, host: Host, containerId: string): Service {
    if HasRow(db.services, host.id, containerId) then db.services[RowOf(db.services, host.id, containerId)]
    else NewRow(host, containerId)
  }

  ghost function Saved(db: Db, host: Host, c: DockerPs.Container, now: Time): Db {
    var id := TargetId(db, host, c.id);
    var loaded := LoadedRow(db, host, c.id);
    var row := Listed(loaded, c, now);
    AfterSyncSave(db, id, row, multiset{HealthLog(id, row.status, SeenInListing)},
                  Transition(id, loaded.status, row.status))
  }

  /** The current snapshot already has the listed image. */
  predicate ImageIsCurrent(db: Db, serviceId: Id, image: string) {
    exists i :: i in CurrentIds(db, serviceId) && db.snapshots[i].imageTag == image
  }

  function SnapshotOfItem(serviceId: Id, item: Item): Snapshot
    requires item.inspection.Some?
  {
    Snapshot(serviceId, item.container.image, item.inspection.value.config, item.inspection.value.takenAt, None, true)
  }

  function Captured(db: Db, serviceId: Id, item: Item): Db {
    if ImageIsCurrent(db, serviceId, item.container.image) || item.inspection.None? then db
    else Taken(db, SnapshotOfItem(serviceId, item))
  }

  ghost function Upserted(db: Db, host: Host, item: Item, now: Time): Db {
    Captured(Saved(db, host, item.container, now), TargetId(db, host, item.container.id), item)
  }

  ghost function UpsertedAll(db: Db, host: Host, items: seq<Item>, now: Time): Db {
    if items == [] then db
    else Upserted(UpsertedAll(db, host, items[..|items| - 1], now), host, items[|items| - 1], now)
  }

  // ---------- What the unlisted containers do ----------

  function IdsOf(items: seq<Item>): set<string> {
    set k | 0 <= k < |items| :: items[k].container.id
  }

  predicate IsMissing(row: Service, host: Host, seen: set<string>) {
    row.hostId == host.id && row.containerId !in seen && row.status != Unknown
  }

  function MissingIds(services: map<Id, Service>, host: Host, seen: set<string>): set<Id> {
    set i | i in services && IsMissing(services[i], host, seen)
  }

  function MissingLogs(missing: set<Id>): multiset<HealthLog> {
    multiset(set i | i in missing :: HealthLog(i, Unknown, MissingFromListing))
  }

  function MarkUnknown(services: map<Id, Service>, missing: set<Id>, now: Time): map<Id, Service> {
    map i | i in services :: if i in missing then services[i].(status := Unknown, lastCheckedAt := now) else services[i]
  }

  function Marked(db: Db, missing: set<Id>, now: Time): Db {
    db.(services := MarkUnknown(db.services, missing, now), healthLogs := db.healthLogs + MissingLogs(missing))
  }

  /** A whole sync that is not interrupted. */
  ghost function Synced(db: Db, host: Host, items: seq<Item>, now: Time): Db {
    var db' := UpsertedAll(db, host, items, now);
    Marked(db', MissingIds(db'.services, host, IdsOf(items)), now)
  }

  // ---------- Every step keeps the tables consistent ----------

  lemma SavedKeepsTables(db: Db, host: Host, c: DockerPs.Container, now: Time)
    requires TablesOk(db) && host.id in db.hosts
    ensures var id := TargetId(db, host, c.id);
            var row := Listed(LoadedRow(db, host, c.id), c, now);
            && CanSaveService(db, id, row)
            && TablesOk(Saved(db, host, c, now))
            && id in Saved(db, host, c, now).services
            && (HasRow(db.services, host.id, c.id) <==> id in db.services)
  {
    var id := TargetId(db, host, c.id);
    var row := Listed(LoadedRow(db, host, c.id), c, now);
    if HasRow(db.services, host.id, c.id) {
      SaveServiceKeepsTables(db, id, row);
    } else {
      assert db.next !in db.services.Keys;
      forall i | i in db.services
        ensures !(db.services[i].hostId == row.hostId && db.services[i].containerId == row.containerId)
      {
        assert !IsRowOf(db.services, i, host.id, c.id);
      }
      InsertServiceKeepsTables(db, row);
    }
  }

  lemma CapturedKeepsTables(db: Db, serviceId: Id, item: Item)
    requires TablesOk(db)
    ensures TablesOk(Captured(db, serviceId, item))
    ensures Captured(db, serviceId, item)
         == db.(snapshots := Captured(db, serviceId, item).snapshots, next := Captured(db, serviceId, item).next)
  {
    if item.inspection.Some? {
      TakenKeepsTables(db, SnapshotOfItem(serviceId, item));
    }
  }

  lemma UpsertedKeepsTables(db: Db, host: Host, item: Item, now: Time)
    requires TablesOk(db) && host.id in db.hosts
    ensures TablesOk(Upserted(db, host, item, now)) && Upserted(db, host, item, now).hosts == db.hosts
    ensures Upserted(db, host, item, now).services == Saved(db, host, item.container, now).services
  {
    hide TablesOk, Captured;
    SavedKeepsTables(db, host, item.container, now);
    CapturedKeepsTables(Saved(db, host, item.container, now), TargetId(db, host, item.container.id), item);
  }

  lemma {:induction false} UpsertedAllKeepsTables(db: Db, host: Host, items: seq<Item>, now: Time)
    requires TablesOk(db) && host.id in db.hosts
    ensures TablesOk(UpsertedAll(db, host, items, now)) && UpsertedAll(db, host, items, now).hosts == db.hosts
    decreases |items|
  {
    if items != [] {
      hide TablesOk, Upserted;
      var front := items[..|items| - 1];
      UpsertedAllKeepsTables(db, host, front, now);
      UpsertedKeepsTables(UpsertedAll(db, host, front, now), host, items[|items| - 1], now);
    }
  }

  lemma MarkedKeepsTables(db: Db, missing: set<Id>, now: Time)
    requires TablesOk(db)
    ensures TablesOk(Marked(db, missing, now))
  {
    var services := MarkUnknown(db.services, missing, now);
    assert services.Keys == db.services.Keys;
    assert UniqueContainers(services);
    forall i | i in db.events
      ensures EventReferences(services, db.snapshots, db.events[i])
    {
      assert EventReferences(db.services, db.snapshots, db.events[i]);
    }
  }

  /** A sync keeps everything the database promises, with at most one row for a host and a container among it. */
  lemma SyncedKeepsTables(db: Db, host: Host, items: seq<Item>, now: Time)
    requires TablesOk(db) && host.id in db.hosts
    ensures TablesOk(Synced(db, host, items, now))
  {
    hide TablesOk;
    UpsertedAllKeepsTables(db, host, items, now);
    var db' := UpsertedAll(db, host, items, now);
    MarkedKeepsTables(db', MissingIds(db'.services, host, IdsOf(items)), now);
  }

  // ---------- The sync as a map update ----------

  /** The last entry that the listing holds for a container id. */
  function LastListed(items: seq<Item>, containerId: string): Option<DockerPs.Container> {
    if items == [] then None
    else if items[|items| - 1].container.id == containerId then Some(items[|items| - 1].container)
    else LastListed(items[..|items| - 1], containerId)
  }

  lemma {:induction false} LastListedFinds(items: seq<Item>, containerId: string)
    ensures LastListed(items, containerId).Some? <==> containerId in IdsOf(items)
    ensures LastListed(items, containerId).Some? ==> LastListed(items, containerId).value.id == containerId
  {
    if items != [] {
      var front := items[..|items| - 1];
      LastListedFinds(front, containerId);
      assert forall k :: 0 <= k < |front| ==> front[k] == items[k];
      assert items[|items| - 1].container.id in IdsOf(items);
      if containerId in IdsOf(items) && items[|items| - 1].container.id != containerId {
        var k :| 0 <= k < |items| && items[k].container.id == containerId;
        assert front[k].container.id in IdsOf(front);
      }
    }
  }

  /** An existing row after the upserts. */
  function UpsertedRow(row: Service, host: Host, items: seq<Item>, now: Time): Service {
    if row.hostId == host.id && LastListed(items, row.containerId).Some?
    then Listed(row, LastListed(items, row.containerId).value, now) else row
  }

  /** An existing row after the whole sync: its last listed entry, or unknown, or untouched. */
  function SyncedRow(row: Service, host: Host, items: seq<Item>, now: Time): Service {
    if row.hostId != host.id then row
    else if LastListed(items, row.containerId).Some? then Listed(row, LastListed(items, row.containerId).value, now)
    else if row.status == Unknown then row
    else row.(status := Unknown, lastCheckedAt := now)
  }

  predicate IsInserted(before: map<Id, Service>, row: Service, host: Host, items: seq<Item>, now: Time) {
    && !HasRow(before, host.id, row.containerId)
    && LastListed(items, row.containerId).Some?
    && row == Listed(NewRow(host, row.containerId), LastListed(items, row.containerId).value, now)
  }

  ghost predicate UpsertsTo(before: map<Id, Service>, after: map<Id, Service>, host: Host, items: seq<Item>,
                            now: Time) {
    && (forall i :: i in before ==> i in after && after[i] == UpsertedRow(before[i], host, items, now))
    && (forall i :: i in after && i !in before ==> IsInserted(before, after[i], host, items, now))
    && (forall k :: 0 <= k < |items| ==> HasRow(after, host.id, items[k].container.id))
  }

  /** What a whole sync makes of the service table. */
  ghost predicate SyncsTo(before: map<Id, Service>, after: map<Id, Service>, host: Host, items: seq<Item>, now: Time) {
    && (forall i :: i in before ==> i in after && after[i] == SyncedRow(before[i], host, items, now))
    && (forall i :: i in after && i !in before ==> IsInserted(before, after[i], host, items, now))
    && (forall k :: 0 <= k < |items| ==> HasRow(after, host.id, items[k].container.id))
  }

  lemma UpsertedRowSnoc(row: Service, host: Host, items: seq<Item>, now: Time)
    requires items != []
    ensures var mid := UpsertedRow(row, host, items[..|items| - 1], now);
            var c := items[|items| - 1].container;
            UpsertedRow(row, host, items, now)
            == if row.hostId == host.id && row.containerId == c.id then Listed(mid, c, now) else mid
  {
  }

  lemma InsertedSnoc(before: map<Id, Service>, row: Service, host: Host, items: seq<Item>, now: Time)
    requires items != [] && IsInserted(before, row, host, items[..|items| - 1], now)
    ensures var c := items[|items| - 1].container;
            IsInserted(before, if row.containerId == c.id then Listed(row, c, now) else row, host, items, now)
  {
  }

  predicate SavesTo(before: map<Id, Service>, after: map<Id, Service>, host: Host, c: DockerPs.Container, now: Time) {
    && (forall i | i in before ::
          i in after
          && after[i] == if IsRowOf(before, i, host.id, c.id) then Listed(before[i], c, now) else before[i])
    && (forall i | i in after && i !in before ::
          !HasRow(before, host.id, c.id) && after[i] == Listed(NewRow(host, c.id), c, now))
    && HasRow(after, host.id, c.id)
  }

  lemma SavedUpserts(db: Db, host: Host, c: DockerPs.Container, now: Time)
    requires TablesOk(db) && host.id in db.hosts
    ensures SavesTo(db.services, Saved(db, host, c, now).services, host, c, now)
  {
    SavedKeepsTables(db, host, c, now);
    var after := Saved(db, host, c, now).services;
    assert IsRowOf(after, TargetId(db, host, c.id), host.id, c.id);
    forall i | i in db.services
      ensures i in after
      ensures after[i] == if IsRowOf(db.services, i, host.id, c.id) then Listed(db.services[i], c, now)
                          else db.services[i]
    {
      if IsRowOf(db.services, i, host.id, c.id) {
        RowIsUnique(db.services, i, host.id, c.id);
      }
    }
  }

  lemma {:induction false} UpsertsAreAMapUpdate(db: Db, host: Host, items: seq<Item>, now: Time)
    requires TablesOk(db) && host.id in db.hosts
    ensures UpsertsTo(db.services, UpsertedAll(db, host, items, now).services, host, items, now)
    decreases |items|
  {
    if items != [] {
      var front, last := items[..|items| - 1], items[|items| - 1];
      var mid := UpsertedAll(db, host, front, now);
      UpsertsAreAMapUpdate(db, host, front, now);
      UpsertedAllKeepsTables(db, host, front, now);
      UpsertedKeepsTables(mid, host, last, now);
      SavedUpserts(mid, host, last.container, now);
      hide TablesOk, Saved, Upserted;
      UpsertsSnoc(db.services, mid.services, UpsertedAll(db, host, items, now).services, host, items, now);
    }
  }

  lemma UpsertsSnoc(before: map<Id, Service>, mid: map<Id, Service>, after: map<Id, Service>, host: Host,
                    items: seq<Item>, now: Time)
    requires items != [] && UpsertsTo(before, mid, host, items[..|items| - 1], now)
    requires SavesTo(mid, after, host, items[|items| - 1].container, now)
    ensures UpsertsTo(before, after, host, items, now)
  {
    var front, c := items[..|items| - 1], items[|items| - 1].container;
    forall i | i in before
      ensures i in after && after[i] == UpsertedRow(before[i], host, items, now)
    {
      UpsertedRowSnoc(before[i], host, items, now);
    }
    forall i | i in after && i !in before
      ensures IsInserted(before, after[i], host, items, now)
    {
      if i in mid {
        InsertedSnoc(before, mid[i], host, items, now);
      } else {
        NoRowBefore(before, mid, host, front, now, c.id);
      }
    }
    forall k | 0 <= k < |items|
      ensures HasRow(after, host.id, items[k].container.id)
    {
      if k < |front| {
        assert HasRow(mid, host.id, front[k].container.id);
        var i :| i in mid && IsRowOf(mid, i, host.id, front[k].container.id);
        assert IsRowOf(after, i, host.id, items[k].container.id);
      }
    }
  }

  lemma NoRowBefore(before: map<Id, Service>, mid: map<Id, Service>, host: Host, items: seq<Item>, now: Time,
                    containerId: string)
    requires UpsertsTo(before, mid, host, items, now) && !HasRow(mid, host.id, containerId)
    ensures !HasRow(before, host.id, containerId)
  {
    forall i | i in before
      ensures !IsRowOf(before, i, host.id, containerId)
    {
      assert !IsRowOf(mid, i, host.id, containerId);
    }
  }

  /**
    A sync is a simple map update of the service table, for every listing, repeated ids included: each listed
    container has a row with its last entry, an unlisted row of the host is unknown, one that was unknown is
    untouched, and so is every row of another host.
   */
  lemma SyncIsAMapUpdate(db: Db, host: Host, items: seq<Item>, now: Time)
    requires TablesOk(db) && host.id in db.hosts
    ensures SyncsTo(db.services, Synced(db, host, items, now).services, host, items, now)
  {
    UpsertsAreAMapUpdate(db, host, items, now);
    hide TablesOk;
    MarkingCompletes(db.services, UpsertedAll(db, host, items, now).services, host, items, now);
  }

  lemma MarkingCompletes(before: map<Id, Service>, mid: map<Id, Service>, host: Host, items: seq<Item>, now: Time)
    requires UpsertsTo(before, mid, host, items, now)
    ensures SyncsTo(before, MarkUnknown(mid, MissingIds(mid, host, IdsOf(items)), now), host, items, now)
  {
    var missing := MissingIds(mid, host, IdsOf(items));
    var after := MarkUnknown(mid, missing, now);
    forall i | i in mid
      ensures i in missing <==> && mid[i].hostId == host.id && LastListed(items, mid[i].containerId).None?
                                && mid[i].status != Unknown
    {
      LastListedFinds(items, mid[i].containerId);
    }
    forall k | 0 <= k < |items|
      ensures HasRow(after, host.id, items[k].container.id)
    {
      assert HasRow(mid, host.id, items[k].container.id);
      var i :| i in mid && IsRowOf(mid, i, host.id, items[k].container.id);
      assert IsRowOf(after, i, host.id, items[k].container.id);
    }
  }

  lemma KeysOfMapUpdate(before: map<Id, Service>, after: map<Id, Service>, host: Host, items: seq<Item>, now: Time,
                        containerId: string)
    requires SyncsTo(before, after, host, items, now)
    ensures HasRow(after, host.id, containerId) <==> HasRow(before, host.id, containerId) || containerId in IdsOf(items)
  {
    LastListedFinds(items, containerId);
    if HasRow(after, host.id, containerId) {
      var i :| i in after && IsRowOf(after, i, host.id, containerId);
      assert i in before ==> IsRowOf(before, i, host.id, containerId);
    }
    if HasRow(before, host.id, containerId) {
      var i :| i in before && IsRowOf(before, i, host.id, containerId);
      assert IsRowOf(after, i, host.id, containerId);
    }
  }

  /** So the host's keys after a sync are exactly its keys before and the listed ids. */
  lemma KeysAfterSync(db: Db, host: Host, items: seq<Item>, now: Time, containerId: string)
    requires TablesOk(db) && host.id in db.hosts
    ensures HasRow(Synced(db, host, items, now).services, host.id, containerId)
       <==> HasRow(db.services, host.id, containerId) || containerId in IdsOf(items)
  {
    SyncIsAMapUpdate(db, host, items, now);
    hide TablesOk, Synced, SyncsTo, HasRow;
    KeysOfMapUpdate(db.services, Synced(db, host, items, now).services, host, items, now, containerId);
  }

  // ---------- Repeating a sync ----------

  predicate SameContainers(a: seq<Item>, b: seq<Item>) {
    |a| == |b| && forall k :: 0 <= k < |a| ==> a[k].container == b[k].container
  }

  predicate DistinctIds(items: seq<Item>) {
    forall j, k :: 0 <= j < k < |items| ==> items[j].container.id != items[k].container.id
  }

  /** The host's listed rows with a new check time, and nothing else changed. */
  function Rechecked(services: map<Id, Service>, host: Host, seen: set<string>, now: Time): map<Id, Service> {
    map i | i in services ::
      if services[i].hostId == host.id && services[i].containerId in seen then services[i].(lastCheckedAt := now)
      else services[i]
  }

  lemma {:induction false} SameContainersListTheSame(a: seq<Item>, b: seq<Item>, containerId: string)
    requires SameContainers(a, b)
    ensures LastListed(a, containerId) == LastListed(b, containerId)
  {
    if a != [] {
      SameContainersListTheSame(a[..|a| - 1], b[..|b| - 1], containerId);
    }
  }

  lemma RepeatedRow(row: Service, host: Host, first: seq<Item>, t1: Time, second: seq<Item>, t2: Time)
    requires SameContainers(first, second)
    ensures var once := SyncedRow(row, host, first, t1);
            SyncedRow(once, host, second, t2)
            == if once.hostId == host.id && once.containerId in IdsOf(second) then once.(lastCheckedAt := t2) else once
  {
    SameContainersListTheSame(first, second, row.containerId);
    LastListedFinds(second, row.containerId);
  }

  lemma RepeatedInsert(before: map<Id, Service>, row: Service, host: Host, first: seq<Item>, t1: Time,
                       second: seq<Item>, t2: Time)
    requires SameContainers(first, second) && IsInserted(before, row, host, first, t1)
    ensures SyncedRow(row, host, second, t2) == row.(lastCheckedAt := t2) && row.containerId in IdsOf(second)
    ensures row.hostId == host.id
  {
    SameContainersListTheSame(first, second, row.containerId);
    LastListedFinds(second, row.containerId);
  }

  /** Syncing the same containers again changes only the check times of the listed rows. */
  lemma RepeatChangesOnlyCheckTimes(db: Db, host: Host, first: seq<Item>, t1: Time, second: seq<Item>, t2: Time)
    requires TablesOk(db) && host.id in db.hosts && SameContainers(first, second)
    ensures var once := Synced(db, host, first, t1);
            Synced(once, host, second, t2).services == Rechecked(once.services, host, IdsOf(second), t2)
  {
    var once := Synced(db, host, first, t1);
    var twice := Synced(once, host, second, t2);
    SyncedKeepsTables(db, host, first, t1);
    SyncedKeepsHosts(db, host, first, t1);
    SyncIsAMapUpdate(db, host, first, t1);
    SyncIsAMapUpdate(once, host, second, t2);
    hide TablesOk, Synced, Rechecked;
    RepeatedServices(db.services, once.services, twice.services, host, first, t1, second, t2);
  }

  lemma SyncedKeepsHosts(db: Db, host: Host, items: seq<Item>, now: Time)
    requires TablesOk(db) && host.id in db.hosts
    ensures Synced(db, host, items, now).hosts == db.hosts
  {
    UpsertedAllKeepsTables(db, host, items, now);
  }

  lemma ListedHasRow(before: map<Id, Service>, once: map<Id, Service>, host: Host, first: seq<Item>, t1: Time,
                     second: seq<Item>, containerId: string)
    requires SameContainers(first, second) && SyncsTo(before, once, host, first, t1)
    requires LastListed(second, containerId).Some?
    ensures HasRow(once, host.id, containerId)
  {
    LastListedFinds(second, containerId);
    var k :| 0 <= k < |second| && second[k].container.id == containerId;
    assert HasRow(once, host.id, first[k].container.id);
  }

  lemma RepeatedServices(before: map<Id, Service>, once: map<Id, Service>, twice: map<Id, Service>, host: Host,
                         first: seq<Item>, t1: Time, second: seq<Item>, t2: Time)
    requires SameContainers(first, second)
    requires SyncsTo(before, once, host, first, t1) && SyncsTo(once, twice, host, second, t2)
    ensures twice == Rechecked(once, host, IdsOf(second), t2)
  {
    forall i | i in once
      ensures i in twice && twice[i] == Rechecked(once, host, IdsOf(second), t2)[i]
    {
      if i in before {
        RepeatedRow(before[i], host, first, t1, second, t2);
      } else {
        RepeatedInsert(before, once[i], host, first, t1, second, t2);
      }
    }
    forall i | i in twice
      ensures i in once
    {
      if LastListed(second, twice[i].containerId).Some? {
        ListedHasRow(before, once, host, first, t1, second, twice[i].containerId);
      }
    }
  }

  /** The rows already hold what the listing says of their containers. */
  ghost predicate UpToDate(services: map<Id, Service>, host: Host, items: seq<Item>) {
    forall k :: 0 <= k < |items| ==>
      && HasRow(services, host.id, items[k].container.id)
      && services[RowOf(services, host.id, items[k].container.id)].status
         == ClassifyContainerStatus(items[k].container.status)
  }

  /** One log row for each listed container, in its present status. */
  ghost function SeenLogs(services: map<Id, Service>, host: Host, items: seq<Item>): multiset<HealthLog>
    requires UpToDate(services, host, items)
  {
    if items == [] then multiset{}
    else
      var c := items[|items| - 1].container;
      SeenLogs(services, host, items[..|items| - 1])
      + multiset{HealthLog(RowOf(services, host.id, c.id), ClassifyContainerStatus(c.status), SeenInListing)}
  }

  lemma QuietUpsert(db: Db, host: Host, item: Item, now: Time, i: Id)
    requires TablesOk(db) && host.id in db.hosts
    requires IsRowOf(db.services, i, host.id, item.container.id)
    requires db.services[i].status == ClassifyContainerStatus(item.container.status)
    ensures var db' := Upserted(db, host, item, now);
            && db'.alerts == db.alerts
            && db'.healthLogs == db.healthLogs + multiset{HealthLog(i, db.services[i].status, SeenInListing)}
  {
    RowIsUnique(db.services, i, host.id, item.container.id);
    SavedKeepsTables(db, host, item.container, now);
    hide TablesOk, Captured;
    CapturedKeepsTables(Saved(db, host, item.container, now), i, item);
  }

  /** A row that no entry of the listing concerns is the same after the upserts. */
  lemma RowUntouched(db: Db, host: Host, items: seq<Item>, now: Time, i: Id, containerId: string)
    requires TablesOk(db) && host.id in db.hosts && IsRowOf(db.services, i, host.id, containerId)
    requires forall k :: 0 <= k < |items| ==> items[k].container.id != containerId
    ensures var db' := UpsertedAll(db, host, items, now);
            IsRowOf(db'.services, i, host.id, containerId) && db'.services[i] == db.services[i]
  {
    UpsertsAreAMapUpdate(db, host, items, now);
    LastListedFinds(items, containerId);
    hide TablesOk, UpsertedAll;
  }

  lemma {:induction false} UpsertsOfUpToDate(db: Db, host: Host, items: seq<Item>, now: Time)
    requires TablesOk(db) && host.id in db.hosts && DistinctIds(items) && UpToDate(db.services, host, items)
    ensures var db' := UpsertedAll(db, host, items, now);
            db'.alerts == db.alerts && db'.healthLogs == db.healthLogs + SeenLogs(db.services, host, items)
    decreases |items|
  {
    if items != [] {
      var front, last := items[..|items| - 1], items[|items| - 1];
      assert forall k :: 0 <= k < |front| ==> front[k] == items[k];
      var i := RowOf(db.services, host.id, last.container.id);
      hide TablesOk, Upserted;
      UpsertsOfUpToDate(db, host, front, now);
      UpsertedAllKeepsTables(db, host, front, now);
      RowUntouched(db, host, front, now, i, last.container.id);
      QuietUpsert(UpsertedAll(db, host, front, now), host, last, now, i);
    }
  }

  lemma MapUpdateIsUpToDate(before: map<Id, Service>, after: map<Id, Service>, host: Host, items: seq<Item>, now: Time)
    requires UniqueContainers(after) && SyncsTo(before, after, host, items, now) && DistinctIds(items)
    ensures UpToDate(after, host, items)
  {
    forall k | 0 <= k < |items|
      ensures HasRow(after, host.id, items[k].container.id)
      ensures after[RowOf(after, host.id, items[k].container.id)].status
           == ClassifyContainerStatus(items[k].container.status)
    {
      OnlyListed(items, k);
      var i := RowOf(after, host.id, items[k].container.id);
      assert i in before ==> after[i] == SyncedRow(before[i], host, items, now);
    }
  }

  lemma {:induction false} OnlyListed(items: seq<Item>, k: nat)
    requires DistinctIds(items) && k < |items|
    ensures LastListed(items, items[k].container.id) == Some(items[k].container)
  {
    if k < |items| - 1 {
      OnlyListed(items[..|items| - 1], k);
    }
  }

  /**
    Syncing the same containers again, with no id repeated, hands no status alert on and logs no missing container:
    it adds one log row for each listed container and nothing else.
   */
  lemma RepeatIsQuiet(db: Db, host: Host, first: seq<Item>, t1: Time, second: seq<Item>, t2: Time)
    requires TablesOk(db) && host.id in db.hosts && SameContainers(first, second) && DistinctIds(first)
    ensures var once := Synced(db, host, first, t1);
            var twice := Synced(once, host, second, t2);
            && UpToDate(once.services, host, second)
            && twice.alerts == once.alerts
            && twice.healthLogs == once.healthLogs + SeenLogs(once.services, host, second)
  {
    var once := Synced(db, host, first, t1);
    SyncedKeepsTables(db, host, first, t1);
    SyncedKeepsHosts(db, host, first, t1);
    SyncIsAMapUpdate(db, host, first, t1);
    MapUpdateIsUpToDate(db.services, once.services, host, first, t1);
    assert UpToDate(once.services, host, second);
    UpsertsOfUpToDate(once, host, second, t2);
    NothingMissing(db, host, first, t1, second, t2);
  }

  lemma NothingMissing(db: Db, host: Host, first: seq<Item>, t1: Time, second: seq<Item>, t2: Time)
    requires TablesOk(db) && host.id in db.hosts && SameContainers(first, second)
    ensures var once := Synced(db, host, first, t1);
            MissingIds(UpsertedAll(once, host, second, t2).services, host, IdsOf(second)) == {}
  {
    var once := Synced(db, host, first, t1);
    SyncedKeepsTables(db, host, first, t1);
    SyncedKeepsHosts(db, host, first, t1);
    SyncIsAMapUpdate(db, host, first, t1);
    UpsertsAreAMapUpdate(once, host, second, t2);
    var services := UpsertedAll(once, host, second, t2).services;
    hide TablesOk, Synced, UpsertedAll, SyncsTo, UpsertsTo, MissingIds;
    NoneMissing(db.services, once.services, services, host, first, t1, second, t2);
  }

  lemma NoneMissing(before: map<Id, Service>, once: map<Id, Service>, twice: map<Id, Service>, host: Host,
                    first: seq<Item>, t1: Time, second: seq<Item>, t2: Time)
    requires SameContainers(first, second)
    requires SyncsTo(before, once, host, first, t1) && UpsertsTo(once, twice, host, second, t2)
    ensures MissingIds(twice, host, IdsOf(second)) == {}
  {
    forall i | i in twice
      ensures !IsMissing(twice[i], host, IdsOf(second))
    {
      LastListedFinds(second, twice[i].containerId);
      SameContainersListTheSame(first, second, twice[i].containerId);
      assert i in once ==> twice[i] == UpsertedRow(once[i], host, second, t2);
      assert i in before ==> once[i] == SyncedRow(before[i], host, first, t1);
    }
  }

  // ---------- Captured snapshots ----------

  /** The service has the same snapshots in the same state. */
  predicate SameSnapshotsOf(before: map<Id, Snapshot>, after: map<Id, Snapshot>, serviceId: Id) {
    && (forall n :: n in before && before[n].serviceId == serviceId ==> n in after && after[n] == before[n])
    && (forall n :: n in after && after[n].serviceId == serviceId ==> n in before && after[n] == before[n])
  }

  lemma SameSnapshotsSameImage(before: Db, after: Db, serviceId: Id, image: string)
    requires SameSnapshotsOf(before.snapshots, after.snapshots, serviceId)
    ensures ImageIsCurrent(before, serviceId, image) ==> ImageIsCurrent(after, serviceId, image)
  {
    if ImageIsCurrent(before, serviceId, image) {
      var i :| i in CurrentIds(before, serviceId) && before.snapshots[i].imageTag == image;
      assert i in CurrentIds(after, serviceId);
    }
  }

  lemma SameSnapshotsCompose(a: map<Id, Snapshot>, b: map<Id, Snapshot>, c: map<Id, Snapshot>, serviceId: Id)
    requires SameSnapshotsOf(a, b, serviceId) && SameSnapshotsOf(b, c, serviceId)
    ensures SameSnapshotsOf(a, c, serviceId)
  {
  }

  lemma CapturingElsewhere(db: Db, other: Id, item: Item, serviceId: Id)
    requires FreshIds(db) && other != serviceId
    ensures SameSnapshotsOf(db.snapshots, Captured(db, other, item).snapshots, serviceId)
  {
    assert db.next !in db.snapshots.Keys;
  }

  /** One upsert leaves a row's container and its snapshots alone, unless the listing has another image for it. */
  lemma UpsertKeepsSnapshots(db: Db, host: Host, item: Item, now: Time, serviceId: Id, containerId: string)
    requires TablesOk(db) && host.id in db.hosts && IsRowOf(db.services, serviceId, host.id, containerId)
    requires item.container.id == containerId ==> ImageIsCurrent(db, serviceId, item.container.image)
    ensures var db' := Upserted(db, host, item, now);
            && IsRowOf(db'.services, serviceId, host.id, containerId)
            && SameSnapshotsOf(db.snapshots, db'.snapshots, serviceId)
  {
    var saved := Saved(db, host, item.container, now);
    var target := TargetId(db, host, item.container.id);
    SavedKeepsTables(db, host, item.container, now);
    UpsertedKeepsTables(db, host, item, now);
    SavedUpserts(db, host, item.container, now);
    assert saved.snapshots == db.snapshots;
    if item.container.id == containerId {
      RowIsUnique(db.services, serviceId, host.id, containerId);
      SameSnapshotsSameImage(db, saved, serviceId, item.container.image);
    } else {
      assert serviceId in db.services.Keys;
      hide TablesOk, Saved, Captured;
      InTables(saved);
      CapturingElsewhere(saved, target, item, serviceId);
    }
  }

  lemma InTables(db: Db)
    requires TablesOk(db)
    ensures FreshIds(db) && UniqueContainers(db.services)
  {
  }

  /** The whole listing does, too. */
  lemma {:induction false} UpsertsKeepSnapshots(db: Db, host: Host, items: seq<Item>, now: Time, serviceId: Id,
                                                containerId: string)
    requires TablesOk(db) && host.id in db.hosts && IsRowOf(db.services, serviceId, host.id, containerId)
    requires forall k :: 0 <= k < |items| && items[k].container.id == containerId ==>
                           ImageIsCurrent(db, serviceId, items[k].container.image)
    ensures var db' := UpsertedAll(db, host, items, now);
            && IsRowOf(db'.services, serviceId, host.id, containerId)
            && SameSnapshotsOf(db.snapshots, db'.snapshots, serviceId)
    decreases |items|
  {
    if items != [] {
      var front, last := items[..|items| - 1], items[|items| - 1];
      var mid := UpsertedAll(db, host, front, now);
      assert forall k :: 0 <= k < |front| ==> front[k] == items[k];
      hide TablesOk, Upserted, ImageIsCurrent, SameSnapshotsOf;
      UpsertsKeepSnapshots(db, host, front, now, serviceId, containerId);
      UpsertedAllKeepsTables(db, host, front, now);
      SameSnapshotsSameImage(db, mid, serviceId, last.container.image);
      UpsertKeepsSnapshots(mid, host, last, now, serviceId, containerId);
      SameSnapshotsCompose(db.snapshots, mid.snapshots, UpsertedAll(db, host, items, now).snapshots, serviceId);
    } else {
      assert UpsertedAll(db, host, items, now) == db;
    }
  }

  /** After an upsert whose inspection succeeded, the listed image is the service's current one. */
  lemma InspectedImageIsCurrent(db: Db, host: Host, item: Item, now: Time)
    requires TablesOk(db) && host.id in db.hosts && item.inspection.Some?
    ensures var db' := Upserted(db, host, item, now);
            && HasRow(db'.services, host.id, item.container.id)
            && ImageIsCurrent(db', RowOf(db'.services, host.id, item.container.id), item.container.image)
  {
    var saved := Saved(db, host, item.container, now);
    var id := TargetId(db, host, item.container.id);
    SavedKeepsTables(db, host, item.container, now);
    UpsertedKeepsTables(db, host, item, now);
    var db' := Upserted(db, host, item, now);
    RowIsUnique(db'.services, id, host.id, item.container.id);
    if !ImageIsCurrent(saved, id, item.container.image) {
      TakenKeepsTables(saved, SnapshotOfItem(id, item));
      assert saved.next in CurrentIds(db', id);
    }
  }

  lemma {:induction false} InspectedImagesAreCurrent(db: Db, host: Host, items: seq<Item>, now: Time, k: nat)
    requires TablesOk(db) && host.id in db.hosts && DistinctIds(items) && k < |items| && items[k].inspection.Some?
    ensures var db' := UpsertedAll(db, host, items, now);
            && HasRow(db'.services, host.id, items[k].container.id)
            && ImageIsCurrent(db', RowOf(db'.services, host.id, items[k].container.id), items[k].container.image)
    decreases |items|
  {
    var front, last := items[..|items| - 1], items[|items| - 1];
    var mid := UpsertedAll(db, host, front, now);
    hide TablesOk, Upserted, ImageIsCurrent;
    UpsertedAllKeepsTables(db, host, front, now);
    if k == |items| - 1 {
      InspectedImageIsCurrent(mid, host, last, now);
    } else {
      assert front[k] == items[k];
      InspectedImagesAreCurrent(db, host, front, now, k);
      var i := RowOf(mid.services, host.id, items[k].container.id);
      UpsertKeepsSnapshots(mid, host, last, now, i, items[k].container.id);
      UpsertedKeepsTables(mid, host, last, now);
      var db' := Upserted(mid, host, last, now);
      InTables(db');
      RowIsUnique(db'.services, i, host.id, items[k].container.id);
      SameSnapshotsSameImage(mid, db', i, items[k].container.image);
    }
  }

  /** Once a listed image was captured, syncing the same containers again takes no further snapshot of that service. */
  lemma RepeatCapturesNothing(db: Db, host: Host, first: seq<Item>, t1: Time, second: seq<Item>, t2: Time, k: nat)
    requires TablesOk(db) && host.id in db.hosts && SameContainers(first, second) && DistinctIds(first)
    requires k < |first| && first[k].inspection.Some?
    ensures var once := Synced(db, host, first, t1);
            var twice := Synced(once, host, second, t2);
            && HasRow(once.services, host.id, first[k].container.id)
            && SameSnapshotsOf(once.snapshots, twice.snapshots, RowOf(once.services, host.id, first[k].container.id))
  {
    var mid := UpsertedAll(db, host, first, t1);
    var once := Synced(db, host, first, t1);
    var cid := first[k].container.id;
    InspectedImagesAreCurrent(db, host, first, t1, k);
    UpsertedAllKeepsTables(db, host, first, t1);
    SyncedKeepsTables(db, host, first, t1);
    var i := RowOf(mid.services, host.id, cid);
    assert IsRowOf(once.services, i, host.id, cid);
    InTables(once);
    RowIsUnique(once.services, i, host.id, cid);
    assert SameSnapshotsOf(mid.snapshots, once.snapshots, i);
    SameSnapshotsSameImage(mid, once, i, first[k].container.image);
    hide TablesOk, ImageIsCurrent, UpsertedAll, SameSnapshotsOf;
    UpsertsKeepSnapshots(once, host, second, t2, i, cid);
  }

  // ---------- The sync itself ----------

  lemma NoHostNoRows(db: Db, host: Host)
    requires TablesOk(db) && host.id !in db.hosts
    ensures forall containerId: string :: !HasRow(db.services, host.id, containerId)
    ensures forall seen: set<string> :: MissingIds(db.services, host, seen) == {}
  {
  }

  lemma MarkedNone(db: Db, now: Time)
    ensures Marked(db, {}, now) == db
  {
    assert MarkUnknown(db.services, {}, now) == db.services;
  }

  /** Marking one more row: its save is accepted, and gives the state with one more row marked. */
  lemma MarkOneMore(db: Db, done: set<Id>, i: Id, now: Time)
    requires TablesOk(db) && i in db.services && i !in done
    ensures var mid := Marked(db, done, now);
            var row := mid.services[i].(status := Unknown, lastCheckedAt := now);
            && mid.services[i] == db.services[i]
            && CanSaveService(mid, i, row)
            && Marked(db, done + {i}, now)
               == PutService(mid, i, row).(
                    healthLogs := mid.healthLogs + multiset{HealthLog(i, Unknown, MissingFromListing)})
  {
    var mid := Marked(db, done, now);
    var row := mid.services[i].(status := Unknown, lastCheckedAt := now);
    MarkedKeepsTables(db, done, now);
    OneMoreLog(done, i);
    hide TablesOk, MissingLogs;
    assert MarkUnknown(db.services, done + {i}, now) == mid.services[i := row];
  }

  lemma OneMoreLog(done: set<Id>, i: Id)
    requires i !in done
    ensures MissingLogs(done + {i}) == MissingLogs(done) + multiset{HealthLog(i, Unknown, MissingFromListing)}
  {
    var log := HealthLog(i, Unknown, MissingFromListing);
    var logs := set j | j in done :: HealthLog(j, Unknown, MissingFromListing);
    assert (set j | j in done + {i} :: HealthLog(j, Unknown, MissingFromListing)) == logs + {log};
    assert multiset(logs + {log}) == multiset(logs) + multiset{log};
  }

  lemma ImageIsCurrentIff(db: Db, serviceId: Id, current: Option<Id>, image: string)
    requires IsCurrent(db, serviceId, current)
    ensures ImageIsCurrent(db, serviceId, image)
       <==> current.Some? && current.value in db.snapshots && db.snapshots[current.value].imageTag == image
  {
    if current.Some? {
      assert current.value in CurrentIds(db, serviceId);
    }
  }

  /** A set of rows is split into those done and those still to do. */
  predicate Splits(all: set<Id>, done: set<Id>, todo: set<Id>) {
    done !! todo && done + todo == all
  }

  lemma SplitsOn(all: set<Id>, done: set<Id>, todo: set<Id>, i: Id)
    requires Splits(all, done, todo) && i in todo
    ensures Splits(all, done + {i}, todo - {i}) && i !in done && i in all && |todo - {i}| < |todo|
  {
  }

  lemma SplitsUp(all: set<Id>, done: set<Id>)
    ensures Splits(all, done, {}) ==> done == all
    ensures Splits(all, {}, all)
  {
  }

  lemma ReportedSave(db: Db, id: Id, row: Service, previousStatus: ServiceStatus)
    ensures AfterSyncSave(db, id, row, multiset{HealthLog(id, row.status, SeenInListing)},
                          Transition(id, previousStatus, row.status))
         == PutService(db, id, row).(
              next := if id in db.services then db.next else db.next + 1,
              healthLogs := db.healthLogs + multiset{HealthLog(id, row.status, SeenInListing)},
              alerts := if previousStatus == row.status then db.alerts
                        else db.alerts + multiset{ServiceTransition(id, previousStatus, row.status)})
  {
    assert db.alerts + multiset{} == db.alerts;
  }

  /** Without its host no row can be saved. */
  lemma RefusedWithoutHost(db: Db, id: Id, row: Service)
    ensures row.hostId !in db.hosts ==> !CanSaveService(db, id, row)
  {
  }

  lemma SeenSnoc(items: seq<Item>, k: nat)
    requires k < |items|
    ensures IdsOf(items[..k + 1]) == IdsOf(items[..k]) + {items[k].container.id}
  {
    var front, next := items[..k], items[..k + 1];
    assert forall j :: 0 <= j < k ==> next[j] == front[j];
    assert next[k] == items[k];
    assert forall id :: id in IdsOf(front) ==> exists j :: 0 <= j < |next| && next[j].container.id == id;
  }

  lemma UpsertedSnoc(db: Db, host: Host, items: seq<Item>, k: nat, now: Time)
    requires k < |items|
    ensures UpsertedAll(db, host, items[..k + 1], now)
         == Upserted(UpsertedAll(db, host, items[..k], now), host, items[k], now)
  {
    assert items[..k + 1][..k] == items[..k];
  }

  class ServicesSyncService {
    const db: Database
    const snapshots: DeploymentSnapshotsService

    constructor (db: Database)
      ensures this.db == db && snapshots.db == db
    {
      this.db := db;
      snapshots := new DeploymentSnapshotsService(db);
    }

    /** Takes a snapshot unless the current one has this image; whatever goes wrong on the way is only logged. */
    method CaptureSnapshotIfImageChanged(serviceId: Id, item: Item)
      requires db.Valid() && snapshots.db == db
      modifies db
      ensures db.Valid() && db.State() == Captured(old(db.State()), serviceId, item)
    {
      var current := snapshots.FindCurrentForService(serviceId);
      ImageIsCurrentIff(db.State(), serviceId, current, item.container.image);
      if current.Some? && db.snapshots[current.value].imageTag == item.container.image {
        return;
      }
      if item.inspection.None? {
        return;
      }
      var inspection := item.inspection.value;
      var _ := snapshots.CreateSnapshot(
        Snapshot(serviceId, item.container.image, inspection.config, inspection.takenAt, None, true));
    }

    /** Saves the row, logs what was seen, and hands a change of status to alert evaluation. */
    method SaveAndReport(id: Id, row: Service, previousStatus: ServiceStatus) returns (ok: bool)
      requires id in db.services || id == db.next
      modifies db
      ensures ok == CanSaveService(old(db.State()), id, row)
      ensures db.State()
           == if ok then AfterSyncSave(old(db.State()), id, row, multiset{HealthLog(id, row.status, SeenInListing)},
                                       Transition(id, previousStatus, row.status))
              else old(db.State())
    {
      ghost var before := db.State();
      ReportedSave(before, id, row, previousStatus);
      hide AfterSyncSave, Transition, CanSaveService;
      if id in db.services {
        ok := db.SaveService(id, row);
      } else {
        var _, inserted := db.InsertService(row);
        ok := inserted;
      }
      if !ok {
        return;
      }
      db.healthLogs := db.healthLogs + multiset{HealthLog(id, row.status, SeenInListing)};
      if previousStatus != row.status {
        db.alerts := db.alerts + multiset{ServiceTransition(id, previousStatus, row.status)};
      }
    }

    /** Finds or creates the container's row and saves it; false stands for the exception that a removed host causes. */
    method UpsertService(host: Host, item: Item, now: Time) returns (ok: bool)
      requires db.Valid() && snapshots.db == db
      modifies db
      ensures db.Valid() && ok == (host.id in old(db.hosts))
      ensures db.State() == if ok then Upserted(old(db.State()), host, item, now) else old(db.State())
    {
      var c := item.container;
      ghost var before := db.State();
      var service, id;
      if i :| i in db.services && IsRowOf(db.services, i, host.id, c.id) {
        RowIsUnique(db.services, i, host.id, c.id);
        service, id := db.services[i], i;
      } else {
        service, id := NewRow(host, c.id), db.next;
      }
      if host.id in db.hosts {
        SavedKeepsTables(db.State(), host, c, now);
        UpsertedKeepsTables(db.State(), host, item, now);
      } else {
        NoHostNoRows(db.State(), host);
      }
      var previousStatus := service.status;
      hide TablesOk, Captured, CanSaveService, AfterSyncSave;

      var reference := SplitImageAndTag(c.image);
      service := service.(containerName := c.names);
      service := service.(image := reference.image, currentTag := reference.tag);
      service := service.(status := ClassifyContainerStatus(c.status));
      service := service.(ports := if c.ports == [] then None else Some(c.ports));
      service := service.(lastCheckedAt := now);
      assert id == TargetId(before, host, c.id) && service == Listed(LoadedRow(before, host, c.id), c, now);
      RefusedWithoutHost(before, id, service);
      ok := SaveAndReport(id, service, previousStatus);
      if ok {
        CaptureSnapshotIfImageChanged(id, item);
      }
    }

    /** Marks one more of the missing rows. */
    method MarkUnknownOne(i: Id, now: Time, ghost before: Db, ghost done: set<Id>)
      requires TablesOk(before) && i in before.services.Keys && i !in done && db.State() == Marked(before, done, now)
      modifies db
      ensures db.State() == Marked(before, done + {i}, now)
    {
      hide TablesOk;
      MarkOneMore(before, done, i, now);
      hide Marked, CanSaveService;
      var service := db.services[i].(status := Unknown);
      service := service.(lastCheckedAt := now);
      var _ := db.SaveService(i, service);
      db.healthLogs := db.healthLogs + multiset{HealthLog(i, Unknown, MissingFromListing)};
    }

    /** Marks the host's rows that the listing does not have and that are not unknown already. */
    method MarkMissingServicesUnknown(host: Host, seen: set<string>, now: Time)
      requires db.Valid()
      modifies db
      ensures db.Valid()
      ensures db.State() == Marked(old(db.State()), MissingIds(old(db.services), host, seen), now)
    {
      ghost var before := db.State();
      var missing := MissingIds(db.services, host, seen);
      var todo := missing;
      MarkedNone(before, now);
      MarkedKeepsTables(before, missing, now);
      SplitsUp(missing, {});
      assert missing <= before.services.Keys;
      hide *;
      ghost var done := {};
      while todo != {}
        invariant Splits(missing, done, todo)
        invariant db.State() == Marked(before, done, now)
        decreases |todo|
      {
        var i :| i in todo;
        SplitsOn(missing, done, todo, i);
        MarkUnknownOne(i, now, before, done);
        done, todo := done + {i}, todo - {i};
      }
      SplitsUp(missing, done);
    }

    /** Upserts the listed containers in turn, then marks what is missing; stops when one cannot be saved. */
    method SyncItems(host: Host, items: seq<Item>, now: Time) returns (threw: bool)
      requires db.Valid() && snapshots.db == db
      modifies db
      ensures db.Valid()
      ensures threw <==> items != [] && host.id !in old(db.hosts)
      ensures db.State() == if threw then old(db.State()) else Synced(old(db.State()), host, items, now)
    {
      var seen: set<string> := {};
      ghost var before := db.State();
      assert UpsertedAll(before, host, [], now) == before && IdsOf([]) == {};
      assert items[..0] == [] && items[..|items|] == items;
      hide TablesOk, Upserted, UpsertedAll, IdsOf, Marked, MissingIds;
      for k := 0 to |items|
        invariant db.Valid() && db.hosts == before.hosts
        invariant k > 0 ==> host.id in before.hosts
        invariant db.State() == UpsertedAll(before, host, items[..k], now)
        invariant seen == IdsOf(items[..k])
      {
        SeenSnoc(items, k);
        UpsertedSnoc(before, host, items, k, now);
        seen := seen + {items[k].container.id};
        if host.id in db.hosts {
          UpsertedKeepsTables(db.State(), host, items[k], now);
        }
        var ok := UpsertService(host, items[k], now);
        if !ok {
          assert k == 0;
          return true;
        }
      }
      MarkMissingServicesUnknown(host, seen, now);
      return false;
    }

    /**
      The sync of a host, from the output of docker ps. It does nothing without docker, and throws when a line of the
      output is JSON null or when a container is listed for a host that was removed.
     */
    method Sync(host: Host, json: DockerPs.JsonParser, dockerMissing: bool, stdout: string,
                inspect: nat -> Option<Inspection>, now: Time)
      returns (threw: bool)
      requires db.Valid() && snapshots.db == db
      modifies db
      ensures db.Valid()
      ensures var listing := DockerPs.ContainersOf(json, stdout);
              && (listing.None? <==> DockerPs.HasNullLine(json, stdout))
              && (threw <==> !dockerMissing
                             && (DockerPs.HasNullLine(json, stdout)
                                 || (listing.value != [] && host.id !in old(db.hosts))))
              && db.State() == if dockerMissing || threw then old(db.State())
                               else Synced(old(db.State()), host, Items(listing.value, inspect), now)
    {
      DockerPs.ThrowsIffNullLine(json, stdout);
      hide DockerPs.Listed, DockerPs.HasNullLine, Synced, TablesOk;
      if dockerMissing {
        return false;
      }
      var listing := DockerPs.ParseDockerPsOutput(json, stdout);
      if listing.None? {
        return true;
      }
      threw := SyncItems(host, Items(listing.value.containers, inspect), now);
    }
  }
}
