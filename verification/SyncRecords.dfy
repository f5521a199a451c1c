/** What a sync records of the containers it is shown, field by field. */
module SyncRecords {
  import opened Wrappers
  import opened ImageReference
  import opened Tables
  import opened DeploymentSnapshots
  import opened ServicesSync
  import DockerPs

  /** The row says of its container what the listing says: name, image and tag, status, ports, and when it was seen. */
  predicate Shows(row: Service, host: Host, c: DockerPs.Container, now: Time) {
    && row.hostId == host.id && row.containerId == c.id && row.containerName == c.names
    && SplitImageAndTag(c.image) == Reference(row.image, row.currentTag)
    && row.status == ClassifyContainerStatus(c.status)
    && row.ports == (if c.ports == [] then None else Some(c.ports))
    && row.lastCheckedAt == now
  }

  lemma {:induction false} LastListedIs(items: seq<Item>, k: nat)
    requires k < |items|
    requires forall j :: k < j < |items| ==> items[j].container.id != items[k].container.id
    ensures LastListed(items, items[k].container.id) == Some(items[k].container)
  {
    if k < |items| - 1 {
      var front := items[..|items| - 1];
      assert front[k] == items[k];
      LastListedIs(front, k);
    }
  }

  lemma ListedShows(row: Service, host: Host, c: DockerPs.Container, now: Time)
    requires row.hostId == host.id && row.containerId == c.id
    ensures Shows(Listed(row, c, now), host, c, now) && Listed(row, c, now).orgId == row.orgId
  {
    hide ClassifyContainerStatus, SplitImageAndTag;
  }

  lemma SyncedRowIs(before: map<Id, Service>, after: map<Id, Service>, host: Host, items: seq<Item>, now: Time, k: nat,
                    i: Id)
    requires SyncsTo(before, after, host, items, now) && k < |items|
    requires LastListed(items, items[k].container.id) == Some(items[k].container)
    requires i in after && IsRowOf(after, i, host.id, items[k].container.id)
    ensures Shows(after[i], host, items[k].container, now)
    ensures after[i].orgId == if i in before then before[i].orgId else host.orgId
  {
    var c := items[k].container;
    SyncedFrom(before, after, host, items, now, i, c);
    hide SyncsTo, Listed, Shows, LastListed;
    if i in before {
      ListedShows(before[i], host, c, now);
    } else {
      ListedShows(NewRow(host, c.id), host, c, now);
    }
  }

  /** The row is what was there, or a new one, with the entry written over it. */
  lemma SyncedFrom(before: map<Id, Service>, after: map<Id, Service>, host: Host, items: seq<Item>, now: Time, i: Id,
                   c: DockerPs.Container)
    requires SyncsTo(before, after, host, items, now) && LastListed(items, c.id) == Some(c)
    requires i in after && IsRowOf(after, i, host.id, c.id)
    ensures i in before ==>
              after[i] == Listed(before[i], c, now) && before[i].hostId == host.id && before[i].containerId == c.id
    ensures i !in before ==> after[i] == Listed(NewRow(host, c.id), c, now)
  {
    hide ClassifyContainerStatus, SplitImageAndTag, LastListed, HasRow;
    if i !in before {
      assert IsInserted(before, after[i], host, items, now);
    }
  }

  /**
    After a sync of any listing, the last entry that it has for a container has exactly one row, and the row shows it. A
    new row belongs to the host's organisation, an old one stays with its own.
   */
  lemma SyncShowsListing(db: Db, host: Host, items: seq<Item>, now: Time, k: nat)
    requires TablesOk(db) && host.id in db.hosts && k < |items|
    requires forall j :: k < j < |items| ==> items[j].container.id != items[k].container.id
    ensures var after := Synced(db, host, items, now).services;
            exists i :: i in after && Shows(after[i], host, items[k].container, now)
                        && (forall j :: IsRowOf(after, j, host.id, items[k].container.id) ==> j == i)
                        && after[i].orgId == if i in db.services then db.services[i].orgId else host.orgId
  {
    var after := Synced(db, host, items, now).services;
    SyncIsAMapUpdate(db, host, items, now);
    SyncedKeepsTables(db, host, items, now);
    LastListedIs(items, k);
    assert HasRow(after, host.id, items[k].container.id);
    var i :| i in after && IsRowOf(after, i, host.id, items[k].container.id);
    SyncedRowIs(db.services, after, host, items, now, k, i);
    InTables(Synced(db, host, items, now));
    hide TablesOk, Synced, SyncsTo, Shows;
    forall j | IsRowOf(after, j, host.id, items[k].container.id)
      ensures j == i
    {
      RowIsUnique(after, j, host.id, items[k].container.id);
      RowIsUnique(after, i, host.id, items[k].container.id);
    }
  }

  // ---------- One container ----------

  /** A snapshot of the listed image and the inspected configuration is added, the only current one of its service. */
  ghost predicate CapturesItem(before: map<Id, Snapshot>, after: map<Id, Snapshot>, serviceId: Id, item: Item)
    requires item.inspection.Some?
  {
    exists n :: n !in before && after.Keys == before.Keys + {n}
                && after[n] == Snapshot(serviceId, item.container.image, item.inspection.value.config,
                                        item.inspection.value.takenAt, None, true)
                && forall j :: j in before ==>
                     after[j] == if before[j].serviceId == serviceId then before[j].(isCurrent := false) else before[j]
  }

  /** Some current snapshot of the service has this image. */
  predicate KnowsImage(snapshots: map<Id, Snapshot>, serviceId: Id, image: string) {
    exists j :: j in snapshots && snapshots[j].serviceId == serviceId && snapshots[j].isCurrent
                && snapshots[j].imageTag == image
  }

  /** What syncing one container does to every table, the row's id being i. */
  ghost predicate Records(db: Db, after: Db, host: Host, item: Item, now: Time, i: Id) {
    var c := item.container;
    var previous := if i in db.services then db.services[i].status else Unknown;
    && after.hosts == db.hosts && after.events == db.events
    && i in after.services && Shows(after.services[i], host, c, now)
    && after.services == db.services[i := after.services[i]]
    && (i in db.services <==> HasRow(db.services, host.id, c.id))
    && after.services[i].orgId == (if i in db.services then db.services[i].orgId else host.orgId)
    && after.healthLogs == db.healthLogs + multiset{HealthLog(i, after.services[i].status, SeenInListing)}
    && after.alerts == db.alerts + (if previous == after.services[i].status then multiset{}
                                    else multiset{ServiceTransition(i, previous, after.services[i].status)})
    && (if KnowsImage(db.snapshots, i, c.image) || item.inspection.None? then after.snapshots == db.snapshots
        else CapturesItem(db.snapshots, after.snapshots, i, item))
  }

  lemma SavedRecords(db: Db, host: Host, c: DockerPs.Container, now: Time)
    requires TablesOk(db) && host.id in db.hosts
    ensures var after, i := Saved(db, host, c, now), TargetId(db, host, c.id);
            var previous := if i in db.services then db.services[i].status else Unknown;
            && after.hosts == db.hosts && after.events == db.events && after.snapshots == db.snapshots
            && i in after.services && Shows(after.services[i], host, c, now)
            && after.services == db.services[i := after.services[i]]
            && (i in db.services <==> HasRow(db.services, host.id, c.id))
            && after.services[i].orgId == (if i in db.services then db.services[i].orgId else host.orgId)
            && after.healthLogs == db.healthLogs + multiset{HealthLog(i, after.services[i].status, SeenInListing)}
            && after.alerts == db.alerts + (if previous == after.services[i].status then multiset{}
                                            else multiset{ServiceTransition(i, previous, after.services[i].status)})
  {
    SavedKeepsTables(db, host, c, now);
    hide TablesOk, CanSaveService, HasRow, ClassifyContainerStatus, SplitImageAndTag;
  }

  lemma KnownIff(db: Db, serviceId: Id, image: string)
    ensures ImageIsCurrent(db, serviceId, image) <==> KnowsImage(db.snapshots, serviceId, image)
  {
    if j :| j in db.snapshots && db.snapshots[j].serviceId == serviceId && db.snapshots[j].isCurrent
            && db.snapshots[j].imageTag == image {
      assert j in CurrentIds(db, serviceId);
    }
  }

  lemma CapturedRecords(db: Db, serviceId: Id, item: Item)
    requires db.next !in db.snapshots && serviceId in db.services
    ensures var after := Captured(db, serviceId, item);
            && after == db.(snapshots := after.snapshots, next := after.next)
            && (if KnowsImage(db.snapshots, serviceId, item.container.image) || item.inspection.None?
                then after.snapshots == db.snapshots
                else CapturesItem(db.snapshots, after.snapshots, serviceId, item))
  {
    KnownIff(db, serviceId, item.container.image);
    hide ImageIsCurrent, KnowsImage;
    if item.inspection.Some? && !ImageIsCurrent(db, serviceId, item.container.image) {
      var after := Captured(db, serviceId, item).snapshots;
      assert after.Keys == db.snapshots.Keys + {db.next};
      assert db.next !in db.snapshots && after[db.next] == SnapshotOfItem(serviceId, item);
    }
  }

  /** Syncing one container, in any tables: its row, its log row, the alert of a changed status, and its snapshot. */
  lemma UpsertRecords(db: Db, host: Host, item: Item, now: Time)
    requires TablesOk(db) && host.id in db.hosts
    ensures exists i :: Records(db, Upserted(db, host, item, now), host, item, now, i)
  {
    var mid, i := Saved(db, host, item.container, now), TargetId(db, host, item.container.id);
    SavedKeepsTables(db, host, item.container, now);
    SavedRecords(db, host, item.container, now);
    assert mid.next !in mid.snapshots.Keys;
    hide TablesOk, Saved, TargetId, Shows, Captured, CapturesItem, KnowsImage, HasRow;
    CapturedRecords(mid, i, item);
    assert Records(db, Upserted(db, host, item, now), host, item, now, i);
  }

  // ---------- What is missing ----------

  /** A known row of the host that the listing does not have is marked and logged once; nothing else is touched. */
  lemma MarkingRecords(db: Db, host: Host, items: seq<Item>, now: Time)
    ensures var after := Marked(db, MissingIds(db.services, host, IdsOf(items)), now);
            && after == db.(services := after.services, healthLogs := after.healthLogs)
            && after.services.Keys == db.services.Keys
            && forall i :: i in db.services ==>
                 var gone := && db.services[i].hostId == host.id && db.services[i].status != Unknown
                             && forall k :: 0 <= k < |items| ==> items[k].container.id != db.services[i].containerId;
                 && after.services[i] == (if gone then db.services[i].(status := Unknown, lastCheckedAt := now)
                                          else db.services[i])
                 && after.healthLogs[HealthLog(i, Unknown, MissingFromListing)]
                    == db.healthLogs[HealthLog(i, Unknown, MissingFromListing)] + if gone then 1 else 0
  {
    var missing := MissingIds(db.services, host, IdsOf(items));
    forall i | i in db.services
      ensures MissingLogs(missing)[HealthLog(i, Unknown, MissingFromListing)] == if i in missing then 1 else 0
    {
      LogsOfMissing(missing, i);
    }
    hide MissingLogs;
  }

  lemma LogsOfMissing(missing: set<Id>, i: Id)
    ensures MissingLogs(missing)[HealthLog(i, Unknown, MissingFromListing)] == if i in missing then 1 else 0
  {
    var logs := set j | j in missing :: HealthLog(j, Unknown, MissingFromListing);
    assert HealthLog(i, Unknown, MissingFromListing) in logs <==> i in missing;
  }
}
