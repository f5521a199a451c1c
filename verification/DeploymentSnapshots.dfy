/** The snapshot table's service: reading a service's current snapshot, and taking a new one in a transaction. */
module DeploymentSnapshots {
  import opened Wrappers
  import opened Tables
  import opened Repositories

  /** The service's one current snapshot, if it has any. */
  predicate IsCurrent(db: Db, serviceId: Id, current: Option<Id>) {
    CurrentIds(db, serviceId) == (match current case None => {} case Some(i) => {i})
  }

  lemma AtMostOneCurrentId(db: Db, serviceId: Id, i: Id)
    requires AtMostOneCurrent(db.snapshots) && i in CurrentIds(db, serviceId)
    ensures CurrentIds(db, serviceId) == {i}
  {
    assert IsCurrentFor(db.snapshots, i, serviceId);
  }

  /** What taking a snapshot alone does: nothing for a service that is gone, else the flip and the insert. */
  function Taken(db: Db, row: Snapshot): Db {
    if row.serviceId in db.services then Commit(db, CurrentIds(db, row.serviceId), row) else db
  }

  lemma TakenKeepsTables(db: Db, row: Snapshot)
    requires TablesOk(db) && row.isCurrent
    ensures TablesOk(Taken(db, row))
    ensures row.serviceId in db.services ==> IsCurrent(Taken(db, row), row.serviceId, Some(db.next))
  {
    if row.serviceId in db.services {
      CommitKeepsTables(db, CurrentIds(db, row.serviceId), row);
      CommittedIsTheCurrent(db, CurrentIds(db, row.serviceId), row);
    }
  }

  class DeploymentSnapshotsService {
    const db: Database

    constructor (db: Database)
      ensures this.db == db
    {
      this.db := db;
    }

    method FindCurrentForService(serviceId: Id) returns (r: Option<Id>)
      requires db.Valid()
      ensures IsCurrent(db.State(), serviceId, r)
    {
      var ids := CurrentIds(db.State(), serviceId);
      if ids == {} {
        return None;
      }
      var i :| i in ids;
      AtMostOneCurrentId(db.State(), serviceId, i);
      return Some(i);
    }

    method FindOneForService(serviceId: Id, id: Id) returns (r: Option<Snapshot>)
      ensures r.Some? <==> SnapshotOf(db.State().snapshots, id, serviceId)
      ensures r.Some? ==> r.value == db.State().snapshots[id]
    {
      if id in db.snapshots && db.snapshots[id].serviceId == serviceId {
        return Some(db.snapshots[id]);
      }
      return None;
    }

    /**
      Clears the current flag and inserts the new row in one transaction, which is rolled back when the insert fails.
      Afterwards the new row is the service's only current one.
     */
    method CreateSnapshot(row: Snapshot) returns (r: Option<Id>)
      requires db.Valid() && row.isCurrent
      modifies db
      ensures db.Valid() && db.State() == Taken(old(db.State()), row)
      ensures r == if row.serviceId in old(db.services) then Some(old(db.next)) else None
      ensures r.Some? ==> IsCurrent(db.State(), row.serviceId, r) && db.snapshots[r.value] == row
    {
      TakenKeepsTables(db.State(), row);
      var before := db.snapshots;
      db.snapshots := Flipped(before, CurrentIds(db.State(), row.serviceId));
      if row.serviceId !in db.services {
        db.snapshots := before;
        return None;
      }
      var id := db.next;
      db.snapshots := db.snapshots[id := row];
      db.next := id + 1;
      return Some(id);
    }
  }
}
