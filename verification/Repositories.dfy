/** The tables as the running services see them: an object that their repositories update in place. */
module Repositories {
  import opened Tables

  class Database {
    var hosts: set<Id>
    var services: map<Id, Service>
    var snapshots: map<Id, Snapshot>
    var events: map<Id, Event>
    var healthLogs: multiset<HealthLog>
    var alerts: multiset<Alert>
    var next: Id

    function State(): Db
      reads this
    {
      Db(hosts, services, snapshots, events, healthLogs, alerts, next)
    }

    ghost predicate Valid()
      reads this
    {
      TablesOk(State())
    }

    constructor ()
      ensures Valid() && State() == EMPTY_DB
    {
      hosts, services, snapshots, events := {}, map[], map[], map[];
      healthLogs, alerts, next := multiset{}, multiset{}, 0;
    }

    /** Saves a row for a service that is updated or, when there is none, inserted; false stands for an exception. */
    method SaveService(id: Id, row: Service) returns (ok: bool)
      modifies `services
      ensures ok == CanSaveService(old(State()), id, row)
      ensures State() == if ok then PutService(old(State()), id, row) else old(State())
    {
      ok := CanSaveService(State(), id, row);
      if ok {
        services := services[id := row];
      }
    }

    method InsertService(row: Service) returns (id: Id, ok: bool)
      modifies `services, `next
      ensures id == old(next) && ok == CanSaveService(old(State()), id, row)
      ensures State() == if ok then PutService(old(State()), id, row).(next := id + 1) else old(State())
    {
      id := next;
      ok := SaveService(id, row);
      if ok {
        next := id + 1;
      }
    }

    method SaveEvent(id: Id, row: Event) returns (ok: bool)
      modifies `events
      ensures ok == CanSaveEvent(old(State()), id, row)
      ensures State() == if ok then PutEvent(old(State()), id, row) else old(State())
    {
      ok := CanSaveEvent(State(), id, row);
      if ok {
        events := events[id := row];
      }
    }

    method InsertEvent(row: Event) returns (id: Id, ok: bool)
      modifies `events, `next
      ensures id == old(next) && ok == CanSaveEvent(old(State()), id, row)
      ensures State() == if ok then PutEvent(old(State()), id, row).(next := id + 1) else old(State())
    {
      id := next;
      ok := SaveEvent(id, row);
      if ok {
        next := id + 1;
      }
    }
  }
}
