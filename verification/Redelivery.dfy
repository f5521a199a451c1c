/**
  The rollback system with a queue that may deliver every job any number of times, to several workers at once: what
  holds of the tables without any assumption on deliveries.
 */
module Redelivery {
  import opened Wrappers
  import opened Tables
  import opened Rollback
  import opened RollbackInvariant
  import opened RollbackOutcome

  // ---------- The system ----------

  /** One delivery of an event's job. */
  datatype Delivery = Delivery(e: Id, worker: Worker)

  /** The participants other than workers, as they are, and every delivery ever made. */
  datatype System = System(rest: Sys, deliveries: map<Id, Delivery>)

  const START := System(INITIAL, map[])

  datatype Move =
    | Elsewhere(step: Label)
    | DeliverJob(d: Id, e: Id, worker: Worker)
    | WorkOn(d: Id)

  predicate Possible(s: System, move: Move) {
    match move
    case Elsewhere(step) => !step.Deliver? && !step.Work? && Enabled(s.rest, step)
    case DeliverJob(d, e, worker) => d !in s.deliveries && e in s.rest.queue && worker.pc == Delivered
    case WorkOn(d) => d in s.deliveries
  }

  /** A delivery leaves the job in the queue, so that it may be delivered again, before or after it is finished. */
  ghost function Moved(s: System, move: Move): System
    requires Possible(s, move)
  {
    match move
    case Elsewhere(step) => s.(rest := Apply(s.rest, step))
    case DeliverJob(d, e, worker) => s.(deliveries := s.deliveries[d := Delivery(e, worker)])
    case WorkOn(d) =>
      var (db, w) := WorkerStep(s.rest.db, s.deliveries[d].e, s.deliveries[d].worker);
      s.(rest := s.rest.(db := db), deliveries := s.deliveries[d := Delivery(s.deliveries[d].e, w)])
  }

  ghost predicate IsHistory(s: System, moves: seq<Move>)
    decreases |moves|
  {
    moves != [] ==> Possible(s, moves[0]) && IsHistory(Moved(s, moves[0]), moves[1..])
  }

  ghost function Reached(s: System, moves: seq<Move>): System
    requires IsHistory(s, moves)
    decreases |moves|
  {
    if moves == [] then s else Reached(Moved(s, moves[0]), moves[1..])
  }

  lemma {:induction false} HistoriesCompose(s: System, first: seq<Move>, second: seq<Move>)
    requires IsHistory(s, first + second)
    ensures IsHistory(s, first) && IsHistory(Reached(s, first), second)
    ensures Reached(Reached(s, first), second) == Reached(s, first + second)
    decreases |first|
  {
    if first == [] {
      assert first + second == second;
    } else {
      assert (first + second)[1..] == first[1..] + second;
      HistoriesCompose(Moved(s, first[0]), first[1..], second);
    }
  }

  // ---------- What every step does to the tables ----------

  /** Ids are never reused, rows keep their owners, nothing removed returns, and what goes, goes as a whole. */
  ghost predicate Steady(before: Db, after: Db) {
    && before.next <= after.next
    && (forall i :: i in after.hosts && i < before.next ==> i in before.hosts)
    && ServicesSteady(before, after) && SnapshotsSteady(before, after) && EventsSteady(before, after)
  }

  predicate ServicesSteady(before: Db, after: Db) {
    && (forall i :: i in after.services && i < before.next ==>
          && i in before.services && after.services[i].hostId == before.services[i].hostId
          && after.services[i].orgId == before.services[i].orgId)
    && (forall i :: i in before.services && i !in after.services ==> before.services[i].hostId !in after.hosts)
  }

  predicate SnapshotsSteady(before: Db, after: Db) {
    forall i :: i in after.snapshots && i < before.next ==>
      i in before.snapshots && after.snapshots[i].serviceId == before.snapshots[i].serviceId
  }

  predicate GoneFrom(db: Db, row: Event) {
    row.serviceId !in db.services && row.fromSnapshotId !in db.snapshots && row.toSnapshotId !in db.snapshots
  }

  predicate EventsSteady(before: Db, after: Db) {
    && (forall i :: i in after.events && i < before.next ==>
          i in before.events && SameKeys(before.events[i], after.events[i]))
    && (forall i :: i in before.events && i !in after.events ==> GoneFrom(after, before.events[i]))
  }

  lemma SteadyIsAround(before: Db, after: Db)
    requires Steady(before, after)
    ensures Around(before, after, before.next)
  {
  }

  /** A step that only adds rows or rewrites them under the same keys. */
  lemma KeepingIsSteady(before: Db, after: Db)
    requires Keeps(before, after) && Around(before, after, before.next) && EventsSteady(before, after)
    ensures Steady(before, after)
  {
  }

  lemma SameEventsSteady(before: Db, after: Db)
    requires after.events == before.events
    ensures EventsSteady(before, after)
  {
  }

  // ---------- One delivery ----------

  /**
    What holds of a worker whatever the others with the same event do: its event has kept its keys and goes together
    with its service and snapshots, its copy of the service names the right host, and its flips are its service's.
   */
  predicate DeliveryOk(db: Db, e: Id, w: Worker) {
    && e < db.next
    && (HasRead(w.pc) ==> GoneTogether(db, e, w.event) && (e in db.events ==> SameKeys(db.events[e], w.event)))
    && (HasService(w.pc) ==> ServiceCopyOk(db, w))
    && (w.pc.InTransaction? ==> FlipsOk(db, w.flips, w.event.serviceId))
  }

  lemma SteadyKeepsDelivery(before: Db, after: Db, e: Id, w: Worker)
    requires FreshIds(before) && Steady(before, after) && DeliveryOk(before, e, w)
    ensures DeliveryOk(after, e, w)
  {
  }

  lemma RowHasReferences(db: Db, e: Id)
    requires TablesOk(db) && e in db.events
    ensures EventReferences(db.services, db.snapshots, db.events[e]) && GoneTogether(db, e, db.events[e])
  {
    assert EventReferences(db.services, db.snapshots, db.events[e]);
    assert e in db.events.Keys && db.events[e].serviceId in db.services.Keys;
    assert db.events[e].fromSnapshotId in db.snapshots.Keys && db.events[e].toSnapshotId in db.snapshots.Keys;
  }

  lemma PutEventIsSteady(db: Db, e: Id, row: Event)
    requires e in db.events && SameKeys(db.events[e], row)
    ensures Steady(db, PutEvent(db, e, row))
  {
  }

  /** A save of the worker's event updates the row that is there, or throws: it never brings a removed event back. */
  lemma SavingIsSteady(db: Db, e: Id, w: Worker, row: Event, pc: Pc)
    requires TablesOk(db) && DeliveryOk(db, e, w) && HasRead(w.pc) && SameKeys(row, w.event)
    ensures var db' := SaveThen(db, e, w, row, pc).0; TablesOk(db') && Steady(db, db')
  {
    if CanSaveEvent(db, e, row) {
      assert e in db.events;
      RowHasReferences(db, e);
      SaveEventKeepsTables(db, e, row);
      hide TablesOk, CanSaveEvent, Steady;
      PutEventIsSteady(db, e, row);
    } else {
      hide TablesOk, CanSaveEvent;
    }
  }

  lemma SavingKeepsDelivery(db: Db, e: Id, w: Worker, row: Event, pc: Pc)
    requires TablesOk(db) && DeliveryOk(db, e, w) && HasRead(w.pc) && SameKeys(row, w.event)
    requires HasRead(pc) && !pc.InTransaction? && (HasService(pc) ==> HasService(w.pc))
    ensures var (db', w') := SaveThen(db, e, w, row, pc); TablesOk(db') && Steady(db, db') && DeliveryOk(db', e, w')
  {
    SavingIsSteady(db, e, w, row, pc);
    assert FreshIds(db);
    var (db', w') := SaveThen(db, e, w, row, pc);
    hide TablesOk, FreshIds, CanSaveEvent, SaveThen, DeliveryOk, Steady;
    SteadyKeepsDelivery(db, db', e, w);
    MovedDelivery(db, e, w, row, pc);
    SavedWorkerOk(db, db', e, w, w', row, pc);
  }

  lemma MovedDelivery(db: Db, e: Id, w: Worker, row: Event, pc: Pc)
    ensures SaveThen(db, e, w, row, pc).1 in {w.(event := row, pc := pc), w.(event := row, pc := Crashed)}
  {
    hide CanSaveEvent;
  }

  lemma SavedWorkerOk(db: Db, after: Db, e: Id, w: Worker, w': Worker, row: Event, pc: Pc)
    requires DeliveryOk(after, e, w) && HasRead(w.pc) && SameKeys(row, w.event)
    requires HasRead(pc) && !pc.InTransaction? && (HasService(pc) ==> HasService(w.pc))
    requires w' == w.(event := row, pc := pc) || w' == w.(event := row, pc := Crashed)
    ensures DeliveryOk(after, e, w')
  {
  }

  lemma WritingKeepsDelivery(db: Db, e: Id, w: Worker)
    requires TablesOk(db) && DeliveryOk(db, e, w) && Writes(w.pc)
    ensures var (db', w') := WritingStep(db, e, w); TablesOk(db') && Steady(db, db') && DeliveryOk(db', e, w')
  {
    hide TablesOk, SaveThen, Steady;
    match w.pc
    case Loaded =>
      SavingKeepsDelivery(db, e, w, w.event.(status := InProgress), Started);
    case Logging(k) =>
      LoggingKeepsDelivery(db, e, w, k);
    case HealthLogged =>
      SavingKeepsDelivery(db, e, w, w.event.(status := Succeeded, completedAt := Some(w.world.completedAt)),
                          DoneSucceeded);
    case Failing(reason) =>
      SavingKeepsDelivery(db, e, w, w.event.(log := w.event.log + [Failure(reason)]), FailureLogged(reason));
    case FailureLogged(reason) =>
      SavingKeepsDelivery(db, e, w, w.event.(status := Failed, completedAt := Some(w.world.completedAt)),
                          FailureSaved(reason));
  }

  lemma SteadyRefl(db: Db)
    ensures Steady(db, db)
  {
  }

  lemma LoggingKeepsDelivery(db: Db, e: Id, w: Worker, k: nat)
    requires TablesOk(db) && DeliveryOk(db, e, w) && w.pc == Logging(k)
    ensures var (db', w') := LoggingStep(db, e, w, k); TablesOk(db') && Steady(db, db') && DeliveryOk(db', e, w')
  {
    hide TablesOk, SaveThen, Steady;
    SteadyRefl(db);
    if w.world.ssh.Some? {
      if k < 4 {
        var row := w.event.(log := w.event.log + [CommandEntry(w.world.ssh.value, k)]);
        SavingKeepsDelivery(db, e, w, row, Logging(k + 1));
      } else if w.world.ssh.value.run.exitCode == Some(0) && w.world.listing.Some? {
        var row := w.event.(log := w.event.log + [PostRollbackHealthCheck(Recreated(w).Some?, NewStatus(w))]);
        SavingKeepsDelivery(db, e, w, row, Judged);
      }
    }
  }

  lemma PutServiceIsSteady(db: Db, id: Id, row: Service)
    requires id in db.services && row.hostId == db.services[id].hostId && row.orgId == db.services[id].orgId
    ensures Steady(db, PutService(db, id, row))
  {
  }

  /** The service's save updates the row that is there, or throws: it never brings a removed service back. */
  lemma SavingServiceKeepsDelivery(db: Db, e: Id, w: Worker)
    requires TablesOk(db) && DeliveryOk(db, e, w) && w.pc.SavingService?
    ensures var (db', w') := SavingServiceStep(db, w); TablesOk(db') && Steady(db, db') && DeliveryOk(db', e, w')
  {
    var (db', w') := SavingServiceStep(db, w);
    var sid := w.event.serviceId;
    assert w'.service.hostId == w.service.hostId && w'.service.orgId == w.service.orgId;
    if w'.pc.ServiceSaved? {
      assert sid in db.services;
      SaveServiceKeepsTables(db, sid, w'.service);
      assert FreshIds(db);
      hide TablesOk, CanSaveService, RolledBackService, Steady;
      PutServiceIsSteady(db, sid, w'.service);
      SteadyKeepsDelivery(db, db', e, w);
    } else {
      hide TablesOk, CanSaveService, RolledBackService, Steady;
      SteadyRefl(db);
    }
  }

  lemma CommitIsSteady(db: Db, flips: set<Id>, row: Snapshot)
    ensures Steady(db, Commit(db, flips, row))
  {
  }

  lemma FlipsAreOwn(db: Db, e: Id, w: Worker)
    requires DeliveryOk(db, e, w) && w.pc.InTransaction?
    ensures FlipsOk(db, w.flips, w.event.serviceId)
  {
  }

  lemma LeavesTransaction(db: Db, e: Id, w: Worker, pc: Pc, newSnapshot: Id)
    requires DeliveryOk(db, e, w) && w.pc.InTransaction? && (pc.Crashed? || pc.SnapshotSaved?)
    ensures DeliveryOk(db, e, w.(pc := pc, newSnapshot := newSnapshot))
  {
  }

  lemma CommittingKeepsDelivery(db: Db, e: Id, w: Worker)
    requires TablesOk(db) && DeliveryOk(db, e, w) && w.pc.InTransaction?
    ensures var (db', w') := CommittingStep(db, w); TablesOk(db') && Steady(db, db') && DeliveryOk(db', e, w')
  {
    TablesFresh(db);
    hide TablesOk, FreshIds, Steady, Commit, CanCommit, DeliveryOk, FlipsOk;
    FlipsAreOwn(db, e, w);
    SteadyRefl(db);
    if CanCommit(db, w.event.serviceId, w.flips) {
      var db' := Commit(db, w.flips, RolledBackSnapshot(w));
      CommitKeepsOwn(db, w.flips, RolledBackSnapshot(w));
      CommitIsSteady(db, w.flips, RolledBackSnapshot(w));
      SteadyKeepsDelivery(db, db', e, w);
      LeavesTransaction(db', e, w, SnapshotSaved, db.next);
    } else {
      LeavesTransaction(db, e, w, Crashed, w.newSnapshot);
    }
  }

  lemma CommitKeepsOwn(db: Db, flips: set<Id>, row: Snapshot)
    requires TablesOk(db) && FlipsOk(db, flips, row.serviceId) && CanCommit(db, row.serviceId, flips) && row.isCurrent
    ensures TablesOk(Commit(db, flips, row))
  {
    hide TablesOk, CanCommit;
    CommitKeepsTables(db, flips, row);
  }

  lemma ServiceCopyIsOk(db: Db, id: Id)
    requires TablesOk(db) && id in db.services
    ensures db.services[id].hostId < db.next
  {
    assert db.services[id].hostId in db.hosts;
  }

  lemma LoadingKeepsDelivery(db: Db, e: Id, w: Worker)
    requires TablesOk(db) && DeliveryOk(db, e, w) && (w.pc.Delivered? || w.pc.Started?)
    ensures DeliveryOk(db, e, ReadingStep(db, e, w))
  {
    if w.pc.Delivered? && e in db.events {
      RowHasReferences(db, e);
    } else if w.pc.Started? && w.event.serviceId in db.services {
      ServiceCopyIsOk(db, w.event.serviceId);
    }
    hide TablesOk, GoneTogether, EventReferences;
  }

  lemma DecidingKeepsDelivery(db: Db, e: Id, w: Worker)
    requires FreshIds(db) && DeliveryOk(db, e, w) && Reads(w.pc) && !w.pc.Delivered? && !w.pc.Started?
    ensures DeliveryOk(db, e, ReadingStep(db, e, w))
  {
    hide GoneTogether, Recreated, NewStatus, SameKeys;
    if w.pc.ServiceSaved? {
      assert FlipsOk(db, CurrentIds(db, w.event.serviceId), w.event.serviceId);
    }
  }

  lemma ReadingKeepsDelivery(db: Db, e: Id, w: Worker)
    requires TablesOk(db) && DeliveryOk(db, e, w) && Reads(w.pc)
    ensures DeliveryOk(db, e, ReadingStep(db, e, w))
  {
    TablesFresh(db);
    hide TablesOk, FreshIds, DeliveryOk, ReadingStep;
    if w.pc.Delivered? || w.pc.Started? {
      LoadingKeepsDelivery(db, e, w);
    } else {
      DecidingKeepsDelivery(db, e, w);
    }
  }

  lemma OnlyNotesIsSteady(before: Db, after: Db)
    requires after == before.(healthLogs := after.healthLogs, alerts := after.alerts)
    ensures Steady(before, after)
  {
  }

  lemma NotingIsSteady(db: Db, e: Id, w: Worker, w': Worker)
    requires TablesOk(db) && DeliveryOk(db, e, w')
    ensures TablesOk(Noted(db, e, w)) && Steady(db, Noted(db, e, w)) && DeliveryOk(Noted(db, e, w), e, w')
  {
    TablesFresh(db);
    hide TablesOk, FreshIds, DeliveryOk, Steady;
    NotingKeepsTables(db, e, w);
    OnlyNotesIsSteady(db, Noted(db, e, w));
    SteadyKeepsDelivery(db, Noted(db, e, w), e, w');
  }

  /** A worker's step keeps the tables, whatever other workers have done with the same event. */
  lemma WorkKeepsDelivery(db: Db, e: Id, w: Worker)
    requires TablesOk(db) && DeliveryOk(db, e, w)
    ensures var (db', w') := WorkerStep(db, e, w); TablesOk(db') && Steady(db, db') && DeliveryOk(db', e, w')
  {
    hide TablesOk, Steady, DeliveryOk, WritingStep, SavingServiceStep, CommittingStep, ReadingStep, Noted;
    if Writes(w.pc) {
      WritingKeepsDelivery(db, e, w);
    } else if w.pc.SavingService? {
      SavingServiceKeepsDelivery(db, e, w);
    } else if w.pc.InTransaction? {
      CommittingKeepsDelivery(db, e, w);
    } else {
      ReadingKeepsDelivery(db, e, w);
      NotingIsSteady(db, e, w, ReadingStep(db, e, w));
    }
  }

  // ---------- The other participants ----------

  predicate QueueBelow(queue: multiset<Id>, next: Id) {
    forall e :: e in queue ==> e < next
  }

  /** What holds of the participants other than workers. */
  ghost predicate RestOk(r: Sys) {
    && TablesOk(r.db) && CallersOk(r.db, r.callers) && CapturesOk(r.db, r.captures) && QueueBelow(r.queue, r.db.next)
    && r.workers == map[]
  }

  lemma SteadyKeepsRest(r: Sys, after: Db)
    requires RestOk(r) && TablesOk(after) && Steady(r.db, after)
    ensures RestOk(r.(db := after))
  {
    SteadyIsAround(r.db, after);
    hide TablesOk, Steady, Around, CallerOk;
    assert r.db.next <= after.next;
    forall c | c in r.callers
      ensures CallerOk(after, r.callers[c])
    {
      AroundKeepsCaller(r.db, after, r.db.next, r.callers[c]);
    }
    forall t | t in r.captures
      ensures FlipsOk(after, r.captures[t].flips, r.captures[t].serviceId)
    {
      AroundKeepsFlips(r.db, after, r.db.next, r.captures[t].flips, r.captures[t].serviceId);
    }
  }

  lemma MovingCallerKeepsRest(r: Sys, c: Id, k: Caller)
    requires RestOk(r) && CallerOk(r.db, k)
    ensures RestOk(r.(callers := r.callers[c := k]))
  {
    hide TablesOk, CallerOk, CapturesOk;
  }

  lemma InsertIsSteady(db: Db, row: Event)
    ensures Steady(db, AfterInsert(db, row))
  {
  }

  lemma InsertingKeepsRest(r: Sys, c: Id, addWorks: bool)
    requires RestOk(r) && c in r.callers && r.callers[c].pc == NoneActive
    requires CanSaveEvent(r.db, r.db.next, NewEvent(r.callers[c]))
    ensures RestOk(CallerStep(r, c, addWorks)) && Steady(r.db, CallerStep(r, c, addWorks).db)
  {
    var row := NewEvent(r.callers[c]);
    var db := AfterInsert(r.db, row);
    assert CallerOk(r.db, r.callers[c]);
    InsertEventKeepsTables(r.db, row);
    InsertIsSteady(r.db, row);
    hide TablesOk, Steady, CanSaveEvent;
    SteadyKeepsRest(r, db);
    hide RestOk, AfterInsert, CallerOk;
    InsertedCallerOk(db, r.callers[c].(eventId := r.db.next, pc := Inserted), r, c);
    MovingCallerKeepsRest(r.(db := db), c, r.callers[c].(eventId := r.db.next, pc := Inserted));
    InsertingStep(r, c, addWorks);
  }

  lemma InsertedCallerOk(db: Db, k: Caller, r: Sys, c: Id)
    requires RestOk(r.(db := db)) && c in r.callers && r.callers[c].pc == NoneActive
    requires k == r.callers[c].(eventId := k.eventId, pc := Inserted) && k.eventId < db.next
    ensures CallerOk(db, k)
  {
    assert CallerOk(db, r.callers[c]);
    hide TablesOk;
  }

  lemma InsertingStep(r: Sys, c: Id, addWorks: bool)
    requires c in r.callers && r.callers[c].pc == NoneActive
    requires CanSaveEvent(r.db, r.db.next, NewEvent(r.callers[c]))
    ensures CallerStep(r, c, addWorks)
         == r.(db := AfterInsert(r.db, NewEvent(r.callers[c])),
               callers := r.callers[c := r.callers[c].(eventId := r.db.next, pc := Inserted)])
  {
    hide CanSaveEvent, SomeActive, CurrentIds;
  }

  lemma QueueingKeepsRest(r: Sys, c: Id, addWorks: bool)
    requires RestOk(r) && c in r.callers && r.callers[c].pc == Inserted
    ensures RestOk(CallerStep(r, c, addWorks)) && CallerStep(r, c, addWorks).db == r.db
  {
    assert CallerOk(r.db, r.callers[c]);
    var k := r.callers[c].(pc := if addWorks then Returned else Stranded);
    MovingCallerKeepsRest(r, c, k);
    hide TablesOk, CallersOk, CapturesOk, CanSaveEvent, SomeActive, CurrentIds;
  }

  lemma CallKeepsRest(r: Sys, c: Id, addWorks: bool)
    requires RestOk(r) && c in r.callers
    ensures RestOk(CallerStep(r, c, addWorks)) && Steady(r.db, CallerStep(r, c, addWorks).db)
  {
    var k := r.callers[c];
    assert CallerOk(r.db, k);
    TablesFresh(r.db);
    SteadyRefl(r.db);
    hide RestOk, TablesOk, FreshIds, Steady, CallerOk, CallerStep, CanSaveEvent;
    if k.pc == NoneActive && CanSaveEvent(r.db, r.db.next, NewEvent(k)) {
      InsertingKeepsRest(r, c, addWorks);
    } else if k.pc == NoneActive {
      RefusedStep(r, c, addWorks);
      MovingCallerKeepsRest(r, c, k.(pc := Refused));
    } else if k.pc == Inserted {
      QueueingKeepsRest(r, c, addWorks);
    } else if k.pc == Returned || k.pc == Refused || k.pc == Stranded {
      FinishedStep(r, c, addWorks);
    } else {
      AskingKeepsCaller(r, c);
      MovingCallerKeepsRest(r, c, CallerStep(r, c, true).callers[c]);
    }
  }

  lemma RefusedStep(r: Sys, c: Id, addWorks: bool)
    requires c in r.callers && r.callers[c].pc == NoneActive
    requires !CanSaveEvent(r.db, r.db.next, NewEvent(r.callers[c]))
    ensures CallerStep(r, c, addWorks) == r.(callers := r.callers[c := r.callers[c].(pc := Refused)])
    ensures CallerOk(r.db, r.callers[c].(pc := Refused))
  {
    hide CanSaveEvent, SomeActive, CurrentIds;
  }

  lemma FinishedStep(r: Sys, c: Id, addWorks: bool)
    requires c in r.callers
    requires r.callers[c].pc == Returned || r.callers[c].pc == Refused || r.callers[c].pc == Stranded
    ensures CallerStep(r, c, addWorks) == r
  {
    hide CanSaveEvent, SomeActive, CurrentIds;
  }

  lemma SyncSaveIsSteady(r: Sys, id: Id, row: Service, logs: multiset<HealthLog>, alerts: multiset<Alert>)
    requires RestOk(r) && Enabled(r, SyncSave(id, row, logs, alerts))
    ensures var db := AfterSyncSave(r.db, id, row, logs, alerts); TablesOk(db) && Steady(r.db, db)
  {
    var db := AfterSyncSave(r.db, id, row, logs, alerts);
    SyncSaveKeepsTables(r.db, id, row, logs, alerts);
    SyncSaveAround(r.db, id, row, logs, alerts, r.db.next);
    SyncSaveLeavesEvents(r.db, id, row, logs, alerts);
    hide TablesOk, AfterSyncSave, Steady, Around, Keeps, EventsSteady, CanSaveService;
    SameEventsSteady(r.db, db);
    KeepingIsSteady(r.db, db);
  }

  lemma NobodyDisturbed(hostId: Id, serviceId: Id)
    ensures Disturb(map[], hostId, serviceId) == map[]
  {
  }

  lemma SyncSaveKeepsRest(r: Sys, id: Id, row: Service, logs: multiset<HealthLog>, alerts: multiset<Alert>)
    requires RestOk(r) && Enabled(r, SyncSave(id, row, logs, alerts))
    ensures var r' := Apply(r, SyncSave(id, row, logs, alerts)); RestOk(r') && Steady(r.db, r'.db)
  {
    var db := AfterSyncSave(r.db, id, row, logs, alerts);
    SyncSaveIsSteady(r, id, row, logs, alerts);
    SyncSaveEffect(r, id, row, logs, alerts);
    NobodyDisturbed(row.hostId, id);
    assert r.workers == map[];
    hide TablesOk, RestOk, Apply, Enabled, AfterSyncSave, Steady, Disturb;
    SteadyKeepsRest(r, db);
    assert Apply(r, SyncSave(id, row, logs, alerts)) == r.(db := db);
  }

  lemma CaptureBeginKeepsRest(r: Sys, t: Id, capture: Capture)
    requires RestOk(r) && Enabled(r, CaptureBegin(t, capture))
    ensures RestOk(Apply(r, CaptureBegin(t, capture)))
  {
    TablesFresh(r.db);
    assert FlipsOk(r.db, capture.flips, capture.serviceId);
    hide TablesOk, CallersOk, FlipsOk, CurrentIds;
  }

  /** What the end of a snapshot transaction makes of the tables. */
  function Ended(db: Db, x: Capture): Db {
    if CanCommit(db, x.serviceId, x.flips) then Commit(db, x.flips, CapturedSnapshot(x)) else db
  }

  lemma EndedIsSteady(db: Db, x: Capture)
    requires TablesOk(db) && FlipsOk(db, x.flips, x.serviceId)
    ensures TablesOk(Ended(db, x)) && Steady(db, Ended(db, x))
  {
    hide TablesOk, FlipsOk, CanCommit, Commit, Steady;
    SteadyRefl(db);
    if CanCommit(db, x.serviceId, x.flips) {
      CommitKeepsOwn(db, x.flips, CapturedSnapshot(x));
      CommitIsSteady(db, x.flips, CapturedSnapshot(x));
    }
  }

  lemma CaptureEndApplied(r: Sys, t: Id)
    requires t in r.captures && r.workers == map[]
    ensures Apply(r, CaptureEnd(t)) == r.(db := Ended(r.db, r.captures[t]), captures := r.captures - {t})
  {
    if r.captures[t].serviceId in r.db.services {
      NobodyDisturbed(r.db.services[r.captures[t].serviceId].hostId, r.captures[t].serviceId);
    }
    hide CanCommit, Commit, Disturb;
  }

  lemma DroppingCapture(r: Sys, t: Id)
    requires RestOk(r)
    ensures RestOk(r.(captures := r.captures - {t}))
  {
    hide TablesOk, CallersOk, FlipsOk;
  }

  lemma CaptureEndKeepsRest(r: Sys, t: Id)
    requires RestOk(r) && t in r.captures
    ensures RestOk(Apply(r, CaptureEnd(t))) && Steady(r.db, Apply(r, CaptureEnd(t)).db)
  {
    assert FlipsOk(r.db, r.captures[t].flips, r.captures[t].serviceId) && r.workers == map[] && TablesOk(r.db);
    hide RestOk, TablesOk, FlipsOk, Apply, Ended, Steady;
    EndedIsSteady(r.db, r.captures[t]);
    SteadyKeepsRest(r, Ended(r.db, r.captures[t]));
    DroppingCapture(r.(db := Ended(r.db, r.captures[t])), t);
    CaptureEndApplied(r, t);
  }

  lemma AddHostIsSteady(db: Db)
    requires TablesOk(db)
    ensures TablesOk(AddHost(db)) && Steady(db, AddHost(db))
  {
    AddHostKeepsTables(db);
    hide TablesOk;
  }

  lemma DropRowsSteady(db: Db, h: Id)
    ensures var after := RemoveHost(db, h);
            ServicesSteady(db, after) && SnapshotsSteady(db, after) && after.hosts <= db.hosts && after.next == db.next
  {
  }

  lemma DropEventsSteady(db: Db, h: Id)
    requires EventsReference(db.services, db.snapshots, db.events)
    ensures EventsSteady(db, RemoveHost(db, h))
  {
    var after := RemoveHost(db, h);
    forall i | i in db.events && i !in after.events
      ensures GoneFrom(after, db.events[i])
    {
      assert EventReferences(db.services, db.snapshots, db.events[i]);
    }
  }

  lemma DropHostIsSteady(db: Db, h: Id)
    requires TablesOk(db)
    ensures TablesOk(RemoveHost(db, h)) && Steady(db, RemoveHost(db, h))
  {
    assert EventsReference(db.services, db.snapshots, db.events);
    hide TablesOk, RemoveHost, ServicesSteady, SnapshotsSteady, EventsSteady, EventsReference;
    RemoveHostKeepsTables(db, h);
    DropRowsSteady(db, h);
    DropEventsSteady(db, h);
  }

  lemma ElsewhereKeepsRest(r: Sys, step: Label)
    requires RestOk(r) && !step.Deliver? && !step.Work? && Enabled(r, step)
    ensures RestOk(Apply(r, step)) && Steady(r.db, Apply(r, step).db)
  {
    SteadyRefl(r.db);
    assert TablesOk(r.db);
    hide RestOk, TablesOk, Steady, CallerStep, AfterSyncSave, RemoveHost, AddHost, CanSaveService;
    match step
    case Arrive(c, caller) =>
      MovingCallerKeepsRest(r, c, caller);
    case Call(c, addWorks) =>
      CallKeepsRest(r, c, addWorks);
    case SyncSave(id, row, logs, alerts) =>
      SyncSaveKeepsRest(r, id, row, logs, alerts);
    case CaptureBegin(t, capture) =>
      CaptureBeginKeepsRest(r, t, capture);
    case CaptureEnd(t) =>
      CaptureEndKeepsRest(r, t);
    case NewHost =>
      AddHostIsSteady(r.db);
      SteadyKeepsRest(r, AddHost(r.db));
    case DropHost(h) =>
      DropHostIsSteady(r.db, h);
      SteadyKeepsRest(r, RemoveHost(r.db, h));
  }

  // ---------- Whole histories ----------

  ghost predicate DeliveriesOk(db: Db, deliveries: map<Id, Delivery>) {
    forall d :: d in deliveries ==> DeliveryOk(db, deliveries[d].e, deliveries[d].worker)
  }

  ghost predicate SystemOk(s: System) {
    RestOk(s.rest) && DeliveriesOk(s.rest.db, s.deliveries)
  }

  lemma SteadyKeepsDeliveries(before: Db, after: Db, deliveries: map<Id, Delivery>)
    requires TablesOk(before) && Steady(before, after) && DeliveriesOk(before, deliveries)
    ensures DeliveriesOk(after, deliveries)
  {
    TablesFresh(before);
    hide TablesOk, FreshIds, Steady, DeliveryOk;
    forall d | d in deliveries
      ensures DeliveryOk(after, deliveries[d].e, deliveries[d].worker)
    {
      SteadyKeepsDelivery(before, after, deliveries[d].e, deliveries[d].worker);
    }
  }

  /** Every step keeps it, and changes the tables steadily. */
  lemma MoveKeepsSystem(s: System, move: Move)
    requires SystemOk(s) && Possible(s, move)
    ensures SystemOk(Moved(s, move)) && Steady(s.rest.db, Moved(s, move).rest.db)
  {
    assert TablesOk(s.rest.db);
    SteadyRefl(s.rest.db);
    match move
    case Elsewhere(step) =>
      hide RestOk, TablesOk, Steady, DeliveriesOk, Enabled, Apply;
      ElsewhereKeepsRest(s.rest, step);
      SteadyKeepsDeliveries(s.rest.db, Apply(s.rest, step).db, s.deliveries);
    case DeliverJob(d, e, worker) =>
      hide TablesOk, Steady, CallersOk, CapturesOk;
      assert DeliveryOk(s.rest.db, e, worker);
      hide DeliveryOk;
    case WorkOn(d) =>
      var e, w := s.deliveries[d].e, s.deliveries[d].worker;
      assert DeliveryOk(s.rest.db, e, w);
      hide RestOk, TablesOk, Steady, WorkerStep, DeliveryOk;
      WorkKeepsDelivery(s.rest.db, e, w);
      SteadyKeepsRest(s.rest, WorkerStep(s.rest.db, e, w).0);
      SteadyKeepsDeliveries(s.rest.db, WorkerStep(s.rest.db, e, w).0, s.deliveries);
  }

  lemma {:induction false} HistoryKeepsSystem(s: System, moves: seq<Move>)
    requires SystemOk(s) && IsHistory(s, moves)
    ensures SystemOk(Reached(s, moves))
    decreases |moves|
  {
    if moves != [] {
      hide SystemOk, Possible, Moved, Steady;
      MoveKeepsSystem(s, moves[0]);
      HistoryKeepsSystem(Moved(s, moves[0]), moves[1..]);
    }
  }

  lemma StartOk()
    ensures SystemOk(START)
  {
  }

  /**
    However often and to how many workers at once each job is delivered, and however everybody's steps interleave: a
    service has at most one active rollback event, exactly one current snapshot if it has any, and every event's
    snapshots are its own service's.
   */
  lemma TablesUnderRedelivery(moves: seq<Move>)
    requires IsHistory(START, moves)
    ensures var db := Reached(START, moves).rest.db;
            && (forall i, j | i in db.events && j in db.events ::
                  && db.events[i].serviceId == db.events[j].serviceId
                  && db.events[i].status in {Pending, InProgress} && db.events[j].status in {Pending, InProgress}
                  ==> i == j)
            && (forall i :: i in db.snapshots ==> OneCurrent(db.snapshots, db.snapshots[i].serviceId))
            && (forall i :: i in db.events ==> HasItsRows(db, db.events[i]))
  {
    StartOk();
    HistoryKeepsSystem(START, moves);
    hide IsHistory, Reached, DeliveriesOk;
    TablesMean(Reached(START, moves).rest.db);
  }

  /** Exactly one snapshot of the service is current. */
  predicate OneCurrent(snapshots: map<Id, Snapshot>, serviceId: Id) {
    exists j :: j in snapshots && snapshots[j].serviceId == serviceId && snapshots[j].isCurrent
                && forall k :: k in snapshots && snapshots[k].serviceId == serviceId && snapshots[k].isCurrent
                       ==> k == j
  }

  /** The event's service is there, and so are its two snapshots, which are that service's. */
  predicate HasItsRows(db: Db, row: Event) {
    && row.serviceId in db.services && row.fromSnapshotId in db.snapshots && row.toSnapshotId in db.snapshots
    && db.snapshots[row.fromSnapshotId].serviceId == row.serviceId
    && db.snapshots[row.toSnapshotId].serviceId == row.serviceId
  }

  lemma TablesMean(db: Db)
    requires TablesOk(db)
    ensures forall i, j | i in db.events && j in db.events ::
              && db.events[i].serviceId == db.events[j].serviceId
              && db.events[i].status in {Pending, InProgress} && db.events[j].status in {Pending, InProgress}
              ==> i == j
    ensures forall i :: i in db.snapshots ==> OneCurrent(db.snapshots, db.snapshots[i].serviceId)
    ensures forall i :: i in db.events ==> HasItsRows(db, db.events[i])
  {
    forall i | i in db.snapshots
      ensures OneCurrent(db.snapshots, db.snapshots[i].serviceId)
    {
      assert HasCurrent(db.snapshots, db.snapshots[i].serviceId);
      var j :| j in db.snapshots && IsCurrentFor(db.snapshots, j, db.snapshots[i].serviceId);
      CurrentIsOne(db.snapshots, j);
    }
    forall i | i in db.events
      ensures HasItsRows(db, db.events[i])
    {
      assert EventReferences(db.services, db.snapshots, db.events[i]);
    }
    hide FreshIds, HostsPresent, ServicesPresent, UniqueContainers, SomeCurrent, AtMostOneCurrent, EventsReference;
  }

  lemma CurrentIsOne(snapshots: map<Id, Snapshot>, j: Id)
    requires AtMostOneCurrent(snapshots) && j in snapshots && snapshots[j].isCurrent
    ensures OneCurrent(snapshots, snapshots[j].serviceId)
  {
  }

  // ---------- Deployment history ----------

  lemma SteadyReturnsNone(before: Db, after: Db)
    requires Steady(before, after)
    ensures NoneReturns(before, after)
  {
  }

  lemma MoveKeepsHistory(s: System, move: Move)
    requires SystemOk(s) && Possible(s, move)
    ensures HistoryKept(s.rest.db, Moved(s, move).rest.db) && NoneReturns(s.rest.db, Moved(s, move).rest.db)
  {
    MoveKeepsSystem(s, move);
    SteadyReturnsNone(s.rest.db, Moved(s, move).rest.db);
    HistoryKeptRefl(s.rest.db);
    assert ServicesPresent(s.rest.db.services, s.rest.db.snapshots);
    hide ServicesPresent, RestOk, Steady, HistoryKept, NoneReturns, WorkerStep, Enabled, Apply, DeliveriesOk;
    match move
    case Elsewhere(step) =>
      StepKeepsHistory(s.rest, step);
    case DeliverJob(d, e, worker) =>
    case WorkOn(d) =>
      WorkKeepsHistory(s.rest.db, s.deliveries[d].e, s.deliveries[d].worker);
  }

  lemma {:induction false} HistoryKeepsSnapshots(s: System, moves: seq<Move>)
    requires SystemOk(s) && IsHistory(s, moves)
    ensures HistoryKept(s.rest.db, Reached(s, moves).rest.db) && NoneReturns(s.rest.db, Reached(s, moves).rest.db)
    decreases |moves|
  {
    if moves == [] {
      HistoryKeptRefl(s.rest.db);
    } else {
      var s1 := Moved(s, moves[0]);
      assert FreshIds(s.rest.db) && ServicesPresent(s.rest.db.services, s.rest.db.snapshots);
      hide SystemOk, Possible, Moved, Steady, HistoryKept, NoneReturns, FreshIds, ServicesPresent;
      MoveKeepsSystem(s, moves[0]);
      MoveKeepsHistory(s, moves[0]);
      HistoryKeepsSnapshots(s1, moves[1..]);
      HistoryComposes(s.rest.db, s1.rest.db, Reached(s, moves).rest.db);
    }
  }

  /** Between any two moments, deployment history is only added to, whatever is delivered again. */
  lemma SnapshotsUnderRedelivery(first: seq<Move>, second: seq<Move>)
    requires IsHistory(START, first + second)
    ensures IsHistory(START, first)
    ensures HistoryKept(Reached(START, first).rest.db, Reached(START, first + second).rest.db)
  {
    hide SystemOk, HistoryKept, NoneReturns;
    StartOk();
    HistoriesCompose(START, first, second);
    HistoryKeepsSystem(START, first);
    HistoryKeepsSnapshots(Reached(START, first), second);
  }

  // ---------- What a delivery makes of an event's row ----------

  /** The row that the worker's next step saves, if it saves one. */
  function NextRow(w: Worker): Option<Event> {
    match w.pc
    case Loaded => Some(w.event.(status := InProgress))
    case Logging(k) =>
      if w.world.ssh.None? then None
      else if k < 4 then Some(w.event.(log := w.event.log + [CommandEntry(w.world.ssh.value, k)]))
      else if w.world.ssh.value.run.exitCode != Some(0) || w.world.listing.None? then None
      else Some(w.event.(log := w.event.log + [PostRollbackHealthCheck(Recreated(w).Some?, NewStatus(w))]))
    case HealthLogged => Some(w.event.(status := Succeeded, completedAt := Some(w.world.completedAt)))
    case Failing(reason) => Some(w.event.(log := w.event.log + [Failure(reason)]))
    case FailureLogged(_) => Some(w.event.(status := Failed, completedAt := Some(w.world.completedAt)))
    case _ => None
  }

  /** Another event of the service is active. */
  predicate OtherActive(db: Db, e: Id, serviceId: Id) {
    exists i :: i in db.events && i != e && db.events[i].serviceId == serviceId && Active(db.events[i].status)
  }

  /** The worker's next step saves its event, and no index stops it. */
  predicate Rewrites(db: Db, e: Id, w: Worker) {
    && e in db.events && NextRow(w).Some?
    && (Active(NextRow(w).value.status) ==> !OtherActive(db, e, w.event.serviceId))
  }

  lemma SavableIff(db: Db, e: Id, w: Worker, row: Event)
    requires TablesOk(db) && DeliveryOk(db, e, w) && HasRead(w.pc) && SameKeys(row, w.event)
    ensures CanSaveEvent(db, e, row)
      <==> e in db.events && (Active(row.status) ==> !OtherActive(db, e, w.event.serviceId))
  {
    if e in db.events {
      assert EventReferences(db.services, db.snapshots, db.events[e]);
    }
  }

  lemma SavingStepIs(db: Db, e: Id, w: Worker)
    requires NextRow(w).Some?
    ensures HasRead(w.pc) && SameKeys(NextRow(w).value, w.event)
    ensures WorkerStep(db, e, w).0
         == if CanSaveEvent(db, e, NextRow(w).value) then PutEvent(db, e, NextRow(w).value) else db
  {
    hide CanSaveEvent, PutEvent, CommandEntry, Recreated, NewStatus;
  }

  lemma OtherStepsSaveNone(db: Db, e: Id, w: Worker)
    requires NextRow(w).None?
    ensures WorkerStep(db, e, w).0.events == db.events
  {
    hide CanSaveEvent, CanSaveService, CanCommit, CommandEntry, Recreated, NewStatus, RolledBackService;
  }

  /**
    Whatever other deliveries have done, a worker's step leaves in its event's row exactly what the worker makes of its
    own copy, provided that it saves one, the row is still there and, for an active status, no other event of the
    service is active. Otherwise, and everywhere else, the events stay as they are.
   */
  lemma DeliveryWrites(db: Db, e: Id, w: Worker)
    requires TablesOk(db) && DeliveryOk(db, e, w)
    ensures WorkerStep(db, e, w).0.events
         == if Rewrites(db, e, w) then db.events[e := NextRow(w).value] else db.events
  {
    hide TablesOk, DeliveryOk, WorkerStep, NextRow, CanSaveEvent, OtherActive;
    if NextRow(w).Some? {
      SavingStepIs(db, e, w);
      SavableIff(db, e, w, NextRow(w).value);
    } else {
      OtherStepsSaveNone(db, e, w);
    }
  }

  /** At any moment of any history, a delivery's step changes a finished event's row exactly under that condition. */
  lemma FinishedRowChangesIff(moves: seq<Move>, d: Id)
    requires IsHistory(START, moves) && d in Reached(START, moves).deliveries
    requires var s := Reached(START, moves);
             s.deliveries[d].e in s.rest.db.events && !Active(s.rest.db.events[s.deliveries[d].e].status)
    ensures var s := Reached(START, moves);
            var e, w, db := s.deliveries[d].e, s.deliveries[d].worker, s.rest.db;
            var after := Moved(s, WorkOn(d)).rest.db;
            && e in after.events
            && (after.events[e] != db.events[e] <==> Rewrites(db, e, w) && NextRow(w).value != db.events[e])
            && (Rewrites(db, e, w) ==> after.events[e] == NextRow(w).value)
  {
    hide SystemOk, WorkerStep, Rewrites, NextRow;
    StartOk();
    HistoryKeepsSystem(START, moves);
    OfSystem(Reached(START, moves), d);
    DeliveryWrites(Reached(START, moves).rest.db, Reached(START, moves).deliveries[d].e,
                   Reached(START, moves).deliveries[d].worker);
  }

  lemma OfSystem(s: System, d: Id)
    requires SystemOk(s) && d in s.deliveries
    ensures TablesOk(s.rest.db) && DeliveryOk(s.rest.db, s.deliveries[d].e, s.deliveries[d].worker)
  {
  }

  /**
    A delivery that loaded the row while it was pending and starts after another one finished it: exactly when no other
    rollback of the service is active, the log and the completion time are erased.
   */
  lemma StaleCopyErasesLog(db: Db, e: Id, w: Worker)
    requires TablesOk(db) && DeliveryOk(db, e, w) && w.pc.Loaded? && IsFresh(w.event)
    requires e in db.events && !Active(db.events[e].status) && RowOk(db.events[e])
    ensures var after := WorkerStep(db, e, w).0;
            && e in after.events && db.events[e].log != [] && db.events[e].completedAt.Some?
            && (if OtherActive(db, e, w.event.serviceId) then after.events[e] == db.events[e]
                else after.events[e] == db.events[e].(status := InProgress, log := [], completedAt := None))
  {
    DeliveryWrites(db, e, w);
    hide TablesOk, WorkerStep, OtherActive, GoneTogether, ServiceCopyOk, FlipsOk;
  }

  /** A delivery about to succeed turns an event that another one marked failed into a success, whatever is active. */
  lemma LateSuccessReplacesFailure(db: Db, e: Id, w: Worker)
    requires TablesOk(db) && DeliveryOk(db, e, w) && w.pc.HealthLogged?
    requires e in db.events && db.events[e].status == Failed
    ensures var after := WorkerStep(db, e, w).0;
            && e in after.events && after.events[e].status == Succeeded
            && after.events[e].completedAt == Some(w.world.completedAt) && after.events[e].log == w.event.log
  {
    DeliveryWrites(db, e, w);
    hide TablesOk, DeliveryOk, WorkerStep, OtherActive;
  }

  // ---------- Single delivery is a special case ----------

  predicate SameWorker(a: Worker, b: Worker) {
    a == b.(undisturbed := a.undisturbed)
  }

  /** The same tables, callers and transactions, and for each worker the delivery that it answers. */
  ghost predicate Covers(t: System, s: Sys) {
    && t.rest == s.(queue := t.rest.queue, workers := map[])
    && (forall e :: e in s.queue ==> e in t.rest.queue)
    && t.deliveries.Keys == s.workers.Keys
    && (forall e :: e in s.workers ==> t.deliveries[e].e == e && SameWorker(t.deliveries[e].worker, s.workers[e]))
  }

  predicate SameResult(a: (Db, Worker), b: (Db, Worker)) {
    a.0 == b.0 && SameWorker(a.1, b.1)
  }

  lemma SameWritingStep(db: Db, e: Id, a: Worker, b: Worker)
    requires SameWorker(a, b) && Writes(a.pc)
    ensures SameResult(WritingStep(db, e, a), WritingStep(db, e, b))
  {
    assert Recreated(a) == Recreated(b) && NewStatus(a) == NewStatus(b);
    hide CanSaveEvent, PutEvent, Recreated, NewStatus, CommandEntry;
  }

  lemma SameSavingStep(db: Db, a: Worker, b: Worker)
    requires SameWorker(a, b)
    ensures SameResult(SavingServiceStep(db, a), SavingServiceStep(db, b))
  {
    assert Recreated(a) == Recreated(b) && NewStatus(a) == NewStatus(b);
    hide CanSaveService, PutService, Recreated, NewStatus;
  }

  lemma SameCommittingStep(db: Db, a: Worker, b: Worker)
    requires SameWorker(a, b)
    ensures SameResult(CommittingStep(db, a), CommittingStep(db, b))
  {
    hide CanCommit, Commit;
  }

  lemma SameReadingStep(db: Db, e: Id, a: Worker, b: Worker)
    requires SameWorker(a, b)
    ensures Noted(db, e, a) == Noted(db, e, b) && SameWorker(ReadingStep(db, e, a), ReadingStep(db, e, b))
  {
    assert Recreated(a) == Recreated(b) && NewStatus(a) == NewStatus(b);
    hide CurrentIds, Recreated, NewStatus;
  }

  lemma SameWorkerSteps(db: Db, e: Id, a: Worker, b: Worker)
    requires SameWorker(a, b)
    ensures SameResult(WorkerStep(db, e, a), WorkerStep(db, e, b))
  {
    hide WritingStep, SavingServiceStep, CommittingStep, ReadingStep, Noted;
    if Writes(a.pc) {
      SameWritingStep(db, e, a, b);
    } else {
      SameSavingStep(db, a, b);
      SameCommittingStep(db, a, b);
      SameReadingStep(db, e, a, b);
    }
  }

  /** The same but for the workers and the queue, in which nothing of the first is missing. */
  predicate SameRest(s: Sys, r: Sys) {
    r == s.(queue := r.queue, workers := r.workers) && forall e :: e in s.queue ==> e in r.queue
  }

  lemma AddIgnoresQueue(s: Sys, r: Sys, c: Id, addWorks: bool)
    requires SameRest(s, r) && c in s.callers && s.callers[c].pc == Inserted
    ensures var s', r' := CallerStep(s, c, addWorks), CallerStep(r, c, addWorks);
            SameRest(s', r') && s'.workers == s.workers && r'.workers == r.workers
  {
    hide CanSaveEvent, SomeActive, CurrentIds, PutEvent;
  }

  lemma InsertIgnoresQueue(s: Sys, r: Sys, c: Id, addWorks: bool)
    requires SameRest(s, r) && c in s.callers && s.callers[c].pc == NoneActive
    ensures var s', r' := CallerStep(s, c, addWorks), CallerStep(r, c, addWorks);
            SameRest(s', r') && s'.workers == s.workers && r'.workers == r.workers
  {
    hide CanSaveEvent, SomeActive, CurrentIds, PutEvent;
  }

  lemma AskingIgnoresQueue(s: Sys, r: Sys, c: Id, addWorks: bool)
    requires SameRest(s, r) && c in s.callers && s.callers[c].pc != Inserted && s.callers[c].pc != NoneActive
    ensures var s', r' := CallerStep(s, c, addWorks), CallerStep(r, c, addWorks);
            SameRest(s', r') && s'.workers == s.workers && r'.workers == r.workers
  {
    hide CanSaveEvent, SomeActive, CurrentIds, PutEvent;
  }

  /** The queue plays no part in a caller's step but for what is added to it. */
  lemma CallIgnoresQueue(s: Sys, r: Sys, c: Id, addWorks: bool)
    requires SameRest(s, r) && c in s.callers
    ensures var s', r' := CallerStep(s, c, addWorks), CallerStep(r, c, addWorks);
            SameRest(s', r') && s'.workers == s.workers && r'.workers == r.workers
  {
    hide SameRest, CallerStep;
    var pc := s.callers[c].pc;
    assert c in r.callers by {
      SameCallers(s, r);
    }
    if pc == Inserted {
      AddIgnoresQueue(s, r, c, addWorks);
    } else if pc == NoneActive {
      InsertIgnoresQueue(s, r, c, addWorks);
    } else {
      AskingIgnoresQueue(s, r, c, addWorks);
    }
  }

  lemma SameCallers(s: Sys, r: Sys)
    requires SameRest(s, r)
    ensures r.callers == s.callers
  {
  }

  function MoveOf(step: Label): Move {
    match step
    case Deliver(e, worker) => DeliverJob(e, e, worker)
    case Work(e) => WorkOn(e)
    case _ => Elsewhere(step)
  }

  lemma DeliverCovered(t: System, s: Sys, e: Id, worker: Worker)
    requires Covers(t, s) && Enabled(s, Deliver(e, worker)) && e !in s.workers
    ensures Possible(t, DeliverJob(e, e, worker))
    ensures Covers(Moved(t, DeliverJob(e, e, worker)), Apply(s, Deliver(e, worker)))
  {
  }

  lemma WorkCovered(t: System, s: Sys, e: Id)
    requires Covers(t, s) && e in s.workers
    ensures Possible(t, WorkOn(e)) && Covers(Moved(t, WorkOn(e)), Apply(s, Work(e)))
  {
    SameWorkerSteps(s.db, e, t.deliveries[e].worker, s.workers[e]);
    hide WorkerStep, SameWorker;
  }

  lemma DisturbedIsSame(workers: map<Id, Worker>, hostId: Id, serviceId: Id)
    ensures Disturb(workers, hostId, serviceId).Keys == workers.Keys
    ensures forall e :: e in workers ==> SameWorker(workers[e], Disturb(workers, hostId, serviceId)[e])
  {
  }

  lemma CallCovered(t: System, s: Sys, c: Id, addWorks: bool)
    requires Covers(t, s) && c in s.callers
    ensures Possible(t, Elsewhere(Call(c, addWorks)))
    ensures Covers(Moved(t, Elsewhere(Call(c, addWorks))), Apply(s, Call(c, addWorks)))
  {
    CallIgnoresQueue(s, t.rest, c, addWorks);
    hide CallerStep, SameWorker;
  }

  lemma SyncSaveCovered(t: System, s: Sys, step: Label)
    requires Covers(t, s) && Enabled(s, step) && step.SyncSave?
    ensures Possible(t, Elsewhere(step)) && Covers(Moved(t, Elsewhere(step)), Apply(s, step))
  {
    NobodyDisturbed(step.row.hostId, step.id);
    DisturbedIsSame(s.workers, step.row.hostId, step.id);
    hide Disturb, AfterSyncSave, CanSaveService;
  }

  lemma CaptureEndCovered(t: System, s: Sys, x: Id)
    requires Covers(t, s) && x in s.captures
    ensures Possible(t, Elsewhere(CaptureEnd(x)))
    ensures Covers(Moved(t, Elsewhere(CaptureEnd(x))), Apply(s, CaptureEnd(x)))
  {
    var sid := s.captures[x].serviceId;
    if sid in s.db.services {
      NobodyDisturbed(s.db.services[sid].hostId, sid);
      DisturbedIsSame(s.workers, s.db.services[sid].hostId, sid);
    }
    hide Disturb, Commit, CanCommit;
  }

  lemma ElsewhereCovered(t: System, s: Sys, step: Label)
    requires Covers(t, s) && Enabled(s, step) && !step.Deliver? && !step.Work?
    ensures Possible(t, Elsewhere(step)) && Covers(Moved(t, Elsewhere(step)), Apply(s, step))
  {
    if step.Call? {
      hide Covers, Possible, Moved, Apply;
      CallCovered(t, s, step.c, step.addWorks);
    } else if step.SyncSave? {
      hide Covers, Possible, Moved, Apply, Enabled;
      SyncSaveCovered(t, s, step);
    } else if step.CaptureEnd? {
      hide Covers, Possible, Moved, Apply;
      CaptureEndCovered(t, s, step.t);
    } else {
      hide SameWorker, RemoveHost, AddHost, CurrentIds, CallerStep, AfterSyncSave, Commit, CanCommit, Disturb;
    }
  }

  /** Every run in which each job is delivered once reaches tables that a history of this system reaches. */
  lemma {:induction false} SingleDeliveryIsCovered(t: System, s: Sys, steps: seq<Label>)
    requires Inv(s) && Covers(t, s) && IsRun(s, steps)
    ensures var moves := seq(|steps|, i requires 0 <= i < |steps| => MoveOf(steps[i]));
            IsHistory(t, moves) && Reached(t, moves).rest.db == After(s, steps).db
    decreases |steps|
  {
    var moves := seq(|steps|, i requires 0 <= i < |steps| => MoveOf(steps[i]));
    if steps != [] {
      var step := steps[0];
      assert moves[0] == MoveOf(step);
      assert moves[1..] == seq(|steps[1..]|, i requires 0 <= i < |steps[1..]| => MoveOf(steps[1..][i]));
      CoveredStep(t, s, step);
      StepKeepsInv(s, step);
      hide Inv, Covers, Possible, Moved, Apply, Enabled, MoveOf;
      SingleDeliveryIsCovered(Moved(t, moves[0]), Apply(s, step), steps[1..]);
    }
  }

  lemma CoveredStep(t: System, s: Sys, step: Label)
    requires Inv(s) && Covers(t, s) && Enabled(s, step)
    ensures Possible(t, MoveOf(step)) && Covers(Moved(t, MoveOf(step)), Apply(s, step))
  {
    assert QueueOk(s.db, s.queue, s.workers);
    hide Inv, Covers, Possible, Moved, Apply;
    if step.Deliver? {
      DeliverCovered(t, s, step.e, step.worker);
    } else if step.Work? {
      WorkCovered(t, s, step.e);
    } else {
      ElsewhereCovered(t, s, step);
    }
  }

  /** So whatever holds of the tables in all histories of this system holds in all runs with single delivery. */
  lemma EveryRunIsCovered(steps: seq<Label>)
    requires IsRun(INITIAL, steps)
    ensures exists moves :: IsHistory(START, moves) && Reached(START, moves).rest.db == After(INITIAL, steps).db
  {
    InitiallyInv();
    assert Covers(START, INITIAL);
    hide Inv, Covers;
    SingleDeliveryIsCovered(START, INITIAL, steps);
  }
}
