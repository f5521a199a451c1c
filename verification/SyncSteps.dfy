/** The sync in the rollback system: its writes are steps of that system, and it agrees with what a rollback left. */
module SyncSteps {
  import opened Wrappers
  import opened ImageReference
  import opened Tables
  import opened Rollback
  import opened RollbackInvariant
  import opened RollbackOutcome
  import opened RollbackJob
  import opened RollbackAlone
  import opened ServicesSync
  import DockerPs

  // ---------- A sync is a run ----------

  /** A run that leads to the given tables and ends with the same callers, queue and transactions. */
  ghost predicate RunTo(s: Sys, steps: seq<Label>, db: Db) {
    && IsRun(s, steps)
    && After(s, steps).db == db
    && After(s, steps).callers == s.callers
    && After(s, steps).queue == s.queue && After(s, steps).captures == s.captures
  }

  lemma RunsToConcat(s: Sys, first: seq<Label>, mid: Db, second: seq<Label>, db: Db)
    requires RunTo(s, first, mid) && RunTo(After(s, first), second, db)
    ensures RunTo(s, first + second, db)
  {
    RunsConcat(s, first, second);
  }

  ghost function SaveStep(db: Db, host: Host, c: DockerPs.Container, now: Time): Label {
    var id := TargetId(db, host, c.id);
    var loaded := LoadedRow(db, host, c.id);
    var row := Listed(loaded, c, now);
    SyncSave(id, row, multiset{HealthLog(id, row.status, SeenInListing)}, Transition(id, loaded.status, row.status))
  }

  lemma SaveStepEnabled(s: Sys, host: Host, c: DockerPs.Container, now: Time)
    requires TablesOk(s.db) && host.id in s.db.hosts
    ensures Enabled(s, SaveStep(s.db, host, c, now))
  {
    SavedKeepsTables(s.db, host, c, now);
    hide TablesOk, CanSaveService;
  }

  lemma SaveIsAStep(s: Sys, host: Host, c: DockerPs.Container, now: Time)
    requires TablesOk(s.db) && host.id in s.db.hosts
    ensures RunTo(s, [SaveStep(s.db, host, c, now)], Saved(s.db, host, c, now))
  {
    SaveStepEnabled(s, host, c, now);
    OneStepRun(s, SaveStep(s.db, host, c, now));
  }

  function CaptureOf(db: Db, serviceId: Id, item: Item): Capture
    requires item.inspection.Some?
  {
    Capture(serviceId, item.container.image, item.inspection.value.config, item.inspection.value.takenAt,
            CurrentIds(db, serviceId))
  }

  function CaptureSteps(db: Db, serviceId: Id, item: Item, t: Id): seq<Label> {
    if ImageIsCurrent(db, serviceId, item.container.image) || item.inspection.None? then []
    else [CaptureBegin(t, CaptureOf(db, serviceId, item)), CaptureEnd(t)]
  }

  /** Taking a snapshot is the two steps of its transaction. */
  lemma CaptureIsARun(s: Sys, serviceId: Id, item: Item, t: Id)
    requires t !in s.captures && serviceId in s.db.services
    ensures RunTo(s, CaptureSteps(s.db, serviceId, item, t), Captured(s.db, serviceId, item))
  {
    var steps := CaptureSteps(s.db, serviceId, item, t);
    if steps != [] {
      var x := CaptureOf(s.db, serviceId, item);
      var s1 := Apply(s, CaptureBegin(t, x));
      OneStepRun(s, CaptureBegin(t, x));
      OneStepRun(s1, CaptureEnd(t));
      hide Commit;
      assert s1.captures - {t} == s.captures;
      RunsConcat(s, [CaptureBegin(t, x)], [CaptureEnd(t)]);
      assert steps == [CaptureBegin(t, x)] + [CaptureEnd(t)];
    }
  }

  lemma UpsertIsARun(s: Sys, host: Host, item: Item, now: Time, t: Id)
    requires TablesOk(s.db) && host.id in s.db.hosts && t !in s.captures
    ensures exists steps :: RunTo(s, steps, Upserted(s.db, host, item, now))
  {
    var save := [SaveStep(s.db, host, item.container, now)];
    var saved := Saved(s.db, host, item.container, now);
    var id := TargetId(s.db, host, item.container.id);
    SaveIsAStep(s, host, item.container, now);
    SavedKeepsTables(s.db, host, item.container, now);
    hide TablesOk, Saved, Captured, CaptureSteps;
    CaptureIsARun(After(s, save), id, item, t);
    RunsToConcat(s, save, saved, CaptureSteps(saved, id, item, t), Upserted(s.db, host, item, now));
  }

  lemma {:induction false} UpsertsAreARun(s: Sys, host: Host, items: seq<Item>, now: Time, t: Id)
    requires TablesOk(s.db) && host.id in s.db.hosts && t !in s.captures
    ensures exists steps :: RunTo(s, steps, UpsertedAll(s.db, host, items, now))
    decreases |items|
  {
    if items == [] {
      assert RunTo(s, [], UpsertedAll(s.db, host, items, now));
    } else {
      var front, last := items[..|items| - 1], items[|items| - 1];
      var mid := UpsertedAll(s.db, host, front, now);
      hide TablesOk, Upserted, RunTo;
      UpsertsAreARun(s, host, front, now, t);
      var first :| RunTo(s, first, mid);
      RunToIs(s, first, mid);
      UpsertedAllKeepsTables(s.db, host, front, now);
      UpsertIsARun(After(s, first), host, last, now, t);
      var second :| RunTo(After(s, first), second, Upserted(mid, host, last, now));
      RunsToConcat(s, first, mid, second, UpsertedAll(s.db, host, items, now));
    }
  }

  lemma RunToIs(s: Sys, steps: seq<Label>, db: Db)
    requires RunTo(s, steps, db)
    ensures IsRun(s, steps) && After(s, steps).db == db && After(s, steps).captures == s.captures
  {
  }

  lemma MarkOneIsAStep(s: Sys, i: Id, now: Time)
    requires i in s.db.services
    requires CanSaveService(s.db, i, s.db.services[i].(status := Unknown, lastCheckedAt := now))
    ensures var row := s.db.services[i].(status := Unknown, lastCheckedAt := now);
            var logs := multiset{HealthLog(i, Unknown, MissingFromListing)};
            RunTo(s, [SyncSave(i, row, logs, multiset{})],
                  PutService(s.db, i, row).(healthLogs := s.db.healthLogs + logs))
  {
    var row := s.db.services[i].(status := Unknown, lastCheckedAt := now);
    var logs := multiset{HealthLog(i, Unknown, MissingFromListing)};
    OneStepRun(s, SyncSave(i, row, logs, multiset{}));
    assert s.db.alerts + multiset{} == s.db.alerts;
  }

  lemma MarkOneMoreIsAStep(s: Sys, db: Db, done: set<Id>, i: Id, now: Time)
    requires TablesOk(db) && i in db.services && i !in done && s.db == Marked(db, done, now)
    ensures exists steps :: RunTo(s, steps, Marked(db, done + {i}, now))
  {
    hide TablesOk, RunTo;
    MarkOneMore(db, done, i, now);
    hide Marked, CanSaveService;
    MarkOneIsAStep(s, i, now);
  }

  lemma MarkingGoesOn(s: Sys, rest: set<Id>, i: Id, now: Time, first: seq<Label>)
    requires TablesOk(s.db) && i in s.db.services && i !in rest && RunTo(s, first, Marked(s.db, rest, now))
    ensures exists steps :: RunTo(s, steps, Marked(s.db, rest + {i}, now))
  {
    hide TablesOk, RunTo, Marked, IsRun, After;
    RunToIs(s, first, Marked(s.db, rest, now));
    MarkOneMoreIsAStep(After(s, first), s.db, rest, i, now);
    var second :| RunTo(After(s, first), second, Marked(s.db, rest + {i}, now));
    RunsToConcat(s, first, Marked(s.db, rest, now), second, Marked(s.db, rest + {i}, now));
  }

  lemma {:induction false} MarkingIsARun(s: Sys, missing: set<Id>, now: Time)
    requires TablesOk(s.db) && missing <= s.db.services.Keys
    ensures exists steps :: RunTo(s, steps, Marked(s.db, missing, now))
    decreases |missing|
  {
    if missing == {} {
      MarkedNone(s.db, now);
      assert RunTo(s, [], s.db);
    } else {
      hide TablesOk, RunTo, Marked;
      var i :| i in missing;
      var rest := missing - {i};
      assert rest + {i} == missing;
      MarkingIsARun(s, rest, now);
      var first :| RunTo(s, first, Marked(s.db, rest, now));
      MarkingGoesOn(s, rest, i, now, first);
    }
  }

  /** So what the runs say of arbitrary sync steps covers the sync: alone, it is such a run. */
  lemma SyncIsARun(s: Sys, host: Host, items: seq<Item>, now: Time, t: Id)
    requires TablesOk(s.db) && host.id in s.db.hosts && t !in s.captures
    ensures exists steps :: RunTo(s, steps, Synced(s.db, host, items, now))
  {
    var mid := UpsertedAll(s.db, host, items, now);
    var missing := MissingIds(mid.services, host, IdsOf(items));
    assert missing <= mid.services.Keys;
    hide TablesOk, RunTo, Marked, UpsertedAll, MissingIds;
    UpsertsAreARun(s, host, items, now, t);
    var first :| RunTo(s, first, mid);
    RunToIs(s, first, mid);
    UpsertedAllKeepsTables(s.db, host, items, now);
    MarkingIsARun(After(s, first), missing, now);
    var second :| RunTo(After(s, first), second, Marked(mid, missing, now));
    RunsToConcat(s, first, mid, second, Synced(s.db, host, items, now));
  }

  // ---------- The sync after a rollback ----------

  /** Every entry for the container has this image. */
  predicate ListsOnly(items: seq<Item>, containerId: string, image: string) {
    forall k :: 0 <= k < |items| && items[k].container.id == containerId ==> items[k].container.image == image
  }

  lemma TargetImageIsCurrent(db: Db, w: Worker)
    requires OnTarget(db, w)
    ensures ImageIsCurrent(db, w.event.serviceId, db.snapshots[w.event.toSnapshotId].imageTag)
  {
    hide RunsFirstNamed;
    var n :| CurrentIds(db, w.event.serviceId) == {n} && n in db.snapshots
      && db.snapshots[n].imageTag == db.snapshots[w.event.toSnapshotId].imageTag
      && db.snapshots[n].config == db.snapshots[w.event.toSnapshotId].config
      && db.snapshots[n].deployedBy == Some(w.event.triggeredBy);
    assert n in CurrentIds(db, w.event.serviceId);
  }

  /**
    After a successful rollback, a sync that lists the recreated container with the target's image updates the very
    same row, keeping its image and tag, inserts no second row for the container, and takes no snapshot of the service.
   */
  lemma SyncAfterRollback(db: Db, w: Worker, host: Host, items: seq<Item>, now: Time)
    requires TablesOk(db) && OnTarget(db, w) && host.id == db.services[w.event.serviceId].hostId
    requires ListsOnly(items, db.services[w.event.serviceId].containerId, db.snapshots[w.event.toSnapshotId].imageTag)
    requires db.services[w.event.serviceId].containerId in IdsOf(items)
    ensures var sid := w.event.serviceId;
            var before, after := db.services[sid], Synced(db, host, items, now);
            && IsRowOf(after.services, sid, host.id, before.containerId)
            && (forall i :: IsRowOf(after.services, i, host.id, before.containerId) ==> i == sid)
            && after.services[sid].image == before.image && after.services[sid].currentTag == before.currentTag
            && after.services[sid].lastCheckedAt == now
            && SameSnapshotsOf(db.snapshots, after.snapshots, sid)
  {
    var sid := w.event.serviceId;
    var row, image := db.services[sid], db.snapshots[w.event.toSnapshotId].imageTag;
    assert host.id in db.hosts;
    assert SplitImageAndTag(image) == Reference(row.image, row.currentTag);
    TargetImageIsCurrent(db, w);
    LastListedFinds(items, row.containerId);
    LastListedImage(items, row.containerId, image);
    SyncedKeepsTables(db, host, items, now);
    InTables(Synced(db, host, items, now));
    hide TablesOk, OnTarget, ImageIsCurrent;
    UpsertsKeepSnapshots(db, host, items, now, sid, row.containerId);
    SyncIsAMapUpdate(db, host, items, now);
    assert Synced(db, host, items, now).services[sid] == SyncedRow(row, host, items, now);
    hide Synced, SyncsTo;
    assert IsRowOf(Synced(db, host, items, now).services, sid, host.id, row.containerId);
  }

  lemma {:induction false} LastListedImage(items: seq<Item>, containerId: string, image: string)
    requires ListsOnly(items, containerId, image)
    ensures LastListed(items, containerId).Some? ==> LastListed(items, containerId).value.image == image
  {
    if items != [] && items[|items| - 1].container.id != containerId {
      LastListedImage(items[..|items| - 1], containerId, image);
    }
  }

  // ---------- The sync that comes before the rollback saves the service ----------

  /** The worker's save of the service throws exactly when the host is gone or another row has the new container. */
  lemma ServiceSaveThrowsIff(db: Db, e: Id, w: Worker)
    requires w.pc == SavingService && Recreated(w).Some?
    ensures WorkerStep(db, e, w).1.pc.Crashed?
       <==> w.service.hostId !in db.hosts
            || exists i :: i in db.services && i != w.event.serviceId
                           && IsRowOf(db.services, i, w.service.hostId, Recreated(w).value.id)
  {
  }

  lemma RowOfAnother(db: Db, host: Host, c: DockerPs.Container, now: Time, serviceId: Id)
    requires TablesOk(db) && host.id in db.hosts && serviceId < db.next
    requires !IsRowOf(db.services, serviceId, host.id, c.id)
    ensures var i := TargetId(db, host, c.id);
            && i != serviceId && i in Saved(db, host, c, now).services
            && IsRowOf(Saved(db, host, c, now).services, i, host.id, c.id)
  {
    hide TablesOk, CanSaveService;
  }

  /** The system after the sync's save of the listed container. */
  ghost function AfterListing(s: Sys, host: Host, c: DockerPs.Container, now: Time): Sys {
    s.(db := Saved(s.db, host, c, now), workers := Disturb(s.workers, host.id, TargetId(s.db, host, c.id)))
  }

  /** It is what the system's own step gives. */
  lemma ListingIsApplied(s: Sys, host: Host, c: DockerPs.Container, now: Time)
    requires TablesOk(s.db) && host.id in s.db.hosts
    ensures Enabled(s, SaveStep(s.db, host, c, now))
    ensures Apply(s, SaveStep(s.db, host, c, now)) == AfterListing(s, host, c, now)
  {
    SaveStepEnabled(s, host, c, now);
    hide TablesOk, CanSaveService, AfterSyncSave, Disturb;
  }

  lemma ListingDisturbs(s: Sys, e: Id, host: Host, c: DockerPs.Container, now: Time)
    requires e in s.workers
    ensures var s1 := AfterListing(s, host, c, now);
            e in s1.workers && s1.workers[e] == s.workers[e].(undisturbed := s1.workers[e].undisturbed)
  {
    hide Saved;
  }

  /** Another row with the new container's id strands the rollback at its save. */
  lemma TakenContainerStrands(s: Sys, e: Id, i: Id)
    requires Inv(s) && e in s.workers && e in s.db.events
    requires var w := s.workers[e];
             && w.pc == SavingService && Recreated(w).Some? && i != w.event.serviceId
             && IsRowOf(s.db.services, i, w.service.hostId, Recreated(w).value.id)
    ensures Stuck(Worked(s, e), e)
  {
    hide Inv, Apply, Stuck, WorkerStep, Recreated;
    assert i in s.db.services;
    assert IsRowOf(s.db.services, i, s.workers[e].service.hostId, Recreated(s.workers[e]).value.id);
    ServiceSaveThrowsIff(s.db, e, s.workers[e]);
    CrashedSaveStrands(s, e);
  }

  lemma ListingGivesAnotherRow(s: Sys, e: Id, host: Host, c: DockerPs.Container, now: Time)
    requires Inv(s) && e in s.workers && HasRead(s.workers[e].pc) && host.id in s.db.hosts
    requires !IsRowOf(s.db.services, s.workers[e].event.serviceId, host.id, c.id)
    ensures var s1, i := AfterListing(s, host, c, now), TargetId(s.db, host, c.id);
            Inv(s1) && i != s.workers[e].event.serviceId && IsRowOf(s1.db.services, i, host.id, c.id)
  {
    OfInv(s, e);
    ListingSaves(s, host, c, now);
    hide Inv, Apply, Saved, WorkerOk, TablesOk, AfterListing, SaveStep, LoadedRow, TargetId, IsRowOf;
    ListingIsApplied(s, host, c, now);
    StepKeepsInv(s, SaveStep(s.db, host, c, now));
    RowOfAnother(s.db, host, c, now, s.workers[e].event.serviceId);
  }

  /** From the SSH session to the save of the service. */
  predicate BeforeSave(pc: Pc) {
    pc.TargetRead? || pc.Logging? || pc.Judged? || pc.SavingService?
  }

  predicate PastSave(pc: Pc) {
    ReasonOf(pc).Some? || AfterService(pc) || IsDone(pc)
  }

  /** The worker is at the same job with the same service, target and world. */
  predicate SameLoad(a: Worker, b: Worker) {
    a.service == b.service && a.target == b.target && a.world == b.world && a.event.serviceId == b.event.serviceId
  }

  predicate StillLoaded(a: Worker, b: Worker) {
    (BeforeSave(b.pc) && SameLoad(a, b)) || PastSave(b.pc)
  }

  lemma OwnStepStillLoaded(db: Db, e: Id, a: Worker, w: Worker)
    requires StillLoaded(a, w)
    ensures StillLoaded(a, WorkerStep(db, e, w).1)
  {
    hide CanSaveEvent, CanSaveService, CanCommit, Commit, CurrentIds, RolledBackService, Recreated, NewStatus, PutEvent;
  }

  lemma OthersLeaveLoad(s: Sys, step: Label, e: Id)
    requires Enabled(s, step) && e in s.workers && e !in s.queue && step != Work(e)
    ensures e in Apply(s, step).workers
    ensures var w := Apply(s, step).workers[e]; w == s.workers[e].(undisturbed := w.undisturbed)
  {
    if step.Call? {
      CallLeavesWorkers(s, step.c, step.addWorks);
    }
    hide WorkerStep, CallerStep, AfterSyncSave, CanSaveService, CanCommit, Commit, RemoveHost, CurrentIds;
  }

  lemma {:induction false} RunStillLoaded(s: Sys, steps: seq<Label>, e: Id, a: Worker)
    requires Inv(s) && IsRun(s, steps) && e in s.workers && StillLoaded(a, s.workers[e])
    ensures e in After(s, steps).workers && StillLoaded(a, After(s, steps).workers[e])
    decreases |steps|
  {
    if steps != [] {
      var step := steps[0];
      assert e !in s.queue;
      hide Inv, Apply, Enabled, WorkerStep;
      if step == Work(e) {
        OwnStepStillLoaded(s.db, e, a, s.workers[e]);
        WorkedIsApplied(s, e);
      } else {
        OthersLeaveLoad(s, step, e);
      }
      StepKeepsInv(s, step);
      RunStillLoaded(Apply(s, step), steps[1..], e, a);
    }
  }

  /** The sync lists the container that the worker's session has recreated, which is not the service's yet. */
  predicate ListsRecreated(db: Db, w: Worker, host: Host, c: DockerPs.Container) {
    && Recreated(w).Some? && Recreated(w).value.id == c.id
    && host.id == w.service.hostId && host.id in db.hosts && !IsRowOf(db.services, w.event.serviceId, host.id, c.id)
  }

  /**
    A sync that lists the recreated container at any time between the session and the worker's save of the service gives
    that container another row. If the row is still there when the worker comes to its save, whatever everybody has done
    in between, that save meets the unique index: the rollback throws and its event stays in progress for good.
   */
  lemma ListedTooEarlyStrands(s: Sys, e: Id, host: Host, c: DockerPs.Container, now: Time, steps: seq<Label>)
    requires Inv(s) && e in s.workers && BeforeSave(s.workers[e].pc) && ListsRecreated(s.db, s.workers[e], host, c)
    requires IsRun(AfterListing(s, host, c, now), steps)
    requires var s2 := After(AfterListing(s, host, c, now), steps);
             && e in s2.workers && s2.workers[e].pc == SavingService && e in s2.db.events
             && IsRowOf(s2.db.services, TargetId(s.db, host, c.id), host.id, c.id)
    ensures Stuck(Worked(After(AfterListing(s, host, c, now), steps), e), e)
  {
    hide Inv, IsRun, After, AfterListing, Stuck, Worked, TargetId, IsRowOf, StillLoaded, ListsRecreated, BeforeSave;
    var w, s1 := s.workers[e], AfterListing(s, host, c, now);
    ListingKeepsLoad(s, e, host, c, now);
    RunKeepsInv(s1, steps);
    RunStillLoaded(s1, steps, e, w);
    var s2 := After(s1, steps);
    RowStrands(s2, e, w, host, c, s.db, TargetId(s.db, host, c.id));
  }

  lemma ListingKeepsLoad(s: Sys, e: Id, host: Host, c: DockerPs.Container, now: Time)
    requires Inv(s) && e in s.workers && BeforeSave(s.workers[e].pc) && ListsRecreated(s.db, s.workers[e], host, c)
    ensures var s1 := AfterListing(s, host, c, now);
            && Inv(s1) && e in s1.workers && StillLoaded(s.workers[e], s1.workers[e])
            && TargetId(s.db, host, c.id) != s.workers[e].event.serviceId
  {
    ListingDisturbs(s, e, host, c, now);
    hide Inv, AfterListing, TargetId, IsRowOf;
    ListingGivesAnotherRow(s, e, host, c, now);
  }

  lemma RowStrands(s: Sys, e: Id, w: Worker, host: Host, c: DockerPs.Container, db: Db, i: Id)
    requires Inv(s) && e in s.workers && e in s.db.events && s.workers[e].pc == SavingService
    requires StillLoaded(w, s.workers[e]) && ListsRecreated(db, w, host, c)
    requires i != w.event.serviceId && IsRowOf(s.db.services, i, host.id, c.id)
    ensures Stuck(Worked(s, e), e)
  {
    hide Inv, Stuck, Worked, IsRowOf;
    assert SameLoad(w, s.workers[e]);
    assert Recreated(s.workers[e]) == Recreated(w);
    TakenContainerStrands(s, e, i);
  }

  // The worker alone after such a listing

  lemma NoOtherActiveOf(events: map<Id, Event>, e: Id)
    requires OneActive(events) && e in events && Active(events[e].status)
    ensures NoOtherActive(events, e, events[e].serviceId)
  {
  }

  lemma LoggingWorkerOk(db: Db, e: Id, w: Worker)
    requires TablesOk(db) && WorkerOk(db, e, w) && e in db.events && w.pc.Logging?
    ensures db.events[e] == w.event && w.event.status == InProgress && e < db.next
    ensures w.event.serviceId in db.services && db.services[w.event.serviceId].hostId == w.service.hostId
    ensures EventReferences(db.services, db.snapshots, w.event) && w.service.hostId in db.hosts
  {
    assert EventReferences(db.services, db.snapshots, db.events[e]);
    hide OneActive, AtMostOneCurrent, SomeCurrent, UniqueContainers, FreshIds;
  }

  lemma HeldByWorker(s: Sys, e: Id)
    requires Inv(s) && e in s.workers && e in s.db.events && s.workers[e].pc.Logging?
    ensures Holds(s.db, e, s.workers[e].event) && s.workers[e].service.hostId in s.db.hosts
    ensures s.workers[e].event.status == InProgress
  {
    OfInv(s, e);
    assert OneActive(s.db.events);
    hide Inv, TablesOk, WorkerOk, OneActive, NoOtherActive;
    LoggingWorkerOk(s.db, e, s.workers[e]);
    NoOtherActiveOf(s.db.events, e);
  }

  /**
    A worker that goes on alone after such a listing does come to that save: its session's success strands the event.
   */
  lemma ListedAfterSessionStrands(s: Sys, e: Id, host: Host, c: DockerPs.Container, now: Time)
    requires Inv(s) && e in s.workers && e in s.db.events && s.workers[e].pc == Logging(0)
    requires ListsRecreated(s.db, s.workers[e], host, c)
    requires s.workers[e].world.ssh.Some? && s.workers[e].world.ssh.value.run.exitCode == Some(0)
    requires NewStatus(s.workers[e]) == Running
    ensures IsRun(AfterListing(s, host, c, now), WorkSteps(e, 20))
    ensures Stuck(After(AfterListing(s, host, c, now), WorkSteps(e, 20)), e)
  {
    hide Inv, IsRun, After, AfterListing, Stuck, TargetId, IsRowOf, WorkSteps;
    ListingDisturbs(s, e, host, c, now);
    ListingSaves(s, host, c, now);
    ListingGivesAnotherRow(s, e, host, c, now);
    SessionThenStuck(AfterListing(s, host, c, now), e, s.workers[e], TargetId(s.db, host, c.id));
  }

  /** After a successful session, a worker alone whose container is another row's ends with its event stuck. */
  lemma SessionThenStuck(s: Sys, e: Id, before: Worker, i: Id)
    requires Inv(s) && e in s.workers && e in s.db.events
    requires var w := s.workers[e];
             && w == before.(undisturbed := w.undisturbed)
             && w.pc == Logging(0) && w.world.ssh.Some? && w.world.ssh.value.run.exitCode == Some(0)
             && i != w.event.serviceId
    requires Recreated(before).Some? && NewStatus(before) == Running
    requires IsRowOf(s.db.services, i, before.service.hostId, Recreated(before).value.id)
    ensures IsRun(s, WorkSteps(e, 20)) && Stuck(After(s, WorkSteps(e, 20)), e)
  {
    hide Inv, IsRun, After, RunAlone, Executed, ContainerTaken, Holds, IsRowOf, Recreated, NewStatus, WorkSteps;
    var w := s.workers[e];
    SameListing(before, w);
    HeldByWorker(s, e);
    AnotherRowTakes(s.db, w, i);
    CrashesAlone(s.db, e, w);
    CrashedAloneIsStuck(s, e);
  }

  lemma SameListing(a: Worker, b: Worker)
    requires b == a.(undisturbed := b.undisturbed)
    ensures Recreated(b) == Recreated(a) && NewStatus(b) == NewStatus(a)
  {
  }

  lemma CrashesAlone(db: Db, e: Id, w: Worker)
    requires Holds(db, e, w.event) && w.pc == Logging(0) && w.event.status == InProgress && w.service.hostId in db.hosts
    requires w.world.ssh.Some? && w.world.ssh.value.run.exitCode == Some(0)
    requires Recreated(w).Some? && NewStatus(w) == Running && ContainerTaken(db, w)
    ensures var r := RunAlone(db, e, w);
            r.1.pc == Crashed && e in r.0.events && r.0.events[e].status == InProgress
  {
    hide RunAlone, Executed, ContainerTaken, Holds, Recreated, NewStatus;
    ExecutingAlone(db, e, w);
    ExecutionStrandsIff(db, e, w);
  }

  lemma CrashedAloneIsStuck(s: Sys, e: Id)
    requires e in s.workers && s.workers[e].pc == Logging(0)
    requires var r := RunAlone(s.db, e, s.workers[e]);
             r.1.pc == Crashed && e in r.0.events && r.0.events[e].status == InProgress
    ensures IsRun(s, WorkSteps(e, 20)) && Stuck(After(s, WorkSteps(e, 20)), e)
  {
    hide RunAlone, IsRun, After, WorkSteps;
    AloneIsARun(s, e, 20);
  }

  lemma AnotherRowTakes(db: Db, w: Worker, i: Id)
    requires Recreated(w).Some? && i != w.event.serviceId
    requires IsRowOf(db.services, i, w.service.hostId, Recreated(w).value.id)
    ensures ContainerTaken(db, w)
  {
  }

  lemma ListingSaves(s: Sys, host: Host, c: DockerPs.Container, now: Time)
    ensures AfterListing(s, host, c, now).db == Saved(s.db, host, c, now)
    ensures AfterListing(s, host, c, now).db.events == s.db.events
  {
  }

  lemma OfInv(s: Sys, e: Id)
    requires Inv(s) && e in s.workers
    ensures TablesOk(s.db) && WorkerOk(s.db, e, s.workers[e])
    ensures HasRead(s.workers[e].pc) ==> s.workers[e].event.serviceId < s.db.next
  {
  }

  lemma SavingLeavesEvents(db: Db, e: Id, w: Worker)
    requires w.pc == SavingService
    ensures WorkerStep(db, e, w).0.events == db.events
  {
    hide CanSaveService, RolledBackService, Recreated;
  }

  lemma CrashedSaveStrands(s: Sys, e: Id)
    requires Inv(s) && e in s.workers && e in s.db.events && s.workers[e].pc == SavingService
    requires WorkerStep(s.db, e, s.workers[e]).1.pc.Crashed?
    ensures Stuck(Worked(s, e), e)
  {
    SavingLeavesEvents(s.db, e, s.workers[e]);
    hide Inv, Apply, WorkerStep, Stuck;
    StepKeepsInv(s, Work(e));
    WorkedIsApplied(s, e);
    CrashStrands(Worked(s, e), e);
  }
}
