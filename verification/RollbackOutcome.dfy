/**
  What a rollback leaves behind: a success, a failure, a job that was never queued or crashed, and
  a job that is delivered a second time.
 */
module RollbackOutcome {
  import opened Wrappers
  import opened ShellCommand
  import opened ImageReference
  import opened Tables
  import opened Rollback
  import opened RollbackInvariant
  import opened RollbackRuns

  // ---------- Deployment history is never rewritten ----------

  predicate SameButCurrent(a: Snapshot, b: Snapshot) {
    a.(isCurrent := b.isCurrent) == b
  }

  ghost predicate HistoryKept(before: Db, after: Db) {
    && before.next <= after.next
    && (forall i :: i in after.snapshots && i < before.next ==>
          i in before.snapshots && SameButCurrent(before.snapshots[i], after.snapshots[i]))
    && (forall i :: i in before.snapshots && i !in after.snapshots ==>
          before.snapshots[i].serviceId in before.services && before.snapshots[i].serviceId !in after.services)
  }

  lemma HistoryKeptRefl(db: Db)
    ensures HistoryKept(db, db)
  {
  }

  lemma CommitKeepsHistory(db: Db, flips: set<Id>, row: Snapshot)
    ensures HistoryKept(db, Commit(db, flips, row))
  {
  }

  lemma DropKeepsHistory(db: Db, h: Id)
    requires ServicesPresent(db.services, db.snapshots)
    ensures HistoryKept(db, RemoveHost(db, h))
  {
  }

  lemma SameSnapshotsKeepHistory(before: Db, after: Db)
    requires before.next <= after.next && after.snapshots == before.snapshots
    ensures HistoryKept(before, after)
  {
  }

  lemma WorkKeepsHistory(db: Db, e: Id, w: Worker)
    ensures HistoryKept(db, WorkerStep(db, e, w).0)
  {
    hide HistoryKept;
    if w.pc.InTransaction? {
      hide Commit;
      CommitKeepsHistory(db, w.flips, RolledBackSnapshot(w));
      HistoryKeptRefl(db);
    } else {
      hide CanSaveEvent, CanSaveService;
      WorkLeavesSnapshots(db, e, w);
      SameSnapshotsKeepHistory(db, WorkerStep(db, e, w).0);
    }
  }

  lemma WorkLeavesSnapshots(db: Db, e: Id, w: Worker)
    requires !w.pc.InTransaction?
    ensures WorkerStep(db, e, w).0.snapshots == db.snapshots && WorkerStep(db, e, w).0.next == db.next
  {
    hide CanSaveEvent, CanSaveService;
  }

  lemma CallLeavesSnapshots(s: Sys, c: Id, addWorks: bool)
    requires c in s.callers
    ensures var db := CallerStep(s, c, addWorks).db; db.snapshots == s.db.snapshots && s.db.next <= db.next
  {
    hide CanSaveEvent, SomeActive, CurrentIds;
  }

  /** No step alters a snapshot except for its current flag, and a snapshot goes only with its service. */
  lemma StepKeepsHistory(s: Sys, step: Label)
    requires ServicesPresent(s.db.services, s.db.snapshots) && Enabled(s, step)
    ensures HistoryKept(s.db, Apply(s, step).db)
  {
    hide ServicesPresent, HistoryKept, WorkerStep, CallerStep, Commit, CanCommit, RemoveHost, CurrentIds;
    hide CanSaveService;
    match step
    case Work(e) =>
      WorkKeepsHistory(s.db, e, s.workers[e]);
    case CaptureEnd(t) =>
      CommitKeepsHistory(s.db, s.captures[t].flips, CapturedSnapshot(s.captures[t]));
      HistoryKeptRefl(s.db);
    case DropHost(h) =>
      DropKeepsHistory(s.db, h);
    case Call(c, addWorks) =>
      CallLeavesSnapshots(s, c, addWorks);
      SameSnapshotsKeepHistory(s.db, Apply(s, step).db);
    case _ =>
      SameSnapshotsKeepHistory(s.db, Apply(s, step).db);
  }

  /** A removed service never comes back. */
  ghost predicate NoneReturns(before: Db, after: Db) {
    before.next <= after.next && forall i :: i in after.services && i < before.next ==> i in before.services
  }

  lemma HistoryComposes(a: Db, b: Db, c: Db)
    requires HistoryKept(a, b) && HistoryKept(b, c) && NoneReturns(a, b) && NoneReturns(b, c)
    requires ServicesPresent(a.services, a.snapshots) && FreshIds(a)
    ensures HistoryKept(a, c) && NoneReturns(a, c)
  {
    forall i | i in a.snapshots && i !in c.snapshots
      ensures a.snapshots[i].serviceId !in c.services
    {
      assert i in a.snapshots.Keys && a.snapshots[i].serviceId in a.services.Keys;
    }
    forall i | i in c.snapshots && i < a.next
      ensures i in a.snapshots && SameButCurrent(a.snapshots[i], c.snapshots[i])
    {
      assert SameButCurrent(b.snapshots[i], c.snapshots[i]);
    }
  }

  // ---------- What a worker has decided ----------

  predicate AfterService(pc: Pc) {
    pc.ServiceSaved? || pc.InTransaction? || pc.SnapshotSaved? || pc.HealthLogged?
  }

  /** The saved service row is on the recreated, running container, with the target's image and tag. */
  predicate IsRolledBack(w: Worker, row: Service) {
    && Recreated(w).Some? && NewStatus(w) == Running
    && row.containerId == Recreated(w).value.id
    && row.status == Running
    && SplitImageAndTag(w.target.imageTag) == Reference(row.image, row.currentTag)
  }

  predicate HasTarget(pc: Pc) {
    pc.TargetRead? || pc.Logging? || pc.Judged? || pc.SavingService? || AfterService(pc)
  }

  /** What holds of the worker's variables by its own decisions. */
  predicate DecidedOk(w: Worker) {
    && (w.pc.SavingService? ==> Recreated(w).Some? && NewStatus(w) == Running)
    && (AfterService(w.pc) ==> IsRolledBack(w, w.service))
  }

  /** The worker's target is the stored snapshot, which never changes. */
  predicate TargetOk(db: Db, w: Worker) {
    HasTarget(w.pc) && w.event.toSnapshotId in db.snapshots ==>
      SameButCurrent(db.snapshots[w.event.toSnapshotId], w.target)
  }

  /** As long as no sync touched the service, its row and its new snapshot are what the worker stored. */
  predicate UndisturbedOk(db: Db, w: Worker) {
    AfterService(w.pc) && w.undisturbed && w.event.serviceId in db.services ==>
      && db.services[w.event.serviceId] == w.service
      && (w.pc.SnapshotSaved? || w.pc.HealthLogged? ==>
            w.newSnapshot in db.snapshots && db.snapshots[w.newSnapshot] == RolledBackSnapshot(w))
  }

  predicate OutcomeOk(db: Db, w: Worker) {
    DecidedOk(w) && TargetOk(db, w) && UndisturbedOk(db, w)
  }

  ghost predicate OutcomesOk(s: Sys) {
    forall e :: e in s.workers ==> OutcomeOk(s.db, s.workers[e])
  }

  // The worker's own step

  lemma LookingUpKeepsOutcome(db: Db, e: Id, w: Worker)
    requires OutcomeOk(db, w)
    requires w.pc.Delivered? || w.pc.Started? || w.pc.ServiceRead? || w.pc.HostRead? || w.pc.TargetRead?
    ensures OutcomeOk(db, ReadingStep(db, e, w))
  {
    hide IsRolledBack, RolledBackSnapshot, CurrentIds;
  }

  lemma DecidingKeepsOutcome(db: Db, e: Id, w: Worker)
    requires OutcomeOk(db, w)
    requires (w.pc.Judged? || w.pc.ServiceSaved? || w.pc.SnapshotSaved? || ReasonOf(w.pc).Some? || IsDone(w.pc))
    requires Reads(w.pc)
    ensures OutcomeOk(db, ReadingStep(db, e, w))
  {
    hide CurrentIds;
  }

  lemma ReadingKeepsOutcome(db: Db, e: Id, w: Worker)
    requires OutcomeOk(db, w) && Reads(w.pc)
    ensures OutcomeOk(Noted(db, e, w), ReadingStep(db, e, w))
  {
    hide OutcomeOk, ReadingStep;
    if w.pc.Delivered? || w.pc.Started? || w.pc.ServiceRead? || w.pc.HostRead? || w.pc.TargetRead? {
      LookingUpKeepsOutcome(db, e, w);
    } else {
      DecidingKeepsOutcome(db, e, w);
    }
    SameTablesKeepOutcome(db, Noted(db, e, w), ReadingStep(db, e, w));
  }

  lemma SaveThenKeepsOutcome(db: Db, e: Id, w: Worker, row: Event, pc: Pc)
    requires OutcomeOk(db, w) && SameKeys(row, w.event)
    requires (HasTarget(pc) ==> HasTarget(w.pc)) && !pc.SavingService? && !AfterService(pc)
    ensures var (db', w') := SaveThen(db, e, w, row, pc); OutcomeOk(db', w')
  {
    hide CanSaveEvent;
  }

  lemma WritingKeepsOutcome(db: Db, e: Id, w: Worker)
    requires OutcomeOk(db, w) && Writes(w.pc)
    ensures var (db', w') := WritingStep(db, e, w); OutcomeOk(db', w')
  {
    hide OutcomeOk, SaveThen;
    match w.pc
    case Loaded =>
      SaveThenKeepsOutcome(db, e, w, w.event.(status := InProgress), Started);
    case Logging(k) =>
      if w.world.ssh.Some? && k < 4 {
        SaveThenKeepsOutcome(db, e, w, w.event.(log := w.event.log + [CommandEntry(w.world.ssh.value, k)]),
                             Logging(k + 1));
      } else if w.world.ssh.Some? && w.world.ssh.value.run.exitCode == Some(0) && w.world.listing.Some? {
        SaveThenKeepsOutcome(db, e, w,
                             w.event.(log := w.event.log + [PostRollbackHealthCheck(Recreated(w).Some?, NewStatus(w))]),
                             Judged);
      } else {
        StoppingIsOk(db, w, Crashed);
        StoppingIsOk(db, w, Failing(RunFailed));
      }
    case HealthLogged =>
      SaveThenKeepsOutcome(db, e, w, w.event.(status := Succeeded, completedAt := Some(w.world.completedAt)),
                           DoneSucceeded);
    case Failing(reason) =>
      SaveThenKeepsOutcome(db, e, w, w.event.(log := w.event.log + [Failure(reason)]), FailureLogged(reason));
    case FailureLogged(reason) =>
      SaveThenKeepsOutcome(db, e, w, w.event.(status := Failed, completedAt := Some(w.world.completedAt)),
                           FailureSaved(reason));
  }

  lemma StoppingIsOk(db: Db, w: Worker, pc: Pc)
    requires pc.Crashed? || pc.Failing?
    ensures OutcomeOk(db, w.(pc := pc))
  {
  }

  lemma SavingServiceKeepsOutcome(db: Db, e: Id, w: Worker)
    requires OutcomeOk(db, w) && w.pc.SavingService?
    ensures var (db', w') := SavingServiceStep(db, w); OutcomeOk(db', w')
  {
    hide CanSaveService;
  }

  lemma CommittingKeepsOutcome(db: Db, e: Id, w: Worker)
    requires OutcomeOk(db, w) && w.pc.InTransaction? && FreshIds(db) && w.event.toSnapshotId < db.next
    ensures var (db', w') := CommittingStep(db, w); OutcomeOk(db', w')
  {
    hide CanCommit;
  }

  lemma WorkKeepsOwnOutcome(db: Db, e: Id, w: Worker)
    requires OutcomeOk(db, w) && FreshIds(db) && WorkerOk(db, e, w)
    ensures var (db', w') := WorkerStep(db, e, w); OutcomeOk(db', w')
  {
    hide OutcomeOk, WritingStep, SavingServiceStep, CommittingStep, ReadingStep, Noted;
    if Writes(w.pc) {
      WritingKeepsOutcome(db, e, w);
    } else if w.pc.SavingService? {
      SavingServiceKeepsOutcome(db, e, w);
    } else if w.pc.InTransaction? {
      CommittingKeepsOutcome(db, e, w);
    } else {
      ReadingKeepsOutcome(db, e, w);
    }
  }

  // Everybody else's steps

  lemma HoldsActiveEvent(db: Db, e: Id, w: Worker)
    requires WorkerOk(db, e, w) && (w.pc.SavingService? || AfterService(w.pc)) && w.event.serviceId in db.services
    ensures e in db.events && Active(db.events[e].status) && db.events[e].serviceId == w.event.serviceId
  {
  }

  lemma NotTwoActive(events: map<Id, Event>, e: Id, x: Id)
    requires OneActive(events) && e in events && x in events && e != x
    requires Active(events[e].status) && Active(events[x].status)
    ensures events[e].serviceId != events[x].serviceId
  {
  }

  /** Two live workers never hold the same service: their events would both be active. */
  lemma WorkersHoldDifferentServices(s: Sys, e: Id, x: Id)
    requires Inv(s) && e in s.workers && x in s.workers && e != x
    requires (s.workers[e].pc.SavingService? || s.workers[e].pc.InTransaction?) && AfterService(s.workers[x].pc)
    requires s.workers[e].event.serviceId in s.db.services
    ensures s.workers[e].event.serviceId != s.workers[x].event.serviceId
  {
    assert WorkerOk(s.db, e, s.workers[e]);
    assert WorkerOk(s.db, x, s.workers[x]);
    assert OneActive(s.db.events);
    hide Inv, WorkerOk, OneActive, TablesOk;
    HoldsActiveEvent(s.db, e, s.workers[e]);
    if s.workers[x].event.serviceId in s.db.services {
      HoldsActiveEvent(s.db, x, s.workers[x]);
      NotTwoActive(s.db.events, e, x);
    }
  }

  /** What a step may do to the service and snapshots of somebody else's undisturbed worker. */
  ghost predicate LeavesAlone(before: Db, after: Db, w: Worker) {
    && (w.event.serviceId in after.services ==>
          && w.event.serviceId in before.services
          && after.services[w.event.serviceId] == before.services[w.event.serviceId])
    && (w.event.serviceId in after.services && w.newSnapshot in before.snapshots
        && before.snapshots[w.newSnapshot].serviceId == w.event.serviceId ==>
          w.newSnapshot in after.snapshots && after.snapshots[w.newSnapshot] == before.snapshots[w.newSnapshot])
  }

  lemma LeavingAloneKeepsOutcome(before: Db, after: Db, e: Id, w: Worker)
    requires OutcomeOk(before, w) && HistoryKept(before, after) && WorkerOk(before, e, w)
    requires AfterService(w.pc) && w.undisturbed ==> LeavesAlone(before, after, w)
    ensures OutcomeOk(after, w)
  {
  }

  lemma CommitLeavesOthersAlone(db: Db, flips: set<Id>, row: Snapshot, w: Worker)
    requires FlipsOk(db, flips, row.serviceId) && FreshIds(db) && row.serviceId != w.event.serviceId
    ensures LeavesAlone(db, Commit(db, flips, row), w)
  {
  }

  lemma SavingServiceLeavesAlone(db: Db, e: Id, w: Worker, other: Worker)
    requires WorkerOk(db, e, w) && w.pc.SavingService?
    requires w.event.serviceId in db.services ==> w.event.serviceId != other.event.serviceId
    ensures LeavesAlone(db, SavingServiceStep(db, w).0, other)
  {
    SavingServiceUpdates(db, e, w);
    hide WorkerOk, CanSaveService;
  }

  lemma CommittingLeavesAlone(db: Db, e: Id, w: Worker, other: Worker)
    requires FreshIds(db) && FlipsOk(db, w.flips, w.event.serviceId)
    requires w.event.serviceId in db.services ==> w.event.serviceId != other.event.serviceId
    ensures LeavesAlone(db, CommittingStep(db, w).0, other)
  {
    hide Commit, FlipsOk;
    if CanCommit(db, w.event.serviceId, w.flips) {
      CommitLeavesOthersAlone(db, w.flips, RolledBackSnapshot(w), other);
    }
  }

  lemma OtherWorkLeavesAlone(db: Db, e: Id, w: Worker, other: Worker)
    requires !w.pc.SavingService? && !w.pc.InTransaction?
    ensures LeavesAlone(db, WorkerStep(db, e, w).0, other)
  {
    hide CanSaveEvent;
  }

  lemma WorkLeavesOthersAlone(s: Sys, e: Id, x: Id)
    requires Inv(s) && e in s.workers && x in s.workers && e != x && AfterService(s.workers[x].pc)
    ensures LeavesAlone(s.db, WorkerStep(s.db, e, s.workers[e]).0, s.workers[x])
  {
    var w := s.workers[e];
    assert WorkerOk(s.db, e, w);
    TablesFresh(s.db);
    hide Inv, LeavesAlone, TablesOk, WritingStep, SavingServiceStep, CommittingStep, ReadingStep;
    if w.pc.SavingService? || w.pc.InTransaction? {
      if w.event.serviceId in s.db.services {
        WorkersHoldDifferentServices(s, e, x);
      }
      if w.pc.SavingService? {
        SavingServiceLeavesAlone(s.db, e, w, s.workers[x]);
      } else {
        CommittingLeavesAlone(s.db, e, w, s.workers[x]);
      }
    } else {
      OtherWorkLeavesAlone(s.db, e, w, s.workers[x]);
    }
  }

  lemma WorkKeepsOutcomes(s: Sys, e: Id)
    requires Inv(s) && OutcomesOk(s) && e in s.workers
    ensures OutcomesOk(Apply(s, Work(e)))
  {
    var db := WorkerStep(s.db, e, s.workers[e]).0;
    TablesFresh(s.db);
    WorkKeepsHistory(s.db, e, s.workers[e]);
    assert OutcomeOk(s.db, s.workers[e]);
    forall x | x in s.workers
      ensures WorkerOk(s.db, x, s.workers[x]) && OutcomeOk(s.db, s.workers[x])
    {
    }
    hide OutcomeOk, WorkerStep, HistoryKept, LeavesAlone, WorkerOk, Inv, TablesOk;
    WorkKeepsOwnOutcome(s.db, e, s.workers[e]);
    forall x | x in s.workers && x != e
      ensures OutcomeOk(db, s.workers[x])
    {
      if AfterService(s.workers[x].pc) {
        WorkLeavesOthersAlone(s, e, x);
      }
      LeavingAloneKeepsOutcome(s.db, db, x, s.workers[x]);
    }
  }

  /** The workers a sync step has not disturbed are those whose service it does not touch. */
  lemma SyncSaveLeavesAlone(s: Sys, id: Id, row: Service, logs: multiset<HealthLog>, alerts: multiset<Alert>, x: Id)
    requires Inv(s) && Enabled(s, SyncSave(id, row, logs, alerts)) && x in s.workers && HasRead(s.workers[x].pc)
    requires s.workers[x].event.serviceId != id
    ensures LeavesAlone(s.db, AfterSyncSave(s.db, id, row, logs, alerts), s.workers[x])
  {
    assert WorkerOk(s.db, x, s.workers[x]);
  }

  lemma DisturbKeepsOutcome(db: Db, w: Worker)
    requires OutcomeOk(db, w)
    ensures OutcomeOk(db, w.(undisturbed := false))
  {
  }

  lemma SyncSaveKeepsOutcomes(s: Sys, id: Id, row: Service, logs: multiset<HealthLog>, alerts: multiset<Alert>)
    requires Inv(s) && OutcomesOk(s) && Enabled(s, SyncSave(id, row, logs, alerts))
    ensures OutcomesOk(Apply(s, SyncSave(id, row, logs, alerts)))
  {
    var db := AfterSyncSave(s.db, id, row, logs, alerts);
    var workers := Disturb(s.workers, row.hostId, id);
    SyncSaveEffect(s, id, row, logs, alerts);
    SameSnapshotsKeepHistory(s.db, db);
    forall x | x in s.workers
      ensures WorkerOk(s.db, x, s.workers[x]) && OutcomeOk(s.db, s.workers[x])
    {
    }
    hide OutcomeOk, HistoryKept, LeavesAlone, WorkerOk, Inv, AfterSyncSave, Enabled, Apply;
    forall x | x in workers
      ensures OutcomeOk(db, workers[x])
    {
      var w := s.workers[x];
      if w.event.serviceId != id && AfterService(w.pc) {
        SyncSaveLeavesAlone(s, id, row, logs, alerts, x);
        LeavingAloneKeepsOutcome(s.db, db, x, w);
        DisturbKeepsOutcome(db, w);
      } else {
        DisturbThenKeep(s.db, db, x, w);
      }
    }
  }

  /** A disturbed worker, or one that has not saved its service, promises nothing about it. */
  lemma DisturbThenKeep(before: Db, after: Db, e: Id, w: Worker)
    requires OutcomeOk(before, w) && HistoryKept(before, after) && WorkerOk(before, e, w)
    ensures OutcomeOk(after, w.(undisturbed := false))
    ensures !AfterService(w.pc) ==> OutcomeOk(after, w)
  {
  }

  lemma CaptureEndKeepsOutcomes(s: Sys, t: Id)
    requires Inv(s) && OutcomesOk(s) && t in s.captures
    ensures OutcomesOk(Apply(s, CaptureEnd(t)))
  {
    var c := s.captures[t];
    assert FlipsOk(s.db, c.flips, c.serviceId);
    TablesFresh(s.db);
    if CanCommit(s.db, c.serviceId, c.flips) {
      var db := Commit(s.db, c.flips, CapturedSnapshot(c));
      var workers := Disturb(s.workers, s.db.services[c.serviceId].hostId, c.serviceId);
      CommitKeepsHistory(s.db, c.flips, CapturedSnapshot(c));
      forall x | x in s.workers
        ensures WorkerOk(s.db, x, s.workers[x]) && OutcomeOk(s.db, s.workers[x])
      {
      }
      hide OutcomeOk, HistoryKept, LeavesAlone, WorkerOk, Inv, Commit;
      forall x | x in workers
        ensures OutcomeOk(db, workers[x])
      {
        var w := s.workers[x];
        if w.event.serviceId != c.serviceId {
          CommitLeavesOthersAlone(s.db, c.flips, CapturedSnapshot(c), w);
          LeavingAloneKeepsOutcome(s.db, db, x, w);
          DisturbKeepsOutcome(db, w);
        } else {
          DisturbThenKeep(s.db, db, x, w);
        }
      }
    } else {
      hide OutcomeOk, Inv;
      forall x | x in s.workers
        ensures OutcomeOk(s.db, s.workers[x].(undisturbed := false))
      {
        DisturbKeepsOutcome(s.db, s.workers[x]);
      }
    }
  }

  lemma DropLeavesAlone(db: Db, h: Id, w: Worker)
    requires ServicesPresent(db.services, db.snapshots)
    ensures LeavesAlone(db, RemoveHost(db, h), w)
  {
  }

  lemma DropHostKeepsOutcomes(s: Sys, h: Id)
    requires Inv(s) && OutcomesOk(s) && h in s.db.hosts
    ensures OutcomesOk(Apply(s, DropHost(h)))
  {
    var db := RemoveHost(s.db, h);
    DropKeepsHistory(s.db, h);
    forall x | x in s.workers
      ensures WorkerOk(s.db, x, s.workers[x]) && OutcomeOk(s.db, s.workers[x])
    {
    }
    assert ServicesPresent(s.db.services, s.db.snapshots) && FreshIds(s.db);
    hide OutcomeOk, HistoryKept, LeavesAlone, WorkerOk, Inv, RemoveHost;
    forall x | x in s.workers
      ensures OutcomeOk(db, s.workers[x])
    {
      DropLeavesAlone(s.db, h, s.workers[x]);
      LeavingAloneKeepsOutcome(s.db, db, x, s.workers[x]);
    }
  }

  lemma SameTablesKeepOutcome(before: Db, after: Db, w: Worker)
    requires OutcomeOk(before, w) && after.services == before.services && after.snapshots == before.snapshots
    ensures OutcomeOk(after, w)
  {
  }

  lemma DeliverKeepsOutcomes(s: Sys, e: Id, worker: Worker)
    requires OutcomesOk(s) && Enabled(s, Deliver(e, worker))
    ensures OutcomesOk(Apply(s, Deliver(e, worker)))
  {
    assert OutcomeOk(s.db, worker);
    hide OutcomeOk;
  }

  lemma QuietStepKeepsOutcomes(s: Sys, step: Label)
    requires OutcomesOk(s) && Enabled(s, step)
    requires step.Arrive? || step.Call? || step.CaptureBegin? || step.NewHost?
    ensures OutcomesOk(Apply(s, step))
  {
    hide OutcomeOk, CanSaveEvent, SomeActive, CurrentIds;
    var s' := Apply(s, step);
    assert s'.workers == s.workers && s'.db.services == s.db.services && s'.db.snapshots == s.db.snapshots;
    hide Apply, Enabled;
    forall x | x in s.workers
      ensures OutcomeOk(s'.db, s.workers[x])
    {
      SameTablesKeepOutcome(s.db, s'.db, s.workers[x]);
    }
  }

  lemma StepKeepsOutcomes(s: Sys, step: Label)
    requires Inv(s) && OutcomesOk(s) && Enabled(s, step)
    ensures OutcomesOk(Apply(s, step))
  {
    hide Inv, OutcomesOk, Apply, CanSaveService;
    match step
    case Work(e) =>
      WorkKeepsOutcomes(s, e);
    case SyncSave(id, row, logs, alerts) =>
      SyncSaveKeepsOutcomes(s, id, row, logs, alerts);
    case CaptureEnd(t) =>
      CaptureEndKeepsOutcomes(s, t);
    case DropHost(h) =>
      DropHostKeepsOutcomes(s, h);
    case Deliver(e, worker) =>
      DeliverKeepsOutcomes(s, e, worker);
    case _ =>
      QuietStepKeepsOutcomes(s, step);
  }

  lemma {:induction false} RunKeepsOutcomes(s: Sys, steps: seq<Label>)
    requires Inv(s) && OutcomesOk(s) && IsRun(s, steps)
    ensures OutcomesOk(After(s, steps))
    decreases |steps|
  {
    if steps != [] {
      hide Inv, OutcomesOk, Apply, Enabled;
      StepKeepsInv(s, steps[0]);
      StepKeepsOutcomes(s, steps[0]);
      RunKeepsOutcomes(Apply(s, steps[0]), steps[1..]);
    }
  }

  // ---------- A success ----------

  lemma InitiallyOutcomesOk()
    ensures Inv(INITIAL) && OutcomesOk(INITIAL)
  {
    InitiallyInv();
  }

  /** The one current snapshot of the service is this user's deployment of the target's image and configuration. */
  ghost predicate CurrentIsLike(db: Db, serviceId: Id, target: Id, userId: Id)
    requires target in db.snapshots
  {
    exists n :: CurrentIds(db, serviceId) == {n} && n in db.snapshots
                && db.snapshots[n].imageTag == db.snapshots[target].imageTag
                && db.snapshots[n].config == db.snapshots[target].config
                && db.snapshots[n].deployedBy == Some(userId)
  }

  /**
    The target is deployed: the service row is on the first listed container with the target's name, which is running,
    and it and the one current snapshot are the target's in image, tag and configuration.
   */
  ghost predicate Deployed(db: Db, serviceId: Id, target: Id, userId: Id, listing: Option<seq<DockerPs.Container>>) {
    && serviceId in db.services && target in db.snapshots && listing.Some?
    && db.services[serviceId].status == Running
    && RunsFirstNamed(listing.value, db.snapshots[target].config.containerName, db.services[serviceId].containerId)
    && SplitImageAndTag(db.snapshots[target].imageTag)
       == Reference(db.services[serviceId].image, db.services[serviceId].currentTag)
    && CurrentIsLike(db, serviceId, target, userId)
  }

  ghost predicate OnTarget(db: Db, w: Worker) {
    Deployed(db, w.event.serviceId, w.event.toSnapshotId, w.event.triggeredBy, w.world.listing)
  }

  lemma RecreatedRuns(w: Worker)
    requires Recreated(w).Some? && NewStatus(w) == Running
    ensures w.world.listing.Some?
    ensures RunsFirstNamed(w.world.listing.value, w.target.config.containerName, Recreated(w).value.id)
  {
    var containers, c := w.world.listing.value, Recreated(w).value;
    FindsFirstNamed(containers, w.target.config.containerName);
    ClassificationIs(c.status);
    var k :| FirstNamed(containers, k, w.target.config.containerName) && containers[k] == c;
    assert containers[k].id == c.id && ReadsAsRunning(containers[k].status);
  }

  lemma UndisturbedIsOnTarget(db: Db, e: Id, w: Worker)
    requires TablesOk(db) && WorkerOk(db, e, w) && OutcomeOk(db, w)
    requires w.pc.HealthLogged? && w.undisturbed && e in db.events
    ensures OnTarget(db, w)
  {
    assert EventReferences(db.services, db.snapshots, db.events[e]);
    var n := w.newSnapshot;
    assert IsCurrentFor(db.snapshots, n, w.event.serviceId);
    CurrentIsOnly(db, n, w.event.serviceId);
    RecreatedRuns(w);
    hide RunsFirstNamed, Recreated, NewStatus, TablesOk, WorkerOk, CurrentIds;
  }

  lemma CurrentIsOnly(db: Db, n: Id, serviceId: Id)
    requires AtMostOneCurrent(db.snapshots) && n in db.snapshots && IsCurrentFor(db.snapshots, n, serviceId)
    ensures CurrentIds(db, serviceId) == {n}
  {
  }

  lemma OfWorker(s: Sys, e: Id)
    requires Inv(s) && OutcomesOk(s) && e in s.workers
    ensures TablesOk(s.db) && WorkerOk(s.db, e, s.workers[e]) && OutcomeOk(s.db, s.workers[e])
  {
  }

  lemma LastStepSucceeds(s: Sys, e: Id)
    requires Inv(s) && OutcomesOk(s) && e in s.workers && e in s.db.events
    requires s.workers[e].pc.HealthLogged? && s.workers[e].undisturbed
    ensures var (db', w') := WorkerStep(s.db, e, s.workers[e]);
            && w'.pc.DoneSucceeded?
            && e in db'.events && db'.events[e].status == Succeeded
            && OnTarget(db', s.workers[e])
  {
    var w := s.workers[e];
    hide OnTarget, Inv, OutcomesOk, TablesOk, WorkerOk, OutcomeOk, WorkerStep;
    OfWorker(s, e);
    UndisturbedIsOnTarget(s.db, e, w);
    LastSaveSucceeds(s.db, e, w);
    OnTargetIgnoresEvents(s.db, e, w, w.event.(status := Succeeded, completedAt := Some(w.world.completedAt)));
  }

  /** A sync saves the worker's service, or another of its host, or finishes a snapshot of one. */
  predicate SyncsService(s: Sys, step: Label, w: Worker) {
    match step
    case SyncSave(id, row, _, _) => row.hostId == w.service.hostId || id == w.event.serviceId
    case CaptureEnd(t) =>
      && t in s.captures && s.captures[t].serviceId in s.db.services
      && (|| s.db.services[s.captures[t].serviceId].hostId == w.service.hostId
          || s.captures[t].serviceId == w.event.serviceId)
    case _ => false
  }

  /** No sync of the worker's host takes a step along the run. */
  ghost predicate NotSynced(s: Sys, steps: seq<Label>, e: Id)
    requires IsRun(s, steps)
    decreases |steps|
  {
    steps != [] ==>
      && (e in s.workers ==> !SyncsService(s, steps[0], s.workers[e]))
      && NotSynced(Apply(s, steps[0]), steps[1..], e)
  }

  lemma OwnStepStaysUndisturbed(db: Db, e: Id, w: Worker)
    requires w.undisturbed
    ensures WorkerStep(db, e, w).1.undisturbed
  {
    hide CanSaveEvent, CanSaveService, CanCommit, Commit, CurrentIds, Recreated, NewStatus, RolledBackService;
  }

  lemma StepLeavesUndisturbed(s: Sys, step: Label, e: Id)
    requires Enabled(s, step) && e in s.workers && e !in s.queue && s.workers[e].undisturbed
    requires !SyncsService(s, step, s.workers[e])
    ensures e in Apply(s, step).workers && Apply(s, step).workers[e].undisturbed
  {
    if step.Work? {
      OwnStepStaysUndisturbed(s.db, e, s.workers[e]);
    } else if step.Call? {
      CallLeavesWorkers(s, step.c, step.addWorks);
    }
    hide WorkerStep, CallerStep, AfterSyncSave, CanSaveService, CanCommit, Commit, RemoveHost, CurrentIds;
  }

  lemma {:induction false} NotSyncedStaysUndisturbed(s: Sys, steps: seq<Label>, e: Id)
    requires Inv(s) && IsRun(s, steps) && NotSynced(s, steps, e) && e in s.workers && s.workers[e].undisturbed
    ensures e in After(s, steps).workers && After(s, steps).workers[e].undisturbed
    decreases |steps|
  {
    if steps != [] {
      assert e !in s.queue;
      hide Inv, Apply, Enabled, SyncsService;
      StepLeavesUndisturbed(s, steps[0], e);
      StepKeepsInv(s, steps[0]);
      NotSyncedStaysUndisturbed(Apply(s, steps[0]), steps[1..], e);
    }
  }

  lemma SavingUndisturbs(db: Db, e: Id, w: Worker)
    requires w.pc == SavingService && WorkerStep(db, e, w).1.pc == ServiceSaved
    ensures WorkerStep(db, e, w).1.undisturbed
  {
    hide CanSaveService, RolledBackService, Recreated;
  }

  /**
    The same in terms of the steps taken: the worker saves its service, no sync of its host takes a step until the
    worker is about to finish, and then it finishes. Everybody else may do anything in between.
   */
  lemma SuccessWithoutSyncLeavesTarget(first: seq<Label>, e: Id, second: seq<Label>)
    requires IsRun(INITIAL, first) && e in After(INITIAL, first).workers
    requires After(INITIAL, first).workers[e].pc == SavingService
    requires var s1 := Worked(After(INITIAL, first), e);
             s1.workers[e].pc == ServiceSaved && IsRun(s1, second) && NotSynced(s1, second, e)
    requires var s2 := After(Worked(After(INITIAL, first), e), second);
             e in s2.workers && s2.workers[e].pc == HealthLogged && e in s2.db.events
    ensures var s2 := After(Worked(After(INITIAL, first), e), second);
            var s3 := Worked(s2, e);
            && s3.workers[e].pc == DoneSucceeded
            && e in s3.db.events && s3.db.events[e].status == Succeeded && OnTarget(s3.db, s2.workers[e])
  {
    hide OnTarget, Inv, OutcomesOk, IsRun, After, Worked, NotSynced;
    InitiallyOutcomesOk();
    RunKeepsInv(INITIAL, first);
    RunKeepsOutcomes(INITIAL, first);
    SaveKeepsAll(After(INITIAL, first), e);
    FinishWithoutSync(Worked(After(INITIAL, first), e), e, second);
  }

  lemma SaveKeepsAll(s: Sys, e: Id)
    requires Inv(s) && OutcomesOk(s) && e in s.workers && s.workers[e].pc == SavingService
    requires Worked(s, e).workers[e].pc == ServiceSaved
    ensures Inv(Worked(s, e)) && OutcomesOk(Worked(s, e))
    ensures e in Worked(s, e).workers && Worked(s, e).workers[e].undisturbed
  {
    hide Inv, OutcomesOk, WorkerStep, Apply;
    WorkedIsApplied(s, e);
    SavingUndisturbs(s.db, e, s.workers[e]);
    StepKeepsInv(s, Work(e));
    StepKeepsOutcomes(s, Work(e));
  }

  lemma FinishWithoutSync(s: Sys, e: Id, steps: seq<Label>)
    requires Inv(s) && OutcomesOk(s) && e in s.workers && s.workers[e].undisturbed
    requires IsRun(s, steps) && NotSynced(s, steps, e)
    requires var s2 := After(s, steps); e in s2.workers && s2.workers[e].pc == HealthLogged && e in s2.db.events
    ensures var s2 := After(s, steps);
            var s3 := Worked(s2, e);
            && s3.workers[e].pc == DoneSucceeded
            && e in s3.db.events && s3.db.events[e].status == Succeeded && OnTarget(s3.db, s2.workers[e])
  {
    hide OnTarget, Inv, OutcomesOk, IsRun, After, WorkerStep, NotSynced;
    NotSyncedStaysUndisturbed(s, steps, e);
    RunKeepsInv(s, steps);
    RunKeepsOutcomes(s, steps);
    LastStepSucceeds(After(s, steps), e);
  }

  lemma LastSaveSucceeds(db: Db, e: Id, w: Worker)
    requires TablesOk(db) && WorkerOk(db, e, w) && w.pc.HealthLogged? && e in db.events
    ensures var row := w.event.(status := Succeeded, completedAt := Some(w.world.completedAt));
            WorkerStep(db, e, w) == (PutEvent(db, e, row), w.(event := row, pc := DoneSucceeded))
  {
    SaveFailsOnlyIfRemoved(db, e, w, w.event.(status := Succeeded, completedAt := Some(w.world.completedAt)));
    hide TablesOk, WorkerOk, CanSaveEvent;
  }

  lemma OnTargetIgnoresEvents(db: Db, e: Id, w: Worker, row: Event)
    requires OnTarget(db, w)
    ensures OnTarget(PutEvent(db, e, row), w)
  {
    var after := PutEvent(db, e, row);
    assert CurrentIds(after, w.event.serviceId) == CurrentIds(db, w.event.serviceId);
    hide CurrentIds, RunsFirstNamed;
  }

  // ---------- A failure ----------

  /** Program points after which a job can no longer end as failed. */
  predicate PastFailing(pc: Pc) {
    AfterService(pc) || pc.DoneSucceeded? || pc.Crashed? || pc.Skipped?
  }

  lemma PastFailingIsFinal(db: Db, e: Id, w: Worker)
    requires PastFailing(w.pc)
    ensures PastFailing(WorkerStep(db, e, w).1.pc)
  {
    hide CanSaveEvent, CanCommit, CanSaveService;
  }

  lemma EarlyStepsTouchNothing(db: Db, e: Id, w: Worker)
    requires !PastFailing(WorkerStep(db, e, w).1.pc)
    ensures WorkerStep(db, e, w).0.services == db.services && WorkerStep(db, e, w).0.snapshots == db.snapshots
  {
    hide CanSaveEvent, CanCommit, CanSaveService;
  }

  /** None of the job's own steps along the run changes a service or a snapshot. */
  ghost predicate TouchesNothing(s: Sys, steps: seq<Label>, e: Id)
    requires IsRun(s, steps)
    decreases |steps|
  {
    steps != [] ==>
      && (steps[0] == Work(e) ==>
            Apply(s, steps[0]).db.services == s.db.services && Apply(s, steps[0]).db.snapshots == s.db.snapshots)
      && TouchesNothing(Apply(s, steps[0]), steps[1..], e)
  }

  lemma PcOfWorker(s: Sys, step: Label, e: Id)
    requires Inv(s) && Enabled(s, step) && e in s.workers
    ensures e in Apply(s, step).workers
    ensures step != Work(e) ==> Apply(s, step).workers[e].pc == s.workers[e].pc
    ensures step == Work(e) ==> Apply(s, step).workers[e].pc == WorkerStep(s.db, e, s.workers[e]).1.pc
  {
    assert e !in s.queue;
    hide Inv, WorkerStep, CallerStep, AfterSyncSave, CanSaveService, CanCommit, Commit, RemoveHost;
    if step.Call? {
      CallLeavesWorkers(s, step.c, step.addWorks);
    }
  }

  lemma CallLeavesWorkers(s: Sys, c: Id, addWorks: bool)
    requires c in s.callers
    ensures CallerStep(s, c, addWorks).workers == s.workers
  {
    hide CanSaveEvent, SomeActive, CurrentIds;
  }

  lemma {:induction false} StaysPastFailing(s: Sys, steps: seq<Label>, e: Id)
    requires Inv(s) && IsRun(s, steps) && e in s.workers && PastFailing(s.workers[e].pc)
    ensures e in After(s, steps).workers && PastFailing(After(s, steps).workers[e].pc)
    decreases |steps|
  {
    if steps != [] {
      hide Inv, Apply, Enabled, PastFailing, WorkerStep;
      PcOfWorker(s, steps[0], e);
      PastFailingIsFinal(s.db, e, s.workers[e]);
      StepKeepsInv(s, steps[0]);
      StaysPastFailing(Apply(s, steps[0]), steps[1..], e);
    }
  }

  /** A job that ends failed has left every service and every snapshot untouched in all of its steps. */
  lemma {:induction false} FailedJobTouchedNothing(s: Sys, steps: seq<Label>, e: Id)
    requires Inv(s) && IsRun(s, steps)
    requires e in After(s, steps).workers && ReasonOf(After(s, steps).workers[e].pc).Some?
    ensures TouchesNothing(s, steps, e)
    decreases |steps|
  {
    if steps != [] {
      hide Inv, PastFailing, WorkerStep;
      var s1 := Apply(s, steps[0]);
      StepKeepsInv(s, steps[0]);
      if steps[0] == Work(e) {
        PcOfWorker(s, steps[0], e);
        if PastFailing(s1.workers[e].pc) {
          StaysPastFailing(s1, steps[1..], e);
          NotPastFailing(After(s, steps).workers[e].pc);
        } else {
          EarlyStepsTouchNothing(s.db, e, s.workers[e]);
        }
      }
      FailedJobTouchedNothing(s1, steps[1..], e);
    }
  }

  lemma NotPastFailing(pc: Pc)
    requires ReasonOf(pc).Some?
    ensures !PastFailing(pc)
  {
  }

  // ---------- A job that was never queued, or that crashed ----------

  /** The hands a stuck event is in: a crashed worker's, or nobody's. */
  ghost predicate Abandoned(s: Sys, e: Id) {
    if e in s.workers then s.workers[e].pc.Crashed?
    else e !in s.queue && forall c :: c in s.callers && s.callers[c].pc == Inserted ==> s.callers[c].eventId != e
  }

  /** Nobody will ever work on this active event again. */
  ghost predicate Stuck(s: Sys, e: Id) {
    e in s.db.events && Active(s.db.events[e].status) && Abandoned(s, e)
  }

  /** A queue that refuses the job leaves the event stuck. */
  lemma FailedAddStrands(s: Sys, c: Id)
    requires Inv(s) && c in s.callers && s.callers[c].pc == Inserted && s.callers[c].eventId in s.db.events
    ensures Stuck(Apply(s, Call(c, false)), s.callers[c].eventId)
  {
    hide TablesOk, WorkersOk, CallersOk, CapturesOk, QueueOk;
  }

  /** A worker that throws leaves the event stuck. */
  lemma CrashStrands(s: Sys, e: Id)
    requires Inv(s) && e in s.workers && s.workers[e].pc.Crashed? && e in s.db.events
    ensures Stuck(s, e)
  {
    assert WorkerOk(s.db, e, s.workers[e]);
  }

  lemma StuckRowStays(s: Sys, step: Label, e: Id)
    requires Inv(s) && Enabled(s, step) && Stuck(s, e) && e in Apply(s, step).db.events
    ensures Apply(s, step).db.events[e] == s.db.events[e]
  {
    StuckIsStored(s, e);
    if step.Work? {
      assert WorkerOk(s.db, step.e, s.workers[step.e]);
      hide Inv, TablesOk, WorkerOk, WorkerStep;
      if step.e != e {
        WorkAroundOthers(s.db, step.e, s.workers[step.e], e);
      } else {
        CrashedStepIsNone(s.db, e, s.workers[e]);
      }
    } else {
      hide Inv, TablesOk, Apply, Enabled, Stuck;
      OtherStepsLeaveEvents(s, step, e);
    }
  }

  lemma CrashedStepIsNone(db: Db, e: Id, w: Worker)
    requires w.pc.Crashed?
    ensures WorkerStep(db, e, w) == (db, w)
  {
  }

  lemma StuckIsStored(s: Sys, e: Id)
    requires Inv(s) && Stuck(s, e)
    ensures TablesOk(s.db) && e < s.db.next
  {
  }

  lemma CrashedStays(s: Sys, step: Label, e: Id)
    requires Inv(s) && Enabled(s, step) && e in s.workers && s.workers[e].pc.Crashed?
    ensures e in Apply(s, step).workers && Apply(s, step).workers[e].pc.Crashed?
  {
    hide Inv, Apply, Enabled;
    PcOfWorker(s, step, e);
  }

  lemma CallLeavesNobodys(s: Sys, c: Id, addWorks: bool, e: Id)
    requires c in s.callers && e !in s.workers && Abandoned(s, e) && e < s.db.next
    ensures Abandoned(CallerStep(s, c, addWorks), e) && CallerStep(s, c, addWorks).workers == s.workers
  {
    hide CanSaveEvent, SomeActive, CurrentIds, PutEvent;
  }

  lemma NobodysStays(s: Sys, step: Label, e: Id)
    requires Enabled(s, step) && e !in s.workers && Abandoned(s, e) && e < s.db.next
    ensures e !in Apply(s, step).workers && Abandoned(Apply(s, step), e)
  {
    if step.Call? {
      hide CallerStep, Abandoned;
      CallLeavesNobodys(s, step.c, step.addWorks, e);
    } else {
      hide CallerStep, WorkerStep, CanCommit, CanSaveService, AfterSyncSave, Commit, RemoveHost, CurrentIds;
    }
  }

  lemma AbandonedStays(s: Sys, step: Label, e: Id)
    requires Inv(s) && Enabled(s, step) && Abandoned(s, e) && e < s.db.next
    ensures Abandoned(Apply(s, step), e)
  {
    if e in s.workers {
      CrashedStays(s, step, e);
      hide Inv, Apply, Enabled;
    } else {
      NobodysStays(s, step, e);
    }
  }

  lemma StuckStays(s: Sys, step: Label, e: Id)
    requires Inv(s) && Enabled(s, step) && Stuck(s, e) && e in Apply(s, step).db.events
    ensures Stuck(Apply(s, step), e)
  {
    hide Inv, Apply, Enabled, Abandoned;
    StuckRowStays(s, step, e);
    StuckIsStored(s, e);
    AbandonedStays(s, step, e);
  }

  /**
    A stuck event stays as it is in every run, until its host is removed: nothing ever finishes it.
   */
  lemma {:induction false} StuckForever(s: Sys, steps: seq<Label>, e: Id)
    requires Inv(s) && IsRun(s, steps) && Stuck(s, e) && e in After(s, steps).db.events
    ensures Stuck(After(s, steps), e) && After(s, steps).db.events[e] == s.db.events[e]
    decreases |steps|
  {
    if steps != [] {
      hide Inv, Apply, Enabled, Stuck;
      var s1 := Apply(s, steps[0]);
      StepKeepsInv(s, steps[0]);
      StuckIsStored(s, e);
      StepProgresses(s, steps[0], e);
      RunProgresses(s1, steps[1..], e);
      StuckRowStays(s, steps[0], e);
      StuckStays(s, steps[0], e);
      StuckForever(s1, steps[1..], e);
    }
  }

  /** While it is there, every further attempt to roll its service back is refused, at the check or at the insert. */
  lemma StuckBlocksService(s: Sys, e: Id, c: Id, addWorks: bool)
    requires Inv(s) && Stuck(s, e) && c in s.callers && s.callers[c].serviceId == s.db.events[e].serviceId
    requires s.callers[c].pc == CurrentFound || s.callers[c].pc == NoneActive
    ensures CallerStep(s, c, addWorks) == s.(callers := s.callers[c := s.callers[c].(pc := Refused)])
  {
    StuckIsStored(s, e);
    TablesFresh(s.db);
    assert e != s.db.next;
    assert SomeActive(s.db, s.callers[c].serviceId);
    hide Inv, TablesOk, CurrentIds;
    if s.callers[c].pc == NoneActive {
      assert !CanSaveEvent(s.db, s.db.next, NewEvent(s.callers[c]));
      hide CanSaveEvent, SomeActive;
    } else {
      hide CanSaveEvent, SomeActive;
    }
  }

  /** A caller of the service, if it is one, that has not had its event inserted. */
  predicate Unaccepted(s: Sys, c: Id, serviceId: Id) {
    c in s.callers && s.callers[c].serviceId == serviceId ==>
      s.callers[c].pc in {Arrived, ServiceFound, TargetFound, CurrentFound, NoneActive, Refused}
  }

  lemma CallLeavesOtherCallers(s: Sys, c: Id, addWorks: bool, d: Id)
    requires c in s.callers
    ensures c != d ==> (d in CallerStep(s, c, addWorks).callers <==> d in s.callers)
    ensures c != d && d in s.callers ==> CallerStep(s, c, addWorks).callers[d] == s.callers[d]
    ensures c in CallerStep(s, c, addWorks).callers
    ensures CallerStep(s, c, addWorks).callers[c].serviceId == s.callers[c].serviceId
    ensures s.callers[c].pc != NoneActive && s.callers[c].pc != Inserted ==>
              CallerStep(s, c, addWorks).callers[c].pc
              in {ServiceFound, TargetFound, CurrentFound, NoneActive, Refused, s.callers[c].pc}
  {
    hide CanSaveEvent, SomeActive, CurrentIds, PutEvent;
  }

  lemma StuckRefusesStep(s: Sys, step: Label, e: Id, c: Id)
    requires Inv(s) && Enabled(s, step) && Stuck(s, e) && Unaccepted(s, c, s.db.events[e].serviceId)
    ensures Unaccepted(Apply(s, step), c, s.db.events[e].serviceId)
  {
    if step.Call? {
      hide Inv, CallerStep, Stuck;
      CallLeavesOtherCallers(s, step.c, step.addWorks, c);
      if step.c == c && s.callers[c].serviceId == s.db.events[e].serviceId && s.callers[c].pc == NoneActive {
        StuckBlocksService(s, e, c, step.addWorks);
      }
    } else {
      hide Inv, CallerStep, WorkerStep, AfterSyncSave, CanSaveService, CanCommit, Commit, RemoveHost, CurrentIds;
      hide Disturb;
    }
  }

  lemma StuckIsThere(s: Sys, e: Id)
    requires Stuck(s, e)
    ensures e in s.db.events
  {
  }

  /**
    In every run in which it stays, no request for its service is ever accepted: whoever has not had an event inserted
    before never gets one, however many callers arrive later.
   */
  lemma {:induction false} StuckBlocksForever(s: Sys, steps: seq<Label>, e: Id, c: Id)
    requires Inv(s) && IsRun(s, steps) && Stuck(s, e) && e in After(s, steps).db.events
    requires Unaccepted(s, c, s.db.events[e].serviceId)
    ensures Unaccepted(After(s, steps), c, s.db.events[e].serviceId)
    decreases |steps|
  {
    if steps != [] {
      StuckIsThere(s, e);
      hide Inv, Apply, Enabled, Stuck, Unaccepted;
      var s1 := Apply(s, steps[0]);
      StepKeepsInv(s, steps[0]);
      StuckIsStored(s, e);
      StepProgresses(s, steps[0], e);
      RunProgresses(s1, steps[1..], e);
      StuckRowStays(s, steps[0], e);
      StuckStays(s, steps[0], e);
      StuckRefusesStep(s, steps[0], e, c);
      StuckBlocksForever(s1, steps[1..], e, c);
    }
  }

  // ---------- A job delivered twice ----------

  /**
    A second delivery of a finished event's job changes its stored row exactly when no other rollback of the service is
    active: the row is then in progress again, with its completion time still set. Otherwise the unique index
    stops the worker and the row stays final.
   */
  lemma RedeliveryReopensIff(db: Db, e: Id, worker: Worker)
    requires TablesOk(db) && e in db.events && !Active(db.events[e].status) && worker.pc.Delivered?
    ensures var row := db.events[e];
            var (db1, w1) := WorkerStep(db, e, worker);
            var (db2, w2) := WorkerStep(db1, e, w1);
            && (e in db2.events && db2.events[e] != row <==> !SomeActive(db, row.serviceId))
            && (!SomeActive(db, row.serviceId) ==> db2 == PutEvent(db, e, row.(status := InProgress)))
            && (SomeActive(db, row.serviceId) ==> db2 == db && w2.pc.Crashed?)
  {
    var row := db.events[e];
    assert EventReferences(db.services, db.snapshots, row);
    assert CanSaveEvent(db, e, row.(status := InProgress)) <==> !SomeActive(db, row.serviceId);
    hide TablesOk, CanSaveEvent, SomeActive;
  }

  /** A failed event 3 of service 1 on host 0, nobody at work on it. */
  function FailedEvent(): Event {
    Event(1, 2, 2, 9, Failed, [Failure(SshFailed)], Some(7))
  }

  function DbWithFailedEvent(config: Config): Db {
    Db({0}, map[1 := Service(0, 0, "c1", "web", "nginx", Some("1"), Running, None, 5)],
       map[2 := Snapshot(1, "nginx:1", config, 4, None, true)], map[3 := FailedEvent()], multiset{}, multiset{}, 4)
  }

  lemma DbWithFailedEventOk(config: Config)
    ensures TablesOk(DbWithFailedEvent(config)) && !SomeActive(DbWithFailedEvent(config), 1)
  {
    assert IsCurrentFor(DbWithFailedEvent(config).snapshots, 2, 1);
  }

  /** A concrete case: the failed event is in progress again after a second delivery, its completion time still set. */
  lemma RedeliveryReopensFailedEvent(worker: Worker, config: Config)
    requires worker.pc.Delivered?
    ensures var (db1, w1) := WorkerStep(DbWithFailedEvent(config), 3, worker);
            var db2 := WorkerStep(db1, 3, w1).0;
            && RowOk(FailedEvent())
            && 3 in db2.events && db2.events[3] == FailedEvent().(status := InProgress)
            && db2.events[3].completedAt == Some(7) && !RowOk(db2.events[3])
  {
    DbWithFailedEventOk(config);
    hide TablesOk, WorkerStep, SomeActive;
    RedeliveryReopensIff(DbWithFailedEvent(config), 3, worker);
  }
}
