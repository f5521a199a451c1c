/** A rollback job whose steps nobody interleaves: the steps add up to the job's direct description. */
module RollbackAlone {
  import opened Wrappers
  import opened ShellCommand
  import opened Tables
  import opened DeploymentSnapshots
  import opened Rollback
  import opened RollbackInvariant
  import opened RollbackJob
  import opened RollbackOutcome

  // ---------- Running a worker to its end ----------

  /** An upper bound on the steps that are left. */
  function Remaining(pc: Pc): nat {
    match pc
    case Delivered => 20
    case Loaded => 19
    case Started => 18
    case ServiceRead => 17
    case HostRead => 16
    case TargetRead => 15
    case Logging(k) => if k < 4 then 14 - k else 10
    case Judged => 9
    case SavingService => 8
    case ServiceSaved => 7
    case InTransaction => 6
    case SnapshotSaved => 5
    case HealthLogged => 4
    case Failing(_) => 3
    case FailureLogged(_) => 2
    case FailureSaved(_) => 1
    case _ => 0
  }

  lemma WritingAdvances(db: Db, e: Id, w: Worker)
    requires Writes(w.pc)
    ensures Remaining(WritingStep(db, e, w).1.pc) < Remaining(w.pc)
  {
    hide CanSaveEvent, PutEvent, CommandEntry, Recreated, NewStatus;
  }

  lemma ReadingAdvances(db: Db, e: Id, w: Worker)
    requires !Writes(w.pc) && !w.pc.SavingService? && !w.pc.InTransaction?
    ensures !IsDone(w.pc) ==> Remaining(ReadingStep(db, e, w).pc) < Remaining(w.pc)
    ensures IsDone(w.pc) ==> ReadingStep(db, e, w) == w && Noted(db, e, w) == db
  {
    hide CurrentIds, Recreated, NewStatus;
  }

  /** Every job ends within twenty steps of its own, however it goes. */
  lemma StepAdvances(db: Db, e: Id, w: Worker)
    ensures Remaining(w.pc) <= 20
    ensures !IsDone(w.pc) ==> Remaining(WorkerStep(db, e, w).1.pc) < Remaining(w.pc)
    ensures IsDone(w.pc) ==> WorkerStep(db, e, w) == (db, w)
  {
    hide WritingStep, ReadingStep, Noted, CanSaveService, CanCommit, Recreated, RolledBackService, PutService, Commit;
    if Writes(w.pc) {
      WritingAdvances(db, e, w);
    } else if !w.pc.SavingService? && !w.pc.InTransaction? {
      ReadingAdvances(db, e, w);
    }
  }

  function RunAlone(db: Db, e: Id, w: Worker): (Db, Worker)
    decreases Remaining(w.pc)
  {
    if IsDone(w.pc) then (db, w)
    else
      StepAdvances(db, e, w);
      RunAlone(WorkerStep(db, e, w).0, e, WorkerStep(db, e, w).1)
  }

  lemma Unfold(db: Db, e: Id, w: Worker, db': Db, w': Worker)
    requires WorkerStep(db, e, w) == (db', w') && !IsDone(w.pc)
    ensures RunAlone(db, e, w) == RunAlone(db', e, w')
  {
  }

  lemma Ended(db: Db, e: Id, w: Worker)
    requires IsDone(w.pc)
    ensures RunAlone(db, e, w) == (db, w)
  {
  }

  function Effect(r: (Db, Worker)): (Db, Pc) {
    (r.0, r.1.pc)
  }

  // ---------- The stages ----------

  lemma SaveStepHolds(db: Db, e: Id, w: Worker, row: Event, pc: Pc)
    requires Holds(db, e, w.event) && SameReferences(row, w.event)
    ensures SaveThen(db, e, w, row, pc) == (PutEvent(db, e, row), w.(event := row, pc := pc))
    ensures Holds(PutEvent(db, e, row), e, row)
  {
    HeldSavesWork(db, e, w.event, row);
  }

  lemma FailingAlone(db: Db, e: Id, w: Worker, reason: FailReason)
    requires Holds(db, e, w.event) && w.pc == Failing(reason) && reason != ServiceGone
    ensures Effect(RunAlone(db, e, w)) == FailedWith(db, e, w.event, reason, w.world)
  {
    var logged := WithEntries(w.event, [Failure(reason)]);
    var w1 := w.(event := logged, pc := FailureLogged(reason));
    var db1 := PutEvent(db, e, logged);
    var final := logged.(status := Failed, completedAt := Some(w.world.completedAt));
    var w2 := w1.(event := final, pc := FailureSaved(reason));
    var db2 := PutEvent(db1, e, final);
    hide Holds, RunAlone, PutEvent, SaveThen;
    SaveStepHolds(db, e, w, logged, FailureLogged(reason));
    Unfold(db, e, w, db1, w1);
    SaveStepHolds(db1, e, w1, final, FailureSaved(reason));
    Unfold(db1, e, w1, db2, w2);
    FailureNoted(db2, e, w2, reason);
    PutTwice(db, e, logged, final);
    FailedEffect(db, e, w, reason);
  }

  lemma FailureNoted(db: Db, e: Id, w: Worker, reason: FailReason)
    requires w.pc == FailureSaved(reason) && reason != ServiceGone
    ensures RunAlone(db, e, w) == (db.(alerts := db.alerts + multiset{RollbackFailed(e)}), w.(pc := DoneFailed(reason)))
  {
    var db' := db.(alerts := db.alerts + multiset{RollbackFailed(e)});
    Unfold(db, e, w, db', w.(pc := DoneFailed(reason)));
    Ended(db', e, w.(pc := DoneFailed(reason)));
  }

  lemma FailedEffect(db: Db, e: Id, w: Worker, reason: FailReason)
    ensures var logged := WithEntries(w.event, [Failure(reason)]);
            var db' := PutEvent(db, e, logged.(status := Failed, completedAt := Some(w.world.completedAt)));
            FailedWith(db, e, w.event, reason, w.world)
            == (db'.(alerts := db'.alerts + multiset{RollbackFailed(e)}), DoneFailed(reason))
  {
  }

  lemma CrashingAlone(db: Db, e: Id, w: Worker, db': Db, w': Worker)
    requires WorkerStep(db, e, w) == (db', w') && !IsDone(w.pc) && w'.pc == Crashed
    ensures Effect(RunAlone(db, e, w)) == (db', Crashed)
  {
    Unfold(db, e, w, db', w');
    Ended(db', e, w');
  }

  lemma ClosingAlone(db: Db, e: Id, w: Worker)
    requires Holds(db, e, w.event) && w.pc == HealthLogged
    ensures var final := w.event.(status := Succeeded, completedAt := Some(w.world.completedAt));
            Effect(RunAlone(db, e, w)) == (PutEvent(db, e, final), DoneSucceeded)
  {
    var final := w.event.(status := Succeeded, completedAt := Some(w.world.completedAt));
    hide Holds, RunAlone, PutEvent, SaveThen;
    SaveStepHolds(db, e, w, final, DoneSucceeded);
    Unfold(db, e, w, PutEvent(db, e, final), w.(event := final, pc := DoneSucceeded));
    Ended(PutEvent(db, e, final), e, w.(event := final, pc := DoneSucceeded));
  }

  // What single steps come to

  lemma BeginningStep(db: Db, e: Id, w: Worker)
    requires w.pc == ServiceSaved
    ensures WorkerStep(db, e, w)
         == (db, if w.world.configReadableAgain then w.(flips := CurrentIds(db, w.event.serviceId), pc := InTransaction)
                 else w.(pc := Crashed))
  {
    hide CurrentIds;
  }

  lemma CommittingStepAlone(db: Db, e: Id, w: Worker)
    requires w.pc == InTransaction && w.event.serviceId in db.services && w.flips == CurrentIds(db, w.event.serviceId)
    ensures WorkerStep(db, e, w) == (Taken(db, RolledBackSnapshot(w)), w.(newSnapshot := db.next, pc := SnapshotSaved))
  {
    hide CurrentIds, Commit;
  }

  lemma HealthLoggingStep(db: Db, e: Id, w: Worker)
    requires w.pc == SnapshotSaved
    ensures WorkerStep(db, e, w)
         == if w.world.healthLogWorks
            then (db.(healthLogs := db.healthLogs
                                    + multiset{HealthLog(w.event.serviceId, w.service.status, RolledBack(e))}),
                  w.(pc := HealthLogged))
            else (db, w.(pc := Crashed))
  {
  }

  lemma SavingStep(db: Db, e: Id, w: Worker)
    requires w.pc == SavingService && Recreated(w).Some?
    ensures var row := RolledBackService(w);
            WorkerStep(db, e, w)
            == if CanSaveService(db, w.event.serviceId, row)
               then (PutService(db, w.event.serviceId, row),
                     w.(service := row, undisturbed := true, pc := ServiceSaved))
               else (db, w.(service := row, pc := Crashed))
  {
    hide CanSaveService, PutService, RolledBackService;
  }

  lemma HoldsService(db: Db, e: Id, row: Event)
    requires Holds(db, e, row)
    ensures row.serviceId in db.services && row.toSnapshotId in db.snapshots
  {
  }

  /** From the end of the snapshot transaction on. */
  lemma AfterCommitAlone(db: Db, e: Id, w: Worker)
    requires Holds(db, e, w.event) && w.pc == SnapshotSaved && w.service.status == Running
    ensures var final := w.event.(status := Succeeded, completedAt := Some(w.world.completedAt));
            var log := HealthLog(w.event.serviceId, Running, RolledBack(e));
            Effect(RunAlone(db, e, w))
            == if !w.world.healthLogWorks then (db, Crashed)
               else (PutEvent(db.(healthLogs := db.healthLogs + multiset{log}), e, final), DoneSucceeded)
  {
    hide Holds, RunAlone, WorkerStep, PutEvent;
    HealthLoggingStep(db, e, w);
    if !w.world.healthLogWorks {
      CrashingAlone(db, e, w, db, w.(pc := Crashed));
    } else {
      var logs := db.healthLogs + multiset{HealthLog(w.event.serviceId, Running, RolledBack(e))};
      NotedHolds(db, e, w.event, logs);
      Unfold(db, e, w, db.(healthLogs := logs), w.(pc := HealthLogged));
      ClosingAlone(db.(healthLogs := logs), e, w.(pc := HealthLogged));
    }
  }

  /** From the snapshot transaction on. */
  lemma SnapshotAlone(db: Db, e: Id, w: Worker)
    requires Holds(db, e, w.event) && w.pc == ServiceSaved && w.service.status == Running && w.world.configReadableAgain
    ensures var db2 := Taken(db, RolledBackSnapshot(w));
            var final := w.event.(status := Succeeded, completedAt := Some(w.world.completedAt));
            var log := HealthLog(w.event.serviceId, Running, RolledBack(e));
            Effect(RunAlone(db, e, w))
            == if !w.world.healthLogWorks then (db2, Crashed)
               else (PutEvent(db2.(healthLogs := db2.healthLogs + multiset{log}), e, final), DoneSucceeded)
  {
    hide Holds, Taken, RunAlone, CurrentIds, WorkerStep, PutEvent;
    var w1 := w.(flips := CurrentIds(db, w.event.serviceId), pc := InTransaction);
    var db2 := Taken(db, RolledBackSnapshot(w));
    BeginningStep(db, e, w);
    Unfold(db, e, w, db, w1);
    HoldsService(db, e, w.event);
    CommittingStepAlone(db, e, w1);
    Unfold(db, e, w1, db2, w1.(newSnapshot := db.next, pc := SnapshotSaved));
    TakenHolds(db, e, w.event, RolledBackSnapshot(w));
    AfterCommitAlone(db2, e, w1.(newSnapshot := db.next, pc := SnapshotSaved));
  }

  /** From the worker's decision to save the service on. */
  lemma FinishingAlone(db: Db, e: Id, w: Worker)
    requires Holds(db, e, w.event) && w.pc == SavingService && Recreated(w).Some? && NewStatus(w) == Running
    ensures Effect(RunAlone(db, e, w)) == Finished(db, e, w)
  {
    hide Holds, Taken, RunAlone, CanSaveService, WorkerStep, PutEvent, PutService;
    var row := RolledBackService(w);
    var sid := w.event.serviceId;
    SavingStep(db, e, w);
    if !CanSaveService(db, sid, row) {
      CrashingAlone(db, e, w, db, w.(service := row, pc := Crashed));
    } else {
      var db1 := PutService(db, sid, row);
      var w1 := w.(service := row, undisturbed := true, pc := ServiceSaved);
      SavedServiceHolds(db, e, w.event, row);
      Unfold(db, e, w, db1, w1);
      BeginningStep(db1, e, w1);
      if !w.world.configReadableAgain {
        CrashingAlone(db1, e, w1, db1, w1.(pc := Crashed));
      } else {
        SnapshotAlone(db1, e, w1);
      }
    }
  }

  lemma LogOneAlone(db: Db, e: Id, w: Worker, k: nat)
    requires Holds(db, e, w.event) && w.world.ssh.Some? && w.pc == Logging(k) && k < 4
    ensures var row := WithEntries(w.event, [CommandEntry(w.world.ssh.value, k)]);
            && Holds(PutEvent(db, e, row), e, row)
            && RunAlone(db, e, w) == RunAlone(PutEvent(db, e, row), e, w.(event := row, pc := Logging(k + 1)))
  {
    var row := WithEntries(w.event, [CommandEntry(w.world.ssh.value, k)]);
    hide Holds, RunAlone, PutEvent, SaveThen;
    SaveStepHolds(db, e, w, row, Logging(k + 1));
    Unfold(db, e, w, PutEvent(db, e, row), w.(event := row, pc := Logging(k + 1)));
  }

  lemma LogTwoAlone(db: Db, e: Id, w: Worker, k: nat)
    requires Holds(db, e, w.event) && w.world.ssh.Some? && w.pc == Logging(k) && k < 3
    ensures var ssh := w.world.ssh.value;
            var row := WithEntries(WithEntries(w.event, [CommandEntry(ssh, k)]), [CommandEntry(ssh, k + 1)]);
            && Holds(PutEvent(db, e, row), e, row)
            && RunAlone(db, e, w) == RunAlone(PutEvent(db, e, row), e, w.(event := row, pc := Logging(k + 2)))
  {
    hide Holds, RunAlone, PutEvent, WithEntries, CommandEntry;
    var first := WithEntries(w.event, [CommandEntry(w.world.ssh.value, k)]);
    LogOneAlone(db, e, w, k);
    LogOneAlone(PutEvent(db, e, first), e, w.(event := first, pc := Logging(k + 1)), k + 1);
    PutTwice(db, e, first, WithEntries(first, [CommandEntry(w.world.ssh.value, k + 1)]));
  }

  lemma LoggingAlone(db: Db, e: Id, w: Worker)
    requires Holds(db, e, w.event) && w.world.ssh.Some? && w.pc == Logging(0)
    ensures var row := WithEntries(w.event, CommandEntries(w.world.ssh.value));
            && Holds(PutEvent(db, e, row), e, row)
            && RunAlone(db, e, w) == RunAlone(PutEvent(db, e, row), e, w.(event := row, pc := Logging(4)))
  {
    hide Holds, RunAlone, PutEvent;
    var ssh := w.world.ssh.value;
    var half := WithEntries(WithEntries(w.event, [CommandEntry(ssh, 0)]), [CommandEntry(ssh, 1)]);
    var all := WithEntries(WithEntries(half, [CommandEntry(ssh, 2)]), [CommandEntry(ssh, 3)]);
    assert all == WithEntries(w.event, CommandEntries(ssh)) by {
      EntriesInOrder(w.event, ssh);
    }
    hide WithEntries, CommandEntry, CommandEntries;
    LogTwoAlone(db, e, w, 0);
    LogTwoAlone(PutEvent(db, e, half), e, w.(event := half, pc := Logging(2)), 2);
    PutTwice(db, e, half, all);
  }

  /** From the health check on. */
  lemma JudgingAlone(db: Db, e: Id, w: Worker)
    requires Holds(db, e, w.event) && w.world.ssh.Some? && w.world.listing.Some? && w.pc == Logging(4)
    requires w.world.ssh.value.run.exitCode == Some(0)
    ensures var row := WithEntries(w.event, [PostRollbackHealthCheck(Recreated(w).Some?, NewStatus(w))]);
            Effect(RunAlone(db, e, w))
            == if NewStatus(w) != Running || Recreated(w).None?
               then FailedWith(PutEvent(db, e, row), e, row, NotRunning(NewStatus(w)), w.world)
               else Finished(PutEvent(db, e, row), e, w.(event := row))
  {
    var row := WithEntries(w.event, [PostRollbackHealthCheck(Recreated(w).Some?, NewStatus(w))]);
    var db1, w1 := PutEvent(db, e, row), w.(event := row, pc := Judged);
    hide Holds, RunAlone, PutEvent, FailedWith, SaveThen;
    SaveStepHolds(db, e, w, row, Judged);
    Unfold(db, e, w, db1, w1);
    assert Recreated(w1) == Recreated(w) && NewStatus(w1) == NewStatus(w);
    if NewStatus(w) != Running || Recreated(w).None? {
      var w2 := w1.(pc := Failing(NotRunning(NewStatus(w))));
      Unfold(db1, e, w1, db1, w2);
      FailingAlone(db1, e, w2, NotRunning(NewStatus(w)));
    } else {
      var w2 := w1.(pc := SavingService);
      Unfold(db1, e, w1, db1, w2);
      FinishingAlone(db1, e, w2);
      FinishedIgnoresPc(db1, e, w2, w.(event := row));
    }
  }

  lemma FinishedIgnoresPc(db: Db, e: Id, w: Worker, v: Worker)
    requires Recreated(w).Some? && v == w.(pc := v.pc)
    ensures Recreated(v) == Recreated(w) && Finished(db, e, w) == Finished(db, e, v)
  {
    hide CanSaveService, Taken;
  }

  /** From the verdict on `docker run` on. */
  lemma RanAlone(db: Db, e: Id, w: Worker)
    requires Holds(db, e, w.event) && w.world.ssh.Some? && w.pc == Logging(4)
    requires w.world.ssh.value.run.exitCode != Some(0) || w.world.listing.None?
    ensures Effect(RunAlone(db, e, w))
         == if w.world.ssh.value.run.exitCode != Some(0) then FailedWith(db, e, w.event, RunFailed, w.world)
            else (db, Crashed)
  {
    hide Holds, RunAlone, FailedWith, PutEvent;
    if w.world.ssh.value.run.exitCode != Some(0) {
      Unfold(db, e, w, db, w.(pc := Failing(RunFailed)));
      FailingAlone(db, e, w.(pc := Failing(RunFailed)), RunFailed);
    } else {
      CrashingAlone(db, e, w, db, w.(pc := Crashed));
    }
  }

  lemma ExecutingAlone(db: Db, e: Id, w: Worker)
    requires Holds(db, e, w.event) && w.world.ssh.Some? && w.pc == Logging(0)
    ensures Effect(RunAlone(db, e, w)) == Executed(db, e, w)
  {
    hide Holds, RunAlone, FailedWith, WithEntries, Finished, WorkerStep, PutEvent, CommandEntries;
    var logged := WithEntries(w.event, CommandEntries(w.world.ssh.value));
    var db1, w1 := PutEvent(db, e, logged), w.(event := logged, pc := Logging(4));
    LoggingAlone(db, e, w);
    if w.world.ssh.value.run.exitCode != Some(0) || w.world.listing.None? {
      RanAlone(db1, e, w1);
      FailedAfterSave(db, e, logged, logged, RunFailed, w.world);
    } else {
      assert Recreated(w1) == Recreated(w) && NewStatus(w1) == NewStatus(w);
      var judged := WithEntries(logged, [PostRollbackHealthCheck(Recreated(w).Some?, NewStatus(w))]);
      JudgingAlone(db1, e, w1);
      PutTwice(db, e, logged, judged);
      FailedAfterSave(db, e, judged, judged, NotRunning(NewStatus(w)), w.world);
      FinishedUpToPc(db, e, w, w1, judged);
    }
  }

  lemma FinishedUpToPc(db: Db, e: Id, w: Worker, w1: Worker, judged: Event)
    requires w1 == w.(event := w1.event, pc := w1.pc)
    ensures Recreated(w).Some? ==>
              Finished(PutEvent(db, e, judged), e, w.(event := judged))
              == Finished(PutEvent(db, e, judged), e, w1.(event := judged))
  {
    if Recreated(w).Some? {
      hide Finished, PutEvent;
      FinishedIgnoresPc(PutEvent(db, e, judged), e, w.(event := judged), w1.(event := judged));
    }
  }

  // ---------- The whole job ----------

  /** A worker that a job was just handed to, its variables not assigned yet. */
  predicate JustDelivered(w: Worker) {
    w.pc == Delivered && w.flips == {} && w.newSnapshot == 0 && !w.undisturbed
  }

  lemma LookupSteps(db: Db, e: Id, w: Worker)
    ensures w.pc == Started && w.event.serviceId in db.services ==>
              WorkerStep(db, e, w) == (db, w.(service := db.services[w.event.serviceId], pc := ServiceRead))
    ensures w.pc == ServiceRead && w.service.hostId in db.hosts ==> WorkerStep(db, e, w) == (db, w.(pc := HostRead))
    ensures w.pc == HostRead && w.event.toSnapshotId in db.snapshots ==>
              WorkerStep(db, e, w) == (db, w.(target := db.snapshots[w.event.toSnapshotId], pc := TargetRead))
  {
  }

  lemma LoadingAlone(db: Db, e: Id, w: Worker)
    requires Holds(db, e, w.event) && w.pc == Started && db.services[w.event.serviceId].hostId in db.hosts
    ensures RunAlone(db, e, w)
         == RunAlone(db, e, w.(service := db.services[w.event.serviceId], target := db.snapshots[w.event.toSnapshotId],
                               pc := TargetRead))
  {
    hide Holds, RunAlone, WorkerStep;
    HoldsService(db, e, w.event);
    var w1 := w.(service := db.services[w.event.serviceId], pc := ServiceRead);
    var w2 := w1.(pc := HostRead);
    LookupSteps(db, e, w);
    LookupSteps(db, e, w1);
    LookupSteps(db, e, w2);
    Unfold(db, e, w, db, w1);
    Unfold(db, e, w1, db, w2);
    Unfold(db, e, w2, db, w2.(target := db.snapshots[w.event.toSnapshotId], pc := TargetRead));
  }

  lemma StartingAlone(db: Db, e: Id, w: Worker)
    requires TablesOk(db) && JustDelivered(w) && CanStart(db, e)
    ensures var w' := LoadedWorker(db, e, w.world);
            && Holds(PutEvent(db, e, w'.event), e, w'.event)
            && RunAlone(db, e, w) == RunAlone(PutEvent(db, e, w'.event), e, w')
  {
    var w1 := w.(event := db.events[e], pc := Loaded);
    var row := Starting(db.events[e]);
    StartedHolds(db, e);
    HeldSavesWork(db, e, row, row);
    hide TablesOk, Holds, RunAlone, CanSaveEvent;
    Unfold(db, e, w, db, w1);
    Unfold(db, e, w1, PutEvent(db, e, row), w1.(event := row, pc := Started));
    LoadingAlone(PutEvent(db, e, row), e, w1.(event := row, pc := Started));
  }

  lemma LoadedAlone(db: Db, e: Id, w: Worker)
    requires Holds(db, e, w.event) && w.pc == TargetRead && w.world.keyReadable && w.world.configReadable
    ensures Effect(RunAlone(db, e, w))
         == if w.world.ssh.None? then FailedWith(db, e, w.event, SshFailed, w.world)
            else Executed(db, e, w.(pc := Logging(0)))
  {
    hide Holds, RunAlone, FailedWith, Executed;
    if w.world.ssh.None? {
      Unfold(db, e, w, db, w.(pc := Failing(SshFailed)));
      FailingAlone(db, e, w.(pc := Failing(SshFailed)), SshFailed);
    } else {
      Unfold(db, e, w, db, w.(pc := Logging(0)));
      ExecutingAlone(db, e, w.(pc := Logging(0)));
    }
  }

  lemma ExecutedIgnoresPc(db: Db, e: Id, w: Worker, pc: Pc)
    requires w.world.ssh.Some?
    ensures Executed(db, e, w.(pc := pc)) == Executed(db, e, w)
  {
    var judged := WithEntries(WithEntries(w.event, CommandEntries(w.world.ssh.value)),
                              [PostRollbackHealthCheck(Recreated(w).Some?, NewStatus(w))]);
    hide FailedWith, Finished;
    FinishedUpToPc(db, e, w, w.(pc := pc), judged);
  }

  /**
    Taken alone, the steps of a delivered job have the effect and the outcome that its direct description gives,
    whatever the outside does to it: the intermediate saves leave no trace.
   */
  lemma JobAlone(db: Db, e: Id, w: Worker)
    requires TablesOk(db) && JustDelivered(w)
    ensures Effect(RunAlone(db, e, w)) == JobEffect(db, e, w.world)
  {
    hide TablesOk, RunAlone, FailedWith, Executed, CanSaveEvent;
    if e !in db.events {
      var w1 := w.(pc := Skipped);
      Unfold(db, e, w, db, w1);
      Ended(db, e, w1);
    } else if !CanStart(db, e) {
      var w1 := w.(event := db.events[e], pc := Loaded);
      Unfold(db, e, w, db, w1);
      CrashingAlone(db, e, w1, db, w1.(event := Starting(db.events[e]), pc := Crashed));
    } else {
      var w1 := LoadedWorker(db, e, w.world);
      var db1 := PutEvent(db, e, w1.event);
      StartingAlone(db, e, w);
      hide Holds;
      if !w.world.keyReadable {
        Unfold(db1, e, w1, db1, w1.(pc := Failing(KeyUnreadable)));
        FailingAlone(db1, e, w1.(pc := Failing(KeyUnreadable)), KeyUnreadable);
        FailedAfterSave(db, e, w1.event, w1.event, KeyUnreadable, w.world);
      } else if !w.world.configReadable {
        CrashingAlone(db1, e, w1, db1, w1.(pc := Crashed));
      } else {
        LoadedAlone(db1, e, w1);
        if w.world.ssh.None? {
          FailedAfterSave(db, e, w1.event, w1.event, SshFailed, w.world);
        } else {
          ExecutedIgnoresPc(db1, e, w1, Logging(0));
          ExecutedAfterSave(db, e, w1);
        }
      }
    }
  }

  /** The first listed container with the target's name is running. */
  ghost predicate TargetRuns(containers: seq<DockerPs.Container>, name: string) {
    exists k :: FirstNamed(containers, k, name) && ReadsAsRunning(containers[k].status)
  }

  /** In the listing's terms: what the job picks, and when it takes it for running. */
  lemma PickedIs(w: Worker)
    requires w.world.listing.Some?
    ensures var containers, name := w.world.listing.value, w.target.config.containerName;
            && (Recreated(w).Some? && NewStatus(w) == Running <==> TargetRuns(containers, name))
            && (forall k :: FirstNamed(containers, k, name) ==> Recreated(w) == Some(containers[k]))
            && (Recreated(w).None? <==> forall j :: 0 <= j < |containers| ==> containers[j].names != name)
  {
    var containers, name := w.world.listing.value, w.target.config.containerName;
    FindsFirstNamed(containers, name);
    if Recreated(w).Some? {
      ClassificationIs(Recreated(w).value.status);
      var k :| FirstNamed(containers, k, name) && containers[k] == Recreated(w).value;
      forall j | FirstNamed(containers, j, name)
        ensures j == k
      {
        FirstNamedIsOne(containers, j, k, name);
      }
    }
    hide FindRecreated, ClassifyContainerStatus, ReadsAsRunning;
  }

  /** Another row of the host has this container's id. */
  predicate OthersHave(db: Db, serviceId: Id, hostId: Id, containerId: string) {
    exists i :: i in db.services && i != serviceId
                && db.services[i].hostId == hostId && db.services[i].containerId == containerId
  }

  /** The first listed container with the target's name is running, and its id is no other row's. */
  ghost predicate TargetRunsFree(db: Db, serviceId: Id, hostId: Id, containers: seq<DockerPs.Container>, name: string) {
    exists k :: FirstNamed(containers, k, name) && ReadsAsRunning(containers[k].status)
                && !OthersHave(db, serviceId, hostId, containers[k].id)
  }

  /** Key, configuration and session are there, `docker run` succeeded and the listing was parsed. */
  predicate GetsListing(world: World) {
    && world.keyReadable && world.configReadable && world.ssh.Some? && world.ssh.value.run.exitCode == Some(0)
    && world.listing.Some?
  }

  ghost predicate NothingStops(db: Db, e: Id, world: World)
    requires CanStart(db, e)
  {
    var sid, to := db.events[e].serviceId, db.events[e].toSnapshotId;
    && GetsListing(world) && world.configReadableAgain && world.healthLogWorks
    && db.services[sid].hostId in db.hosts
    && TargetRunsFree(db, sid, db.services[sid].hostId, world.listing.value, db.snapshots[to].config.containerName)
  }

  /** The host has another row with the recreated container's id, so that the service cannot be saved. */
  predicate ContainerTaken(db: Db, w: Worker)
    requires Recreated(w).Some?
  {
    OthersHave(db, w.event.serviceId, w.service.hostId, Recreated(w).value.id)
  }

  lemma TargetRunsFreeIff(db: Db, w: Worker)
    requires w.world.listing.Some?
    ensures TargetRunsFree(db, w.event.serviceId, w.service.hostId, w.world.listing.value,
                           w.target.config.containerName)
       <==> Recreated(w).Some? && NewStatus(w) == Running && !ContainerTaken(db, w)
  {
    PickedIs(w);
    hide Recreated, NewStatus, OthersHave, FirstNamed, ReadsAsRunning;
  }

  /** A job succeeds exactly when nothing it needs fails and no other row of the host has the new container's id. */
  lemma JobSucceedsIff(db: Db, e: Id, world: World)
    requires CanStart(db, e)
    ensures JobEffect(db, e, world).1 == DoneSucceeded <==> NothingStops(db, e, world)
  {
    var w := LoadedWorker(db, e, world);
    if world.listing.Some? {
      TargetRunsFreeIff(db, w);
    }
    if world.ssh.Some? {
      ExecutionSucceedsIff(db, e, w);
    }
    hide Executed, TargetRunsFree, ContainerTaken, Recreated, NewStatus, CanSaveEvent;
  }

  lemma ExecutionSucceedsIff(db: Db, e: Id, w: Worker)
    requires w.world.ssh.Some?
    ensures Executed(db, e, w).1 == DoneSucceeded
       <==> && w.world.ssh.value.run.exitCode == Some(0) && w.world.listing.Some? && Recreated(w).Some?
            && NewStatus(w) == Running && !ContainerTaken(db, w) && w.service.hostId in db.hosts
            && w.world.configReadableAgain && w.world.healthLogWorks
  {
    var logged := WithEntries(w.event, CommandEntries(w.world.ssh.value));
    var judged := WithEntries(logged, [PostRollbackHealthCheck(Recreated(w).Some?, NewStatus(w))]);
    if Recreated(w).Some? {
      FinishSucceedsIff(PutEvent(db, e, judged), e, w.(event := judged));
      assert ContainerTaken(PutEvent(db, e, judged), w.(event := judged)) == ContainerTaken(db, w);
    }
    hide Finished, CommandEntries, Recreated, NewStatus, ContainerTaken;
  }

  lemma FinishSucceedsIff(db: Db, e: Id, w: Worker)
    requires Recreated(w).Some?
    ensures Finished(db, e, w).1 == DoneSucceeded
       <==> && !ContainerTaken(db, w) && w.service.hostId in db.hosts
            && w.world.configReadableAgain && w.world.healthLogWorks
  {
    hide Taken, RolledBackSnapshot, Recreated, NewStatus;
  }

  /**
    Where a job throws instead of failing: it cannot read the configuration, or the containers are recreated but the
    listing cannot be parsed, or the container runs but saving it, taking its snapshot or logging its health goes wrong.
   */
  ghost predicate ThrowsMidway(db: Db, e: Id, world: World)
    requires CanStart(db, e)
  {
    var sid, to := db.events[e].serviceId, db.events[e].toSnapshotId;
    var name := db.snapshots[to].config.containerName;
    && world.keyReadable
    && (|| !world.configReadable
        || (&& world.ssh.Some? && world.ssh.value.run.exitCode == Some(0)
            && (|| world.listing.None?
                || (TargetRuns(world.listing.value, name) && (!world.configReadableAgain || !world.healthLogWorks))
                || (&& TargetRuns(world.listing.value, name)
                    && !TargetRunsFree(db, sid, db.services[sid].hostId, world.listing.value, name)))))
  }

  lemma SaveRefusedIff(db: Db, w: Worker)
    requires Recreated(w).Some? && w.service.hostId in db.hosts
    ensures CanSaveService(db, w.event.serviceId, RolledBackService(w)) <==> !ContainerTaken(db, w)
  {
  }

  /**
    A job that starts leaves its event in progress, neither succeeded nor failed, exactly when it throws midway.
    Everything else that goes wrong is recorded as failed.
   */
  lemma JobStrandsIff(db: Db, e: Id, world: World)
    requires TablesOk(db) && CanStart(db, e)
    ensures var (db', pc) := JobEffect(db, e, world);
            && (pc == Crashed <==> ThrowsMidway(db, e, world))
            && (pc == Crashed <==> e in db'.events && db'.events[e].status == InProgress)
            && (pc == DoneSucceeded || pc.DoneFailed? || pc == Crashed)
  {
    var w := LoadedWorker(db, e, world);
    StartedHolds(db, e);
    if world.ssh.Some? {
      ExecutionStrandsIff(db, e, w);
    }
    if world.listing.Some? {
      PickedIs(w);
      TargetRunsFreeIff(db, w);
    }
    hide TablesOk, CanSaveEvent, Executed, ContainerTaken, Recreated, NewStatus, Holds, TargetRuns, TargetRunsFree;
  }

  /** The listing that the job goes by is what parsing the session's last result gives. */
  predicate ListingIsParsed(json: DockerPs.JsonParser, world: World) {
    world.ssh.Some? ==> world.listing == DockerPs.ContainersOf(json, world.ssh.value.list.stdout)
  }

  /**
    A job whose container runs fails to parse the listing exactly when one of its lines is JSON null, and is then left
    in progress. Lines that are no JSON at all, or have no container in them, never stop it.
   */
  lemma NullLineStrands(json: DockerPs.JsonParser, db: Db, e: Id, world: World)
    requires TablesOk(db) && CanStart(db, e) && ListingIsParsed(json, world)
    requires world.keyReadable && world.configReadable && world.ssh.Some? && world.ssh.value.run.exitCode == Some(0)
    ensures world.listing.None? <==> DockerPs.HasNullLine(json, world.ssh.value.list.stdout)
    ensures DockerPs.HasNullLine(json, world.ssh.value.list.stdout) ==>
              var (db', pc) := JobEffect(db, e, world);
              pc == Crashed && e in db'.events && db'.events[e].status == InProgress
  {
    DockerPs.ThrowsIffNullLine(json, world.ssh.value.list.stdout);
    JobStrandsIff(db, e, world);
    hide DockerPs.Listed, DockerPs.HasNullLine, TablesOk, CanStart, JobEffect;
  }

  lemma ExecutionStrandsIff(db: Db, e: Id, w: Worker)
    requires w.world.ssh.Some? && w.service.hostId in db.hosts && w.event.status == InProgress
    ensures var (db', pc) := Executed(db, e, w);
            && (pc == Crashed <==>
                && w.world.ssh.value.run.exitCode == Some(0)
                && (|| w.world.listing.None?
                    || (&& Recreated(w).Some? && NewStatus(w) == Running
                        && (ContainerTaken(db, w) || !w.world.configReadableAgain || !w.world.healthLogWorks))))
            && (pc == Crashed <==> e in db'.events && db'.events[e].status == InProgress)
            && (pc == DoneSucceeded || pc.DoneFailed? || pc == Crashed)
  {
    var logged := WithEntries(w.event, CommandEntries(w.world.ssh.value));
    var judged := WithEntries(logged, [PostRollbackHealthCheck(Recreated(w).Some?, NewStatus(w))]);
    if Recreated(w).Some? && NewStatus(w) == Running {
      FinishStrandsIff(PutEvent(db, e, judged), e, w.(event := judged));
      assert ContainerTaken(PutEvent(db, e, judged), w.(event := judged)) == ContainerTaken(db, w);
    }
    hide Finished, ContainerTaken, Recreated, NewStatus, CommandEntries;
  }

  lemma FinishStrandsIff(db: Db, e: Id, w: Worker)
    requires Recreated(w).Some? && w.service.hostId in db.hosts && e in db.events && db.events[e].status == InProgress
    ensures var (db', pc) := Finished(db, e, w);
            && (pc == Crashed <==> ContainerTaken(db, w) || !w.world.configReadableAgain || !w.world.healthLogWorks)
            && (pc == Crashed <==> e in db'.events && db'.events[e].status == InProgress)
            && (pc == DoneSucceeded || pc == Crashed)
  {
    SaveRefusedIff(db, w);
    hide CanSaveService, ContainerTaken, RolledBackService, CurrentIds;
  }

  /**
    In the system: a delivered job that nobody interferes with ends with its event stuck for good exactly when it throws
    midway.
   */
  lemma DeliveredJobIsStuckIff(s: Sys, e: Id)
    requires Inv(s) && e in s.workers && JustDelivered(s.workers[e]) && CanStart(s.db, e)
    ensures IsRun(s, WorkSteps(e, 20))
    ensures Stuck(After(s, WorkSteps(e, 20)), e) <==> ThrowsMidway(s.db, e, s.workers[e].world)
  {
    hide RunAlone, JobEffect, ThrowsMidway, CanStart, IsRun, After, WorkSteps, WorkerStep;
    assert TablesOk(s.db);
    hide Inv, TablesOk;
    var w := s.workers[e];
    AloneIsARun(s, e, 20);
    JobAlone(s.db, e, w);
    JobStrandsIff(s.db, e, w.world);
  }

  /** A broken SSH session fails the job, and none of the commands that were sent is logged. */
  lemma BrokenSessionLosesLog(db: Db, e: Id, world: World)
    requires TablesOk(db) && CanStart(db, e)
    ensures var (db', pc) := JobEffect(db, e, world);
            && (pc == DoneFailed(SshFailed) <==> world.keyReadable && world.configReadable && world.ssh.None?)
            && (pc == DoneFailed(SshFailed) ==>
                  && |CommandsSent(db, e, world)| == 4
                  && e in db'.events && db'.events[e].status == Failed
                  && db'.events[e].log == db.events[e].log + [Failure(SshFailed)])
  {
    if world.ssh.Some? {
      ExecutionFailsOtherwise(db, e, LoadedWorker(db, e, world));
    }
    hide TablesOk, CanSaveEvent, Executed;
  }

  lemma ExecutionFailsOtherwise(db: Db, e: Id, w: Worker)
    requires w.world.ssh.Some?
    ensures Executed(db, e, w).1 != DoneFailed(SshFailed)
  {
    hide CanSaveService, Taken, PutEvent, CommandEntries;
  }

  // A concrete start: event 3 of service 1 is pending

  function PendingEvent(): Event {
    Event(1, 2, 2, 9, Pending, [], None)
  }

  function DbWithPendingEvent(config: Config): Db {
    DbWithFailedEvent(config).(events := map[3 := PendingEvent()])
  }

  lemma DbWithPendingEventOk(config: Config)
    ensures TablesOk(DbWithPendingEvent(config)) && CanStart(DbWithPendingEvent(config), 3)
  {
    assert IsCurrentFor(DbWithPendingEvent(config).snapshots, 2, 1);
  }

  /** The key can be read but the target's configuration cannot: the event is left in progress. */
  const UNREADABLE_CONFIG := World(true, false, None, None, true, true, 1, 2, 3)

  lemma UnreadableConfigStrands(config: Config)
    ensures JobEffect(DbWithPendingEvent(config), 3, UNREADABLE_CONFIG)
         == (PutEvent(DbWithPendingEvent(config), 3, PendingEvent().(status := InProgress)), Crashed)
  {
    DbWithPendingEventOk(config);
    hide TablesOk, CanSaveEvent;
  }

  /** The session breaks: the failed event has a log of one entry, none of it a command. */
  const BROKEN_SESSION := World(true, true, None, None, true, true, 1, 2, 3)

  lemma BrokenSessionLogsNoCommand(config: Config)
    ensures var (db', pc) := JobEffect(DbWithPendingEvent(config), 3, BROKEN_SESSION);
            && pc == DoneFailed(SshFailed)
            && 3 in db'.events && db'.events[3].log == [Failure(SshFailed)]
            && |CommandsSent(DbWithPendingEvent(config), 3, BROKEN_SESSION)| == 4
  {
    DbWithPendingEventOk(config);
    BrokenSessionLosesLog(DbWithPendingEvent(config), 3, BROKEN_SESSION);
    hide TablesOk, CanSaveEvent, JobEffect, CommandsSent;
  }

  /** A failed execution is a failure with the event's row at that point. */
  lemma FailedExecution(db: Db, e: Id, w: Worker)
    requires w.world.ssh.Some? && Executed(db, e, w).1.DoneFailed?
    ensures exists row: Event :: row.status == w.event.status
                          && Executed(db, e, w) == FailedWith(db, e, row, Executed(db, e, w).1.reason, w.world)
  {
    FailureNames(db, e, w);
    if Recreated(w).Some? {
      var judged := WithEntries(WithEntries(w.event, CommandEntries(w.world.ssh.value)),
                                [PostRollbackHealthCheck(true, NewStatus(w))]);
      FinishedNeverFails(PutEvent(db, e, judged), e, w.(event := judged));
    }
    hide Finished, FailedWith, PutEvent, CommandEntries;
  }

  lemma FinishedNeverFails(db: Db, e: Id, w: Worker)
    requires Recreated(w).Some?
    ensures !Finished(db, e, w).1.DoneFailed?
  {
    hide CanSaveService, Taken;
  }

  lemma FailureNames(db: Db, e: Id, w: Worker)
    ensures forall row: Event, reason: FailReason :: FailedWith(db, e, row, reason, w.world).1 == DoneFailed(reason)
  {
  }

  /** The event's row ends as this failure, it is told of once, and nothing else is changed. */
  ghost predicate FailedOnly(db: Db, db': Db, e: Id, reason: FailReason) {
    && db'.services == db.services && db'.snapshots == db.snapshots && db'.healthLogs == db.healthLogs
    && db'.events.Keys == db.events.Keys
    && (forall i :: i in db.events && i != e ==> db'.events[i] == db.events[i])
    && e in db.events && db'.events[e].status == Failed && db'.events[e].log != []
    && db'.events[e].log[|db'.events[e].log| - 1] == Failure(reason)
    && db'.alerts == db.alerts + multiset{RollbackFailed(e)}
  }

  lemma FailureIsOnly(db: Db, e: Id, row: Event, reason: FailReason, world: World)
    requires e in db.events
    ensures FailedWith(db, e, row, reason, world).1 == DoneFailed(reason)
    ensures FailedOnly(db, FailedWith(db, e, row, reason, world).0, e, reason)
  {
  }

  /** A failed job has changed its own event row and told of it once; services, snapshots and other events stay. */
  lemma FailedJobEffect(db: Db, e: Id, world: World)
    requires JobEffect(db, e, world).1.DoneFailed?
    ensures var (db', pc) := JobEffect(db, e, world); FailedOnly(db, db', e, pc.reason)
  {
    hide CanSaveEvent, Executed, FailedWith, FailedOnly;
    if CanStart(db, e) {
      var w := LoadedWorker(db, e, world);
      FailureIsOnly(db, e, w.event, KeyUnreadable, world);
      FailureIsOnly(db, e, w.event, SshFailed, world);
      if world.ssh.Some? && Executed(db, e, w).1.DoneFailed? {
        FailedExecution(db, e, w);
        var reason := Executed(db, e, w).1.reason;
        var row: Event :| row.status == w.event.status && Executed(db, e, w) == FailedWith(db, e, row, reason, world);
        FailureIsOnly(db, e, row, reason, world);
      }
    }
  }

  // ---------- As a run of the system ----------

  function WorkSteps(e: Id, n: nat): seq<Label> {
    seq(n, _ => Work(e))
  }

  lemma WorkFirst(s: Sys, e: Id, n: nat)
    requires e in s.workers && n > 0
    ensures var (db, w) := WorkerStep(s.db, e, s.workers[e]);
            var s1 := s.(db := db, workers := s.workers[e := w]);
            IsRun(s1, WorkSteps(e, n - 1)) ==>
              && IsRun(s, WorkSteps(e, n))
              && After(s, WorkSteps(e, n)) == After(s1, WorkSteps(e, n - 1))
  {
    assert WorkSteps(e, n)[0] == Work(e) && WorkSteps(e, n)[1..] == WorkSteps(e, n - 1);
    hide WorkerStep;
  }

  /** So the system's own steps, taken by this worker only, reach exactly these tables. */
  lemma {:induction false} AloneIsARun(s: Sys, e: Id, n: nat)
    requires e in s.workers && n >= Remaining(s.workers[e].pc)
    ensures IsRun(s, WorkSteps(e, n))
    ensures var r := RunAlone(s.db, e, s.workers[e]);
            After(s, WorkSteps(e, n)) == s.(db := r.0, workers := s.workers[e := r.1])
    decreases n
  {
    if n == 0 {
      NoMoreSteps(s, e);
    } else {
      hide WorkerStep, RunAlone, IsRun, After, WorkSteps, Remaining;
      WorkFirst(s, e, n);
      RestAlone(s.db, e, s.workers[e]);
      var (db', w') := WorkerStep(s.db, e, s.workers[e]);
      AloneIsARun(s.(db := db', workers := s.workers[e := w']), e, n - 1);
      var last := RunAlone(db', e, w').1;
      assert s.workers[e := w'][e := last] == s.workers[e := last];
    }
  }

  lemma NoMoreSteps(s: Sys, e: Id)
    requires e in s.workers && Remaining(s.workers[e].pc) == 0
    ensures IsRun(s, WorkSteps(e, 0)) && After(s, WorkSteps(e, 0)) == s
    ensures RunAlone(s.db, e, s.workers[e]) == (s.db, s.workers[e]) && s.workers[e := s.workers[e]] == s.workers
  {
    Ended(s.db, e, s.workers[e]);
  }

  /** One step leaves the rest of the job alone, with fewer steps left. */
  lemma RestAlone(db: Db, e: Id, w: Worker)
    ensures var (db', w') := WorkerStep(db, e, w);
            && RunAlone(db, e, w) == RunAlone(db', e, w')
            && Remaining(w'.pc) <= (if Remaining(w.pc) == 0 then 0 else Remaining(w.pc) - 1)
  {
    StepAdvances(db, e, w);
    hide WorkerStep, RunAlone;
    if IsDone(w.pc) {
      Ended(db, e, w);
    } else {
      Unfold(db, e, w, WorkerStep(db, e, w).0, WorkerStep(db, e, w).1);
    }
  }
}
