/** When a worker throws in the middle of whatever the others do, and so leaves its event in progress for good. */
module RollbackThrows {
  import opened Wrappers
  import opened Tables
  import opened Rollback
  import opened RollbackInvariant
  import opened RollbackOutcome

  // ---------- The condition, program point by program point ----------

  /** The host is gone, or another of its rows has the recreated container's id. */
  predicate CannotSaveService(db: Db, w: Worker) {
    || Recreated(w).None?
    || w.service.hostId !in db.hosts
    || (exists i :: i in db.services && i != w.event.serviceId
                    && db.services[i].hostId == w.service.hostId && db.services[i].containerId == Recreated(w).value.id)
  }

  /** The service is gone, or somebody has made a snapshot of it current since the transaction's update. */
  predicate CannotInsertSnapshot(db: Db, w: Worker) {
    || w.event.serviceId !in db.services
    || (exists i :: i in db.snapshots && IsCurrentFor(db.snapshots, i, w.event.serviceId) && i !in w.flips)
  }

  /** What makes the worker's next step throw. */
  predicate StepThrows(db: Db, e: Id, w: Worker) {
    match w.pc
    case Loaded => e !in db.events
    case TargetRead => w.world.keyReadable && !w.world.configReadable
    case Logging(k) =>
      || w.world.ssh.None?
      || (k < 4 && e !in db.events)
      || (k >= 4 && w.world.ssh.value.run.exitCode == Some(0) && (w.world.listing.None? || e !in db.events))
    case SavingService => CannotSaveService(db, w)
    case ServiceSaved => !w.world.configReadableAgain
    case InTransaction => CannotInsertSnapshot(db, w)
    case SnapshotSaved => !w.world.healthLogWorks
    case HealthLogged => e !in db.events
    case Failing(_) => e !in db.events
    case FailureLogged(_) => e !in db.events
    case _ => false
  }

  lemma EventSaveThrowsIff(db: Db, e: Id, w: Worker, row: Event, pc: Pc)
    requires TablesOk(db) && WorkerOk(db, e, w) && HasRead(w.pc) && !w.pc.Crashed? && !pc.Crashed?
    requires SameKeys(row, w.event) && (Active(row.status) ==> Active(w.event.status))
    ensures SaveThen(db, e, w, row, pc).1.pc.Crashed? <==> e !in db.events
  {
    SaveFailsOnlyIfRemoved(db, e, w, row);
    hide TablesOk, WorkerOk, CanSaveEvent;
  }

  lemma EventWritersThrowIff(db: Db, e: Id, w: Worker)
    requires TablesOk(db) && WorkerOk(db, e, w) && Writes(w.pc) && !w.pc.Logging?
    ensures WritingStep(db, e, w).1.pc.Crashed? <==> e !in db.events
  {
    hide TablesOk, WorkerOk, SaveThen;
    WritersAreActive(db, e, w);
    match w.pc
    case Loaded =>
      EventSaveThrowsIff(db, e, w, w.event.(status := InProgress), Started);
    case HealthLogged =>
      EventSaveThrowsIff(db, e, w, w.event.(status := Succeeded, completedAt := Some(w.world.completedAt)),
                         DoneSucceeded);
    case Failing(reason) =>
      EventSaveThrowsIff(db, e, w, w.event.(log := w.event.log + [Failure(reason)]), FailureLogged(reason));
    case FailureLogged(reason) =>
      EventSaveThrowsIff(db, e, w, w.event.(status := Failed, completedAt := Some(w.world.completedAt)),
                         FailureSaved(reason));
  }

  lemma WritingThrowsIff(db: Db, e: Id, w: Worker)
    requires TablesOk(db) && WorkerOk(db, e, w) && Writes(w.pc)
    ensures WritingStep(db, e, w).1.pc.Crashed? <==> StepThrows(db, e, w)
  {
    if w.pc.Logging? {
      hide TablesOk, WorkerOk, LoggingStep, StepThrows;
      LoggingThrowsIff(db, e, w, w.pc.k);
    } else {
      hide TablesOk, WorkerOk, WritingStep;
      EventWritersThrowIff(db, e, w);
    }
  }

  lemma WritersAreActive(db: Db, e: Id, w: Worker)
    requires WorkerOk(db, e, w) && Writes(w.pc)
    ensures Active(w.event.status)
  {
  }

  lemma LoggingThrowsIff(db: Db, e: Id, w: Worker, k: nat)
    requires TablesOk(db) && WorkerOk(db, e, w) && w.pc == Logging(k)
    ensures LoggingStep(db, e, w, k).1.pc.Crashed? <==> StepThrows(db, e, w)
  {
    hide TablesOk, WorkerOk, SaveThen;
    if w.world.ssh.Some? {
      EventSaveThrowsIff(db, e, w, w.event.(log := w.event.log + [CommandEntry(w.world.ssh.value, k)]), Logging(k + 1));
      EventSaveThrowsIff(db, e, w,
                         w.event.(log := w.event.log + [PostRollbackHealthCheck(Recreated(w).Some?, NewStatus(w))]),
                         Judged);
    }
  }

  lemma SavingServiceThrowsIff(db: Db, w: Worker)
    requires w.pc.SavingService?
    ensures SavingServiceStep(db, w).1.pc.Crashed? <==> CannotSaveService(db, w)
  {
  }

  lemma CommittingThrowsIff(db: Db, w: Worker)
    requires w.pc.InTransaction?
    ensures CommittingStep(db, w).1.pc.Crashed? <==> CannotInsertSnapshot(db, w)
  {
    hide Commit;
    if i :| i in db.snapshots && IsCurrentFor(db.snapshots, i, w.event.serviceId) && i !in w.flips {
      assert i in CurrentIds(db, w.event.serviceId);
    }
  }

  lemma ReadingThrowsIff(db: Db, e: Id, w: Worker)
    requires Reads(w.pc) && !w.pc.Crashed?
    ensures ReadingStep(db, e, w).pc.Crashed? <==> StepThrows(db, e, w)
  {
    hide CurrentIds, Recreated, NewStatus;
  }

  /** A worker's next step throws exactly under that condition, in any state that the system reaches. */
  lemma WorkerThrowsIff(db: Db, e: Id, w: Worker)
    requires TablesOk(db) && WorkerOk(db, e, w) && !w.pc.Crashed?
    ensures WorkerStep(db, e, w).1.pc.Crashed? <==> StepThrows(db, e, w)
  {
    hide TablesOk, WorkerOk, WritingStep, SavingServiceStep, CommittingStep, ReadingStep, Noted;
    hide CannotSaveService, CannotInsertSnapshot;
    if Writes(w.pc) {
      WritingThrowsIff(db, e, w);
    } else if w.pc.SavingService? {
      SavingServiceThrowsIff(db, w);
    } else if w.pc.InTransaction? {
      CommittingThrowsIff(db, w);
    } else {
      ReadingThrowsIff(db, e, w);
    }
  }

  // ---------- Over runs ----------

  lemma OfInv(s: Sys, e: Id)
    requires Inv(s) && e in s.workers
    ensures TablesOk(s.db) && WorkerOk(s.db, e, s.workers[e])
  {
  }

  lemma StuckMeans(s: Sys, e: Id)
    requires e in s.workers && Stuck(s, e)
    ensures e in s.db.events && s.workers[e].pc.Crashed?
  {
  }

  lemma StrandedByStepIff(s: Sys, e: Id)
    requires Inv(s) && e in s.workers && !s.workers[e].pc.Crashed?
    ensures Stuck(Worked(s, e), e) <==> e in s.db.events && StepThrows(s.db, e, s.workers[e])
  {
    hide Inv, TablesOk, WorkerOk, WorkerStep, StepThrows, Apply, Around, Keeps, Stuck, Enabled;
    OfInv(s, e);
    WorkerThrowsIff(s.db, e, s.workers[e]);
    WorkAroundOthers(s.db, e, s.workers[e], e + 1);
    WorkedIsApplied(s, e);
    assert e in s.db.events.Keys <==> e in Worked(s, e).db.events.Keys;
    if Stuck(Worked(s, e), e) {
      StuckMeans(Worked(s, e), e);
    } else if e in s.db.events && WorkerStep(s.db, e, s.workers[e]).1.pc.Crashed? {
      WorkKeepsInv(s, e);
      CrashStrands(Worked(s, e), e);
    }
  }

  /**
    In every interleaving: the step of a worker leaves its event stuck for good exactly when the event is still there
    and the step throws.
   */
  lemma StepStrandsIff(steps: seq<Label>, e: Id)
    requires IsRun(INITIAL, steps)
    requires e in After(INITIAL, steps).workers && !After(INITIAL, steps).workers[e].pc.Crashed?
    ensures var s := After(INITIAL, steps);
            Stuck(Worked(s, e), e) <==> e in s.db.events && StepThrows(s.db, e, s.workers[e])
  {
    hide Inv, IsRun, After, Worked, Stuck, StepThrows;
    InitiallyInv();
    RunKeepsInv(INITIAL, steps);
    StrandedByStepIff(After(INITIAL, steps), e);
  }

  // ---------- A job whose every part succeeds ----------

  /** The system after the snapshot transaction of a sync has committed. */
  ghost function AfterCommit(s: Sys, t: Id): Sys
    requires t in s.captures && s.captures[t].serviceId in s.db.services
  {
    var x := s.captures[t];
    s.(db := Commit(s.db, x.flips, CapturedSnapshot(x)), captures := s.captures - {t},
       workers := Disturb(s.workers, s.db.services[x.serviceId].hostId, x.serviceId))
  }

  /** It is what the system's own step gives. */
  lemma CommitIsApplied(s: Sys, t: Id)
    requires t in s.captures && CanCommit(s.db, s.captures[t].serviceId, s.captures[t].flips)
    ensures Enabled(s, CaptureEnd(t)) && Apply(s, CaptureEnd(t)) == AfterCommit(s, t)
  {
    hide Commit, Disturb, CurrentIds;
  }

  lemma CommitKeepsWorkers(s: Sys, t: Id, e: Id)
    requires t in s.captures && s.captures[t].serviceId in s.db.services && e in s.workers
    ensures var s1 := AfterCommit(s, t);
            && e in s1.workers && s1.workers[e] == s.workers[e].(undisturbed := s1.workers[e].undisturbed)
            && s1.db == Commit(s.db, s.captures[t].flips, CapturedSnapshot(s.captures[t]))
  {
    hide Commit;
  }

  lemma FlipsOfWorker(db: Db, e: Id, w: Worker)
    requires WorkerOk(db, e, w) && w.pc.InTransaction?
    ensures FlipsOk(db, w.flips, w.event.serviceId)
  {
  }

  lemma DisturbedMissesToo(db: Db, a: Worker, b: Worker)
    requires b == a.(undisturbed := b.undisturbed) && CannotInsertSnapshot(db, a)
    ensures CannotInsertSnapshot(db, b)
  {
  }

  lemma NewSnapshotIsMissed(db: Db, x: Capture, w: Worker)
    requires FlipsOk(db, w.flips, w.event.serviceId) && x.serviceId == w.event.serviceId
    ensures CannotInsertSnapshot(Commit(db, x.flips, CapturedSnapshot(x)), w)
  {
    var after := Commit(db, x.flips, CapturedSnapshot(x));
    assert db.next !in w.flips;
    assert db.next in after.snapshots && IsCurrentFor(after.snapshots, db.next, w.event.serviceId);
  }

  lemma ThrowsInTransactionIff(db: Db, e: Id, w: Worker)
    requires w.pc.InTransaction?
    ensures StepThrows(db, e, w) <==> CannotInsertSnapshot(db, w)
  {
    hide CannotInsertSnapshot;
  }

  /** The worker is left with flips that miss the sync's snapshot. */
  lemma CommitLeavesBehind(s: Sys, e: Id, t: Id)
    requires Inv(s) && e in s.workers && s.workers[e].pc.InTransaction?
    requires t in s.captures && s.captures[t].serviceId == s.workers[e].event.serviceId
    requires s.captures[t].serviceId in s.db.services
    ensures var s1 := AfterCommit(s, t);
            e in s1.workers && s1.workers[e].pc.InTransaction? && CannotInsertSnapshot(s1.db, s1.workers[e])
  {
    CommitKeepsWorkers(s, t, e);
    hide Inv, TablesOk, WorkerOk, FlipsOk, Commit, AfterCommit, CannotInsertSnapshot;
    var x, w, s1 := s.captures[t], s.workers[e], AfterCommit(s, t);
    OfInv(s, e);
    FlipsOfWorker(s.db, e, w);
    NewSnapshotIsMissed(s.db, x, w);
    DisturbedMissesToo(s1.db, w, s1.workers[e]);
  }

  lemma CommitKeepsInvAndEvents(s: Sys, t: Id)
    requires Inv(s) && t in s.captures && CanCommit(s.db, s.captures[t].serviceId, s.captures[t].flips)
    ensures s.captures[t].serviceId in s.db.services
    ensures Inv(AfterCommit(s, t)) && AfterCommit(s, t).db.events == s.db.events
  {
    CommitLeavesEvents(s.db, s.captures[t].flips, CapturedSnapshot(s.captures[t]));
    hide Inv, Apply, Enabled, CurrentIds, Commit, Disturb;
    CommitIsApplied(s, t);
    StepKeepsInv(s, CaptureEnd(t));
  }

  /**
    A sync's snapshot transaction of the same service that commits between the update and the insert of the worker's
    makes the insert meet the unique index: the rollback throws and its event is stuck, though everything it did
    succeeded.
   */
  lemma SnapshotRaceStrands(s: Sys, e: Id, t: Id)
    requires Inv(s) && e in s.workers && s.workers[e].pc.InTransaction? && e in s.db.events
    requires t in s.captures && s.captures[t].serviceId == s.workers[e].event.serviceId
    requires CanCommit(s.db, s.captures[t].serviceId, s.captures[t].flips)
    ensures s.captures[t].serviceId in s.db.services
    ensures e in AfterCommit(s, t).workers && Stuck(Worked(AfterCommit(s, t), e), e)
  {
    CommitKeepsInvAndEvents(s, t);
    hide Inv, Stuck, Worked, CanCommit, AfterCommit, StepThrows, CannotInsertSnapshot;
    CommitLeavesBehind(s, e, t);
    var s1 := AfterCommit(s, t);
    ThrowsInTransactionIff(s1.db, e, s1.workers[e]);
    StrandedByStepIff(s1, e);
  }
}
