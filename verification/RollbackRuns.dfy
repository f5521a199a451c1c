/** What the rollback system guarantees over whole runs. */
module RollbackRuns {
  import opened Tables
  import opened Rollback
  import opened RollbackInvariant

  // ---------- No save is ever refused for another active rollback ----------

  /**
    The save that a worker's step attempts on its event never meets the unique index: as long as the row has not
    been removed with its host, every one of its saves is accepted.
   */
  lemma WorkerSavesNeverCollide(steps: seq<Label>, e: Id, row: Event)
    requires IsRun(INITIAL, steps)
    requires var s := After(INITIAL, steps);
             && e in s.workers && Writes(s.workers[e].pc)
             && SameKeys(row, s.workers[e].event) && (Active(row.status) ==> Active(s.workers[e].event.status))
    ensures CanSaveEvent(After(INITIAL, steps).db, e, row) <==> e in After(INITIAL, steps).db.events
  {
    InitiallyInv();
    RunKeepsInv(INITIAL, steps);
    var s := After(INITIAL, steps);
    assert WorkerOk(s.db, e, s.workers[e]);
    SaveFailsOnlyIfRemoved(s.db, e, s.workers[e], row);
  }

  // ---------- The shape of every stored event ----------

  lemma StoredRowOk(s: Sys, e: Id)
    requires Inv(s) && e in s.db.events
    ensures RowOk(s.db.events[e])
  {
    hide TablesOk, CallersOk, InsertedOk, QueueOk, CapturesOk;
    if e in s.workers {
      assert WorkerOk(s.db, e, s.workers[e]);
      DeliveredRowOk(s.db, e, s.workers[e]);
    }
  }

  lemma DeliveredRowOk(db: Db, e: Id, w: Worker)
    requires WorkerOk(db, e, w) && e in db.events
    ensures RowOk(db.events[e])
  {
    if HasRead(w.pc) && !w.pc.Crashed? {
      StageIsRowOk(w.pc, w.event);
    }
  }

  /** A worker's copy is a well-formed row, unless the failure is one that cannot be stored. */
  lemma StageIsRowOk(pc: Pc, row: Event)
    requires StageOk(pc, row) && HasRead(pc) && !pc.Crashed?
    requires !(ReasonOf(pc).Some? && IsGone(ReasonOf(pc).value))
    ensures RowOk(row)
  {
  }

  /**
    Every stored event is well formed at every moment: completedAt is set exactly for a terminal status, the log is
    a beginning of the fixed plan, a success has the whole plan, a failure ends in its failure entry, and no log ever
    records that the service, the host or the target was gone: removal takes the event too, so that save cannot work.
   */
  lemma EveryStoredEventIsWellFormed(steps: seq<Label>, e: Id)
    requires IsRun(INITIAL, steps) && e in After(INITIAL, steps).db.events
    ensures var row := After(INITIAL, steps).db.events[e];
            && RowOk(row)
            && (row.completedAt.Some? <==> !Active(row.status))
            && NoGoneFailure(row.log)
  {
    InitiallyInv();
    RunKeepsInv(INITIAL, steps);
    hide Inv;
    StoredRowOk(After(INITIAL, steps), e);
    WellFormedRow(After(INITIAL, steps).db.events[e]);
  }

  /** A failure is only ever the last entry, and never that something was gone. */
  predicate NoGoneFailure(log: seq<LogEntry>) {
    forall i :: 0 <= i < |log| && log[i].Failure? ==> i == |log| - 1 && !IsGone(log[i].reason)
  }

  lemma FollowingHasNoFailure(log: seq<LogEntry>, n: nat)
    requires Follows(log, n)
    ensures forall i :: 0 <= i < n ==> !log[i].Failure?
  {
    forall i | 0 <= i < n
      ensures !log[i].Failure?
    {
      assert KindOf(log[i]) == Plan(i);
    }
  }

  lemma WellFormedRow(row: Event)
    requires RowOk(row)
    ensures (row.completedAt.Some? <==> !Active(row.status)) && NoGoneFailure(row.log)
  {
    if LogIs(row.log, |row.log|) {
      FollowingHasNoFailure(row.log, |row.log|);
    } else if row.log != [] {
      FollowingHasNoFailure(row.log, |row.log| - 1);
    }
  }

  /** A job that finds its service, host or target gone cannot record it: its next step throws. */
  lemma GoneIsNeverRecorded(steps: seq<Label>, e: Id)
    requires IsRun(INITIAL, steps)
    requires var s := After(INITIAL, steps);
             e in s.workers && s.workers[e].pc.Failing? && IsGone(s.workers[e].pc.reason)
    ensures var s := After(INITIAL, steps);
            var s' := Apply(s, Work(e));
            s'.workers[e].pc.Crashed? && s'.db == s.db && e !in s.db.events
  {
    InitiallyInv();
    RunKeepsInv(INITIAL, steps);
    var s := After(INITIAL, steps);
    assert WorkerOk(s.db, e, s.workers[e]);
    hide Inv, TablesOk;
    GoneStepCrashes(s.db, e, s.workers[e]);
  }

  lemma GoneStepCrashes(db: Db, e: Id, w: Worker)
    requires WorkerOk(db, e, w) && w.pc.Failing? && IsGone(w.pc.reason)
    ensures var (db', w') := WorkerStep(db, e, w); db' == db && w'.pc.Crashed? && e !in db.events
  {
  }

  lemma EventHasHost(s: Sys, e: Id)
    requires Inv(s) && e in s.db.events
    ensures var sid := s.db.events[e].serviceId; sid in s.db.services && s.db.services[sid].hostId in s.db.hosts
  {
    assert EventReferences(s.db.services, s.db.snapshots, s.db.events[e]);
  }

  /** Such a job exists: the host of any queued event may be removed after its job has started. */
  lemma HostRemovedMidway(s: Sys, e: Id, worker: Worker)
    requires Inv(s) && e in s.queue && e in s.db.events && worker.pc == Delivered
    ensures s.db.events[e].serviceId in s.db.services
    ensures var h := s.db.services[s.db.events[e].serviceId].hostId;
            var steps := [Deliver(e, worker), Work(e), Work(e), DropHost(h), Work(e)];
            && IsRun(s, steps) && e in After(s, steps).workers
            && After(s, steps).workers[e].pc == Failing(ServiceGone)
  {
    hide Inv, IsRun, After, WorkerStep, Apply, Enabled, Worked;
    EventHasHost(s, e);
    var h := s.db.services[s.db.events[e].serviceId].hostId;
    var s1 := s.(queue := s.queue - multiset{e}, workers := s.workers[e := worker]);
    DeliveredState(s, e, worker);
    StartedIn(s1, e);
    var s2 := Worked(s1, e);
    WorkedIsApplied(s1, e);
    WorkedIsApplied(s2, e);
    LookUpAfterDrop(Worked(s2, e), e, h);
    FiveSteps(s, Deliver(e, worker), Work(e), Work(e), DropHost(h), Work(e));
  }

  lemma DeliveredState(s: Sys, e: Id, worker: Worker)
    requires Inv(s) && e in s.queue && worker.pc == Delivered
    ensures var s1 := s.(queue := s.queue - multiset{e}, workers := s.workers[e := worker]);
            Enabled(s, Deliver(e, worker)) && Apply(s, Deliver(e, worker)) == s1 && Inv(s1)
  {
    DeliverKeepsInv(s, e, worker);
    hide Inv;
  }

  lemma LookUpAfterDrop(s: Sys, e: Id, h: Id)
    requires e in s.workers && s.workers[e].pc == Started && h in s.db.hosts
    requires s.workers[e].event.serviceId in s.db.services && s.db.services[s.workers[e].event.serviceId].hostId == h
    ensures Enabled(s, DropHost(h)) && Enabled(Apply(s, DropHost(h)), Work(e))
    ensures var s' := Apply(Apply(s, DropHost(h)), Work(e)); e in s'.workers && s'.workers[e].pc == Failing(ServiceGone)
  {
    var s4 := s.(db := RemoveHost(s.db, h));
    assert Apply(s, DropHost(h)) == s4 && s.workers[e].event.serviceId !in s4.db.services;
    hide RemoveHost, Apply;
    WorkedIsApplied(s4, e);
  }

  /** A delivered job loads its event and starts it. */
  lemma StartedIn(s: Sys, e: Id)
    requires Inv(s) && e in s.workers && s.workers[e].pc == Delivered && e in s.db.events
    ensures Enabled(s, Work(e)) && e in Worked(s, e).workers && Enabled(Worked(s, e), Work(e))
    ensures var s2 := Worked(Worked(s, e), e);
            && e in s2.workers && s2.workers[e].pc == Started
            && s2.workers[e].event.serviceId == s.db.events[e].serviceId
            && s2.db.hosts == s.db.hosts && s2.db.services == s.db.services
  {
    hide Inv, CanSaveEvent, WorkerStep, PutEvent;
    LoadedStarts(s, e);
    var row := s.db.events[e].(status := InProgress);
    var w1 := s.workers[e].(event := s.db.events[e], pc := Loaded);
    LoadingStep(s.db, e, s.workers[e]);
    StartingStep(s.db, e, w1);
    PutEventLeavesServices(s.db, e, row);
    assert Worked(s, e) == s.(workers := s.workers[e := w1]);
  }

  lemma LoadingStep(db: Db, e: Id, w: Worker)
    requires w.pc == Delivered && e in db.events
    ensures WorkerStep(db, e, w) == (db, w.(event := db.events[e], pc := Loaded))
  {
  }

  lemma StartingStep(db: Db, e: Id, w: Worker)
    requires w.pc == Loaded && CanSaveEvent(db, e, w.event.(status := InProgress))
    ensures var row := w.event.(status := InProgress);
            WorkerStep(db, e, w) == (PutEvent(db, e, row), w.(event := row, pc := Started))
  {
    hide CanSaveEvent, PutEvent;
  }

  lemma PutEventLeavesServices(db: Db, e: Id, row: Event)
    ensures PutEvent(db, e, row).services == db.services && PutEvent(db, e, row).hosts == db.hosts
  {
  }

  lemma LoadedStarts(s: Sys, e: Id)
    requires Inv(s) && e in s.workers && s.workers[e].pc == Delivered && e in s.db.events
    ensures CanSaveEvent(s.db, e, s.db.events[e].(status := InProgress))
  {
    assert WorkerOk(s.db, e, s.workers[e]);
    assert EventReferences(s.db.services, s.db.snapshots, s.db.events[e]);
    hide WorkersOk, CallersOk, CapturesOk, InsertedOk, QueueOk, UndeliveredOk;
  }

  lemma FiveSteps(s: Sys, a: Label, b: Label, c: Label, d: Label, e: Label)
    requires Enabled(s, a) && Enabled(Apply(s, a), b) && Enabled(Apply(Apply(s, a), b), c)
    requires Enabled(Apply(Apply(Apply(s, a), b), c), d) && Enabled(Apply(Apply(Apply(Apply(s, a), b), c), d), e)
    ensures IsRun(s, [a, b, c, d, e])
    ensures After(s, [a, b, c, d, e]) == Apply(Apply(Apply(Apply(Apply(s, a), b), c), d), e)
  {
    hide Enabled, Apply;
    var s1 := Apply(s, a);
    var s2 := Apply(s1, b);
    var s3 := Apply(s2, c);
    OneStepRun(Apply(s3, d), e);
    OneStepRun(s3, d);
    RunsConcat(s3, [d], [e]);
    OneStepRun(s2, c);
    RunsConcat(s2, [c], [d] + [e]);
    OneStepRun(s1, b);
    RunsConcat(s1, [b], [c] + ([d] + [e]));
    OneStepRun(s, a);
    RunsConcat(s, [a], [b] + ([c] + ([d] + [e])));
    assert [a] + ([b] + ([c] + ([d] + [e]))) == [a, b, c, d, e];
  }

  /** Some command's result was logged. */
  predicate LogsSomeCommand(log: seq<LogEntry>) {
    exists i :: 0 <= i < |log| && log[i].Command?
  }

  /** All four were, in order. */
  predicate LogsAllCommands(log: seq<LogEntry>) {
    |log| >= 4 && forall k :: 0 <= k < 4 ==> log[k].Command? && log[k].step == CommandStepAt(k)
  }

  lemma FollowingLogsCommands(log: seq<LogEntry>, n: nat)
    requires Follows(log, n) && n >= 4
    ensures LogsAllCommands(log)
  {
    forall k | 0 <= k < 4
      ensures log[k].Command? && log[k].step == CommandStepAt(k)
    {
      assert KindOf(log[k]) == Plan(k);
    }
  }

  /**
    The log of a failed event is never partial: it holds the results of all four commands when the run or the health
    check failed, and of none when anything failed before, a broken session included.
   */
  lemma FailedLogHasAllCommandsOrNone(steps: seq<Label>, e: Id)
    requires IsRun(INITIAL, steps) && e in After(INITIAL, steps).db.events
    requires After(INITIAL, steps).db.events[e].status == Failed
    ensures var log := After(INITIAL, steps).db.events[e].log;
            && log != [] && log[|log| - 1].Failure?
            && var reason := log[|log| - 1].reason;
               && (LogsSomeCommand(log) <==> reason.RunFailed? || reason.NotRunning?)
               && (LogsSomeCommand(log) ==> LogsAllCommands(log))
  {
    hide Inv, RowOk, LogsSomeCommand, LogsAllCommands, IsRun, After;
    InitiallyInv();
    RunKeepsInv(INITIAL, steps);
    StoredRowOk(After(INITIAL, steps), e);
    FailedRowLog(After(INITIAL, steps).db.events[e]);
  }

  lemma FailedRowLog(row: Event)
    requires RowOk(row) && row.status == Failed
    ensures row.log != [] && row.log[|row.log| - 1].Failure?
    ensures var log, reason := row.log, row.log[|row.log| - 1].reason;
            && (LogsSomeCommand(log) <==> reason.RunFailed? || reason.NotRunning?)
            && (LogsSomeCommand(log) ==> LogsAllCommands(log))
  {
    var n := |row.log| - 1;
    if n >= 4 {
      FollowingLogsCommands(row.log, n);
      assert row.log[0].Command?;
    }
  }

  // ---------- How an event may change ----------

  function Rank(status: EventStatus): nat {
    match status
    case Pending => 0
    case InProgress => 1
    case Succeeded => 2
    case Failed => 2
  }

  /**
    From an earlier row of an event to a later one: forward in status, the log only grows, and a terminal row is
    final.
   */
  predicate Progress(a: Event, b: Event) {
    && SameKeys(a, b)
    && Rank(a.status) <= Rank(b.status)
    && a.log <= b.log
    && (!Active(a.status) ==> a == b)
  }

  lemma ProgressComposes(a: Event, b: Event, c: Event)
    requires Progress(a, b) && Progress(b, c)
    ensures Progress(a, c)
  {
  }

  /** Single moves of the status: pending, in progress, then succeeded or failed. */
  predicate NextStatus(a: EventStatus, b: EventStatus) {
    a == b || (a == Pending && b == InProgress) || (a == InProgress && (b == Succeeded || b == Failed))
  }

  lemma WritingProgresses(db: Db, e: Id, w: Worker)
    requires WorkerOk(db, e, w) && Writes(w.pc) && e in db.events
    ensures var db' := WritingStep(db, e, w).0;
            && e in db'.events
            && Progress(db.events[e], db'.events[e]) && NextStatus(db.events[e].status, db'.events[e].status)
            && |db'.events[e].log| <= |db.events[e].log| + 1
  {
  }

  lemma ProgressReflexive(a: Event)
    ensures Progress(a, a)
  {
  }

  /** A step that does not write the event leaves its row alone. */
  lemma OwnStepProgresses(db: Db, e: Id, w: Worker)
    requires WorkerOk(db, e, w) && e in db.events
    ensures var db' := WorkerStep(db, e, w).0;
            && e in db'.events && Progress(db.events[e], db'.events[e])
            && NextStatus(db.events[e].status, db'.events[e].status)
  {
    hide WritingStep, Progress, WorkerOk;
    if Writes(w.pc) {
      WritingProgresses(db, e, w);
    } else {
      ProgressReflexive(db.events[e]);
    }
  }

  lemma WorkProgresses(s: Sys, e: Id, x: Id)
    requires Inv(s) && e in s.workers && x < s.db.next
    ensures var db' := WorkerStep(s.db, e, s.workers[e]).0;
            && s.db.next <= db'.next && (x in s.db.events <==> x in db'.events)
            && (x in s.db.events ==>
                  Progress(s.db.events[x], db'.events[x]) && NextStatus(s.db.events[x].status, db'.events[x].status))
  {
    var w := s.workers[e];
    assert WorkerOk(s.db, e, w);
    hide Inv, WorkerOk, WorkerStep, Progress;
    WorkAroundOthers(s.db, e, w, e + 1);
    if x in s.db.events {
      if x == e {
        OwnStepProgresses(s.db, e, w);
      } else {
        WorkAroundOthers(s.db, e, w, x);
        ProgressReflexive(s.db.events[x]);
      }
    }
  }

  /** Everybody but a worker leaves existing events alone, and only the removal of a host removes any. */
  lemma OtherStepsLeaveEvents(s: Sys, step: Label, x: Id)
    requires TablesOk(s.db) && Enabled(s, step) && !step.Work? && x < s.db.next
    ensures var db' := Apply(s, step).db;
            && s.db.next <= db'.next
            && (x in db'.events ==> x in s.db.events && db'.events[x] == s.db.events[x])
            && (x in s.db.events && !step.DropHost? ==> x in db'.events)
  {
    hide TablesOk, CanSaveEvent, CanSaveService, CanCommit;
    match step
    case Call(c, addWorks) =>
    case CaptureEnd(t) =>
      CommitLeavesEvents(s.db, s.captures[t].flips, CapturedSnapshot(s.captures[t]));
    case DropHost(h) =>
    case _ =>
  }

  /** One step of anybody: an event moves at most one status forward, or is removed with its host; none comes back. */
  lemma StepProgresses(s: Sys, step: Label, x: Id)
    requires Inv(s) && Enabled(s, step) && x < s.db.next
    ensures var db' := Apply(s, step).db;
            && s.db.next <= db'.next
            && (x !in s.db.events ==> x !in db'.events)
            && (x in s.db.events && x in db'.events ==>
                  Progress(s.db.events[x], db'.events[x]) && NextStatus(s.db.events[x].status, db'.events[x].status))
            && (x in s.db.events && !step.DropHost? ==> x in db'.events)
  {
    if step.Work? {
      hide Inv, WorkerStep, Progress;
      WorkProgresses(s, step.e, x);
    } else {
      hide WorkersOk, CallersOk, InsertedOk, QueueOk, CapturesOk, UndeliveredOk, TablesOk, Apply, Enabled, Progress;
      OtherStepsLeaveEvents(s, step, x);
      if x in s.db.events {
        ProgressReflexive(s.db.events[x]);
      }
    }
  }

  /**
    Over every run an event only moves forward: its status never goes back, its log only grows at the end, a terminal
    row never changes again, and a removed event never returns.
   */
  lemma {:induction false} RunProgresses(s: Sys, steps: seq<Label>, x: Id)
    requires Inv(s) && IsRun(s, steps) && x < s.db.next
    ensures var db' := After(s, steps).db;
            && (x !in s.db.events ==> x !in db'.events)
            && (x in s.db.events && x in db'.events ==> Progress(s.db.events[x], db'.events[x]))
    decreases |steps|
  {
    if steps != [] {
      hide Inv, Apply, Enabled, Progress;
      var s1 := Apply(s, steps[0]);
      StepProgresses(s, steps[0], x);
      StepKeepsInv(s, steps[0]);
      RunProgresses(s1, steps[1..], x);
      var last := After(s, steps).db;
      if x in s.db.events && x in last.events {
        ProgressComposes(s.db.events[x], s1.db.events[x], last.events[x]);
      }
    } else if x in s.db.events {
      ProgressReflexive(s.db.events[x]);
    }
  }

  /** The same between any two moments of any run of the whole system. */
  lemma EventsOnlyMoveForward(first: seq<Label>, second: seq<Label>, x: Id)
    requires IsRun(INITIAL, first + second)
    ensures IsRun(INITIAL, first)
    ensures var before, after := After(INITIAL, first).db, After(INITIAL, first + second).db;
            && (x < before.next && x !in before.events ==> x !in after.events)
            && (x in before.events && x in after.events ==> Progress(before.events[x], after.events[x]))
  {
    InitiallyInv();
    RunsCompose(INITIAL, first, second);
    RunKeepsInv(INITIAL, first);
    var s := After(INITIAL, first);
    TablesFresh(s.db);
    if x < s.db.next {
      RunProgresses(s, second, x);
    }
  }
}
