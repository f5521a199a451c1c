/** From the request to the deployment: the snapshot that a caller asked for is the one that its rollback deploys. */
module RequestedTarget {
  import opened Wrappers
  import opened Tables
  import opened Rollback
  import opened RollbackInvariant
  import opened RollbackRuns
  import opened RollbackOutcome

  // ---------- What a caller holds on to ----------

  /** The caller's event was inserted. */
  predicate IsAccepted(pc: CallerPc) {
    pc == Inserted || pc == Returned || pc == Stranded
  }

  /** The caller has looked up the current snapshot. */
  predicate HasCurrent(pc: CallerPc) {
    pc == CurrentFound || pc == NoneActive || IsAccepted(pc)
  }

  predicate SameRequest(a: Caller, b: Caller) {
    a.orgId == b.orgId && a.serviceId == b.serviceId && a.targetSnapshotId == b.targetSnapshotId && a.userId == b.userId
  }

  /** The row is the caller's: from the current snapshot that it found to the target that it asked for. */
  predicate Answers(row: Event, k: Caller) {
    && row.serviceId == k.serviceId && row.triggeredBy == k.userId
    && row.toSnapshotId == k.targetSnapshotId && row.fromSnapshotId == k.currentSnapshotId
  }

  /** What one step makes of a caller. */
  ghost predicate CallerMoves(db: Db, after: Db, a: Caller, b: Caller) {
    && SameRequest(a, b)
    && (a.pc == Refused ==> b == a)
    && (HasCurrent(a.pc) ==> b.currentSnapshotId == a.currentSnapshotId && (HasCurrent(b.pc) || b.pc == Refused))
    && (HasCurrent(b.pc) && !HasCurrent(a.pc) ==> b.currentSnapshotId in CurrentIds(db, a.serviceId))
    && (IsAccepted(a.pc) ==> IsAccepted(b.pc) && b.eventId == a.eventId)
    && (IsAccepted(b.pc) && !IsAccepted(a.pc) ==>
          b.eventId == db.next && db.next in after.events && Answers(after.events[db.next], b))
  }

  lemma InsertMoves(s: Sys, c: Id, addWorks: bool)
    requires c in s.callers && s.callers[c].pc == NoneActive
    ensures var s' := CallerStep(s, c, addWorks);
            c in s'.callers && CallerMoves(s.db, s'.db, s.callers[c], s'.callers[c])
  {
    hide CanSaveEvent, SomeActive, CurrentIds;
  }

  lemma LookupMoves(s: Sys, c: Id, addWorks: bool)
    requires c in s.callers && s.callers[c].pc == TargetFound
    ensures var s' := CallerStep(s, c, addWorks);
            c in s'.callers && CallerMoves(s.db, s'.db, s.callers[c], s'.callers[c])
  {
    hide CanSaveEvent, SomeActive, CurrentIds;
  }

  lemma OtherMoves(s: Sys, c: Id, addWorks: bool)
    requires c in s.callers && s.callers[c].pc != NoneActive && s.callers[c].pc != TargetFound
    ensures var s' := CallerStep(s, c, addWorks);
            c in s'.callers && CallerMoves(s.db, s'.db, s.callers[c], s'.callers[c])
  {
    hide CanSaveEvent, SomeActive, CurrentIds, PutEvent;
  }

  lemma OwnCallMoves(s: Sys, c: Id, addWorks: bool)
    requires c in s.callers
    ensures var s' := CallerStep(s, c, addWorks);
            c in s'.callers && CallerMoves(s.db, s'.db, s.callers[c], s'.callers[c])
  {
    hide CallerStep, CallerMoves;
    if s.callers[c].pc == NoneActive {
      InsertMoves(s, c, addWorks);
    } else if s.callers[c].pc == TargetFound {
      LookupMoves(s, c, addWorks);
    } else {
      OtherMoves(s, c, addWorks);
    }
  }

  lemma CallerAfter(s: Sys, step: Label, c: Id)
    requires Enabled(s, step) && c in s.callers
    ensures c in Apply(s, step).callers
    ensures CallerMoves(s.db, Apply(s, step).db, s.callers[c], Apply(s, step).callers[c])
  {
    hide CallerStep, WorkerStep, CanSaveService, CanCommit, AfterSyncSave, Commit, RemoveHost, CurrentIds;
    if step.Call? {
      if step.c == c {
        hide CallerMoves;
        OwnCallMoves(s, c, step.addWorks);
      } else {
        CallLeavesOtherCallers(s, step.c, step.addWorks, c);
      }
    }
  }

  lemma NewCallerArrives(s: Sys, step: Label, c: Id)
    requires Enabled(s, step) && c !in s.callers && c in Apply(s, step).callers
    ensures Apply(s, step).callers[c].pc == Arrived
  {
    hide CallerStep, WorkerStep, CanSaveService, CanCommit, AfterSyncSave, Commit, RemoveHost, CurrentIds;
    if step.Call? {
      CallLeavesOtherCallers(s, step.c, step.addWorks, c);
    }
  }

  // ---------- Every accepted caller's event is what it asked for ----------

  predicate CallerAnswered(db: Db, k: Caller) {
    IsAccepted(k.pc) ==> k.eventId < db.next && (k.eventId in db.events ==> Answers(db.events[k.eventId], k))
  }

  ghost predicate CallersAnswered(s: Sys) {
    forall c :: c in s.callers ==> CallerAnswered(s.db, s.callers[c])
  }

  lemma RowStillAnswers(s: Sys, step: Label, k: Caller)
    requires Inv(s) && Enabled(s, step) && IsAccepted(k.pc) && CallerAnswered(s.db, k)
    ensures CallerAnswered(Apply(s, step).db, k)
  {
    hide Inv, Apply, Enabled;
    StepProgresses(s, step, k.eventId);
  }

  lemma MovedIsAnswered(db: Db, after: Db, a: Caller, b: Caller)
    requires CallerMoves(db, after, a, b)
    requires forall i :: i in after.events ==> i < after.next
    requires IsAccepted(a.pc) ==> CallerAnswered(after, a)
    ensures CallerAnswered(after, b)
  {
    hide CurrentIds;
  }

  lemma StepKeepsAnswered(s: Sys, step: Label)
    requires Inv(s) && Enabled(s, step) && CallersAnswered(s)
    ensures CallersAnswered(Apply(s, step))
  {
    var s' := Apply(s, step);
    StepKeepsInv(s, step);
    InvEventsBelow(s');
    hide Inv, Apply, Enabled, CallerMoves, CallerAnswered;
    forall c | c in s'.callers
      ensures CallerAnswered(s'.db, s'.callers[c])
    {
      if c in s.callers {
        CallerAfter(s, step, c);
        if IsAccepted(s.callers[c].pc) {
          RowStillAnswers(s, step, s.callers[c]);
        }
        MovedIsAnswered(s.db, s'.db, s.callers[c], s'.callers[c]);
      } else {
        NewCallerArrives(s, step, c);
        ArrivedIsAnswered(s'.db, s'.callers[c]);
      }
    }
  }

  lemma ArrivedIsAnswered(db: Db, k: Caller)
    requires k.pc == Arrived
    ensures CallerAnswered(db, k)
  {
  }

  lemma InvEventsBelow(s: Sys)
    requires Inv(s)
    ensures forall i :: i in s.db.events ==> i < s.db.next
  {
    assert forall i :: i in s.db.events ==> i in s.db.events.Keys;
  }

  lemma {:induction false} RunKeepsAnswered(s: Sys, steps: seq<Label>)
    requires Inv(s) && CallersAnswered(s) && IsRun(s, steps)
    ensures CallersAnswered(After(s, steps))
    decreases |steps|
  {
    if steps != [] {
      hide Inv, CallersAnswered, Apply, Enabled;
      StepKeepsInv(s, steps[0]);
      StepKeepsAnswered(s, steps[0]);
      RunKeepsAnswered(Apply(s, steps[0]), steps[1..]);
    }
  }

  /** The snapshot was the service's current one at some moment of the run. */
  ghost predicate OnceCurrent(s: Sys, steps: seq<Label>, serviceId: Id, snapshotId: Id)
    requires IsRun(s, steps)
    decreases |steps|
  {
    || snapshotId in CurrentIds(s.db, serviceId)
    || (steps != [] && OnceCurrent(Apply(s, steps[0]), steps[1..], serviceId, snapshotId))
  }

  /** Where a caller may be before it has looked up the current snapshot, if it has come at all. */
  predicate BeforeCurrent(s: Sys, c: Id) {
    c in s.callers ==> !HasCurrent(s.callers[c].pc)
  }

  /** Over a run a caller keeps its request, the current snapshot that it found, and its event. */
  lemma {:induction false} CallerOverRun(s: Sys, steps: seq<Label>, c: Id)
    requires IsRun(s, steps) && c in s.callers
    ensures c in After(s, steps).callers
    ensures var a, b := s.callers[c], After(s, steps).callers[c];
            && SameRequest(a, b)
            && (a.pc == Refused ==> b == a)
            && (HasCurrent(a.pc) ==>
                  b.currentSnapshotId == a.currentSnapshotId && (HasCurrent(b.pc) || b.pc == Refused))
            && (IsAccepted(a.pc) ==> IsAccepted(b.pc) && b.eventId == a.eventId)
    decreases |steps|
  {
    if steps != [] {
      hide Apply, Enabled, CurrentIds;
      CallerAfter(s, steps[0], c);
      CallerOverRun(Apply(s, steps[0]), steps[1..], c);
    }
  }

  lemma {:induction false} TookCurrent(s: Sys, steps: seq<Label>, c: Id)
    requires IsRun(s, steps) && BeforeCurrent(s, c)
    requires c in After(s, steps).callers && HasCurrent(After(s, steps).callers[c].pc)
    ensures var k := After(s, steps).callers[c]; OnceCurrent(s, steps, k.serviceId, k.currentSnapshotId)
    decreases |steps|
  {
    if steps != [] {
      hide Apply, Enabled, CurrentIds;
      var s1 := Apply(s, steps[0]);
      if c in s.callers {
        CallerAfter(s, steps[0], c);
      } else if c in s1.callers {
        NewCallerArrives(s, steps[0], c);
      }
      if c in s1.callers {
        CallerOverRun(s1, steps[1..], c);
      }
      if BeforeCurrent(s1, c) {
        TookCurrent(s1, steps[1..], c);
      }
    }
  }

  /**
    In every run, whatever the others do: the event of an accepted caller goes from a snapshot that was the service's
    current one at some moment to the snapshot that the caller asks for, in the name of the user who asks.
   */
  lemma AcceptedEventIsAsAsked(steps: seq<Label>, c: Id)
    requires IsRun(INITIAL, steps) && c in After(INITIAL, steps).callers
    requires IsAccepted(After(INITIAL, steps).callers[c].pc)
    requires After(INITIAL, steps).callers[c].eventId in After(INITIAL, steps).db.events
    ensures var s := After(INITIAL, steps);
            var k, row := s.callers[c], s.db.events[s.callers[c].eventId];
            && row.serviceId == k.serviceId && row.triggeredBy == k.userId
            && row.toSnapshotId == k.targetSnapshotId && row.fromSnapshotId == k.currentSnapshotId
            && OnceCurrent(INITIAL, steps, k.serviceId, row.fromSnapshotId)
  {
    InitiallyInv();
    assert CallersAnswered(INITIAL) && BeforeCurrent(INITIAL, c);
    hide Inv, IsRun, After, OnceCurrent;
    RunKeepsAnswered(INITIAL, steps);
    TookCurrent(INITIAL, steps, c);
    assert CallerAnswered(After(INITIAL, steps).db, After(INITIAL, steps).callers[c]);
  }

  // ---------- The deployment is what was asked for ----------

  lemma WorkerHoldsKeys(s: Sys, e: Id)
    requires Inv(s) && e in s.workers && e in s.db.events && HasRead(s.workers[e].pc)
    ensures SameKeys(s.db.events[e], s.workers[e].event) && e < s.db.next
  {
    assert WorkerOk(s.db, e, s.workers[e]);
    assert e in s.db.events.Keys;
  }

  lemma KeysOverRun(s: Sys, steps: seq<Label>, e: Id)
    requires Inv(s) && IsRun(s, steps) && e < s.db.next && e in After(s, steps).db.events
    ensures e in s.db.events && SameKeys(s.db.events[e], After(s, steps).db.events[e])
  {
    hide Inv, IsRun, After;
    RunProgresses(s, steps, e);
  }

  lemma WorkKeepsKeys(s: Sys, e: Id)
    requires Inv(s) && e in s.workers && e < s.db.next
    ensures Inv(Worked(s, e)) && e < Worked(s, e).db.next
    ensures e in Worked(s, e).db.events ==>
              e in s.db.events && SameKeys(s.db.events[e], Worked(s, e).db.events[e])
  {
    hide Inv, Apply, Worked;
    WorkedIsApplied(s, e);
    StepKeepsInv(s, Work(e));
    StepProgresses(s, Work(e), e);
  }

  lemma WorkerBelow(s: Sys, e: Id)
    requires Inv(s) && e in s.workers
    ensures e < s.db.next
  {
  }

  /**
    A caller whose request was accepted, whose rollback saves the service and then finishes without a sync of the host
    in between: the snapshot that this caller asked for is deployed, in image, tag, configuration and the name of the
    container, and on record as this user's deployment.
   */
  lemma RequestedTargetIsDeployed(first: seq<Label>, e: Id, second: seq<Label>, c: Id)
    requires IsRun(INITIAL, first) && e in After(INITIAL, first).workers
    requires After(INITIAL, first).workers[e].pc == SavingService
    requires var s1 := Worked(After(INITIAL, first), e);
             s1.workers[e].pc == ServiceSaved && IsRun(s1, second) && NotSynced(s1, second, e)
    requires var s2 := After(Worked(After(INITIAL, first), e), second);
             e in s2.workers && s2.workers[e].pc == HealthLogged && e in s2.db.events
    requires c in After(INITIAL, first).callers
    requires IsAccepted(After(INITIAL, first).callers[c].pc) && After(INITIAL, first).callers[c].eventId == e
    ensures var s2 := After(Worked(After(INITIAL, first), e), second);
            var s3, k := Worked(s2, e), After(INITIAL, first).callers[c];
            && s3.workers[e].pc == DoneSucceeded && e in s3.db.events && s3.db.events[e].status == Succeeded
            && Deployed(s3.db, k.serviceId, k.targetSnapshotId, k.userId, s2.workers[e].world.listing)
  {
    hide Inv, IsRun, After, Worked, NotSynced, Deployed;
    var s0 := After(INITIAL, first);
    var s1 := Worked(s0, e);
    var s2 := After(s1, second);
    SuccessWithoutSyncLeavesTarget(first, e, second);
    InitiallyInv();
    RunKeepsInv(INITIAL, first);
    AcceptedKeys(first, c);
    WorkerBelow(s0, e);
    WorkKeepsKeys(s0, e);
    KeysOverRun(s1, second, e);
    RunKeepsInv(s1, second);
    WorkerHoldsKeys(s2, e);
  }

  lemma AcceptedKeys(steps: seq<Label>, c: Id)
    requires IsRun(INITIAL, steps) && c in After(INITIAL, steps).callers
    requires IsAccepted(After(INITIAL, steps).callers[c].pc)
    ensures var s := After(INITIAL, steps);
            var k := s.callers[c];
            k.eventId in s.db.events ==> Answers(s.db.events[k.eventId], k)
  {
    hide IsRun, After, OnceCurrent;
    if After(INITIAL, steps).callers[c].eventId in After(INITIAL, steps).db.events {
      AcceptedEventIsAsAsked(steps, c);
    }
  }
}
