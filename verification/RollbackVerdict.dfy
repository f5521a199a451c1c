/** What a job that nobody interferes with leaves behind, said of its inputs and the rows it started from. */
module RollbackVerdict {
  import opened Wrappers
  import opened ImageReference
  import opened Tables
  import opened DeploymentSnapshots
  import opened Rollback
  import opened RollbackJob
  import opened RollbackAlone
  import DockerPs

  // ---------- Why a job fails ----------

  /** By the first entry with this name, or for want of one, a container that is not running has this status. */
  ghost predicate IsDownAs(containers: seq<DockerPs.Container>, name: string, status: ServiceStatus) {
    || (status == Unknown && forall j :: 0 <= j < |containers| ==> containers[j].names != name)
    || (exists k :: FirstNamed(containers, k, name) && !ReadsAsRunning(containers[k].status)
                    && ClassifyContainerStatus(containers[k].status) == status)
  }

  lemma DownIff(w: Worker, status: ServiceStatus)
    requires w.world.listing.Some?
    ensures IsDownAs(w.world.listing.value, w.target.config.containerName, status)
       <==> (NewStatus(w) != Running || Recreated(w).None?) && NewStatus(w) == status
  {
    PickedIs(w);
    if Recreated(w).Some? {
      ClassificationIs(Recreated(w).value.status);
      FindsFirstNamed(w.world.listing.value, w.target.config.containerName);
    }
    hide FindRecreated, ClassifyContainerStatus, ReadsAsRunning, TargetRuns;
  }

  lemma ExecutionFailsIff(db: Db, e: Id, w: Worker, status: ServiceStatus)
    requires w.world.ssh.Some?
    ensures var pc := Executed(db, e, w).1;
            && (pc == DoneFailed(RunFailed) <==> w.world.ssh.value.run.exitCode != Some(0))
            && (pc == DoneFailed(NotRunning(status)) <==>
                  && w.world.ssh.value.run.exitCode == Some(0) && w.world.listing.Some?
                  && (NewStatus(w) != Running || Recreated(w).None?) && NewStatus(w) == status)
            && pc != DoneFailed(KeyUnreadable) && pc != DoneFailed(SshFailed)
  {
    var judged := WithEntries(WithEntries(w.event, CommandEntries(w.world.ssh.value)),
                              [PostRollbackHealthCheck(Recreated(w).Some?, NewStatus(w))]);
    if Recreated(w).Some? {
      FinishedNeverFails(PutEvent(db, e, judged), e, w.(event := judged));
    }
    hide Finished, PutEvent, CommandEntries, Recreated, NewStatus;
  }

  /** Each failure has exactly one cause. */
  lemma FailureReasonIff(db: Db, e: Id, world: World, status: ServiceStatus)
    requires CanStart(db, e)
    ensures var pc := JobEffect(db, e, world).1;
            var name := db.snapshots[db.events[e].toSnapshotId].config.containerName;
            && (pc == DoneFailed(KeyUnreadable) <==> !world.keyReadable)
            && (pc == DoneFailed(SshFailed) <==> world.keyReadable && world.configReadable && world.ssh.None?)
            && (pc == DoneFailed(RunFailed) <==>
                  && world.keyReadable && world.configReadable && world.ssh.Some?
                  && world.ssh.value.run.exitCode != Some(0))
            && (pc == DoneFailed(NotRunning(status)) <==>
                  GetsListing(world) && IsDownAs(world.listing.value, name, status))
  {
    var w := LoadedWorker(db, e, world);
    if world.ssh.Some? {
      ExecutionFailsIff(db, e, w, status);
    }
    if world.listing.Some? {
      DownIff(w, status);
    }
    hide Executed, IsDownAs, CanSaveEvent, Recreated, NewStatus;
  }

  /** In particular: a listing without the target's name fails the job, with a container of unknown status. */
  lemma MissingContainerFails(db: Db, e: Id, world: World)
    requires CanStart(db, e) && GetsListing(world)
    requires var name := db.snapshots[db.events[e].toSnapshotId].config.containerName;
             forall j :: 0 <= j < |world.listing.value| ==> world.listing.value[j].names != name
    ensures JobEffect(db, e, world).1 == DoneFailed(NotRunning(Unknown))
  {
    FailureReasonIff(db, e, world, Unknown);
    hide JobEffect, CanStart;
  }

  // ---------- What a failed job records ----------

  /** The four results under their own steps, in the order of the session. */
  function Results(ssh: SshResults): seq<LogEntry> {
    [Command(StopContainer, ssh.stop), Command(RemoveContainer, ssh.remove), Command(StartContainer, ssh.run),
     Command(ListContainers, ssh.list)]
  }

  /** What stands in the log of a failed job before its failure entry. */
  ghost predicate RecordedBefore(world: World, name: string, reason: FailReason, entries: seq<LogEntry>) {
    match reason
    case RunFailed => world.ssh.Some? && entries == Results(world.ssh.value)
    case NotRunning(status) =>
      && world.ssh.Some? && world.listing.Some?
      && exists found: bool ::
           && entries == Results(world.ssh.value) + [PostRollbackHealthCheck(found, status)]
           && (found <==> exists k :: FirstNamed(world.listing.value, k, name))
    case _ => entries == []
  }

  /** The event's row is the one it was, with what was recorded, failed and completed. */
  ghost predicate FailsWithLog(row: Event, row': Event, world: World, name: string, reason: FailReason) {
    exists entries: seq<LogEntry> ::
      && RecordedBefore(world, name, reason, entries)
      && row' == row.(status := Failed, completedAt := Some(world.completedAt),
                      log := row.log + entries + [Failure(reason)])
  }

  lemma ResultsAre(ssh: SshResults)
    ensures CommandEntries(ssh) == Results(ssh)
  {
  }

  lemma FailedRow(db: Db, e: Id, row: Event, started: Event, entries: seq<LogEntry>, reason: FailReason, world: World,
                  name: string)
    requires e in db.events && started == Starting(row) && RecordedBefore(world, name, reason, entries)
    ensures FailsWithLog(row, FailedWith(db, e, WithEntries(started, entries), reason, world).0.events[e], world, name,
                         reason)
  {
    hide RecordedBefore;
  }

  lemma FoundIff(w: Worker)
    requires w.world.listing.Some?
    ensures Recreated(w).Some? <==> exists k :: FirstNamed(w.world.listing.value, k, w.target.config.containerName)
  {
    FindsFirstNamed(w.world.listing.value, w.target.config.containerName);
  }

  lemma FailedExecutionLog(db: Db, e: Id, w: Worker, row: Event)
    requires w.world.ssh.Some? && e in db.events && w.event == Starting(row)
    requires Executed(db, e, w).1.DoneFailed?
    ensures e in Executed(db, e, w).0.events
    ensures FailsWithLog(row, Executed(db, e, w).0.events[e], w.world, w.target.config.containerName,
                         Executed(db, e, w).1.reason)
  {
    var name, ssh := w.target.config.containerName, w.world.ssh.value;
    ResultsAre(ssh);
    var logged := WithEntries(w.event, Results(ssh));
    var check := PostRollbackHealthCheck(Recreated(w).Some?, NewStatus(w));
    var judged := WithEntries(logged, [check]);
    if ssh.run.exitCode != Some(0) {
      FailedRow(db, e, row, w.event, Results(ssh), RunFailed, w.world, name);
    } else if w.world.listing.Some? {
      assert judged == WithEntries(w.event, Results(ssh) + [check]);
      FoundIff(w);
      if Recreated(w).Some? {
        FinishedNeverFails(PutEvent(db, e, judged), e, w.(event := judged));
      }
      FailedRow(db, e, row, w.event, Results(ssh) + [check], NotRunning(NewStatus(w)), w.world, name);
    }
    hide Finished, FailsWithLog, FailedWith, CommandEntries, Results, Recreated, NewStatus, RecordedBefore;
  }

  /** A failed job's row: everything it was, and what each command gave, in order, before the one failure entry. */
  lemma FailedJobLog(db: Db, e: Id, world: World)
    requires CanStart(db, e) && JobEffect(db, e, world).1.DoneFailed?
    ensures var (db', pc) := JobEffect(db, e, world);
            && e in db'.events
            && FailsWithLog(db.events[e], db'.events[e], world,
                            db.snapshots[db.events[e].toSnapshotId].config.containerName, pc.reason)
  {
    var w := LoadedWorker(db, e, world);
    var row, name := db.events[e], w.target.config.containerName;
    assert WithEntries(w.event, []) == w.event;
    if !world.keyReadable {
      FailedRow(db, e, row, w.event, [], KeyUnreadable, world, name);
    } else if world.ssh.None? {
      FailedRow(db, e, row, w.event, [], SshFailed, world, name);
    } else {
      FailedExecutionLog(db, e, w, row);
    }
    hide Executed, FailsWithLog, FailedWith, CanSaveEvent, RecordedBefore;
  }

  // ---------- What a successful job leaves ----------

  /** The service row is what it was but for the container, image and tag, the status and the check time. */
  ghost predicate MovedTo(row: Service, row': Service, target: Snapshot, containerId: string, world: World) {
    && row' == row.(containerId := containerId, image := row'.image, currentTag := row'.currentTag, status := Running,
                    lastCheckedAt := world.checkedAt)
    && SplitImageAndTag(target.imageTag) == Reference(row'.image, row'.currentTag)
  }

  /** One snapshot is added, current and like the target; the service's others are current no longer. */
  ghost predicate AddsSnapshot(db: Db, after: Db, serviceId: Id, target: Snapshot, userId: Id, world: World) {
    && db.next !in db.snapshots && after.next == db.next + 1
    && after.snapshots.Keys == db.snapshots.Keys + {db.next}
    && after.snapshots[db.next]
       == Snapshot(serviceId, target.imageTag, target.config, world.deployedAt, Some(userId), true)
    && forall i :: i in db.snapshots ==>
         after.snapshots[i]
         == if db.snapshots[i].serviceId == serviceId then db.snapshots[i].(isCurrent := false) else db.snapshots[i]
  }

  /** Every table after a successful job. */
  ghost predicate SucceedsWith(db: Db, after: Db, e: Id, world: World, containerId: string)
    requires CanStart(db, e) && world.ssh.Some?
  {
    var row := db.events[e];
    var sid, target := row.serviceId, db.snapshots[row.toSnapshotId];
    && after.hosts == db.hosts && after.alerts == db.alerts
    && sid in after.services && after.services == db.services[sid := after.services[sid]]
    && MovedTo(db.services[sid], after.services[sid], target, containerId, world)
    && AddsSnapshot(db, after, sid, target, row.triggeredBy, world)
    && after.events == db.events[e := row.(status := Succeeded, completedAt := Some(world.completedAt),
                                           log := row.log + Results(world.ssh.value)
                                                  + [PostRollbackHealthCheck(true, Running)])]
    && after.healthLogs == db.healthLogs + multiset{HealthLog(sid, Running, RolledBack(e))}
  }

  lemma FinishedIs(db: Db, e: Id, w: Worker)
    requires Recreated(w).Some? && NewStatus(w) == Running && Finished(db, e, w).1 == DoneSucceeded
    requires w.event.serviceId in db.services
    ensures var after := Finished(db, e, w).0;
            var sid := w.event.serviceId;
            && after.hosts == db.hosts && after.alerts == db.alerts
            && sid in after.services && after.services == db.services[sid := after.services[sid]]
            && MovedTo(w.service, after.services[sid], w.target, Recreated(w).value.id, w.world)
            && after.next == db.next + 1
            && after.snapshots == Commit(db, CurrentIds(db, sid), RolledBackSnapshot(w)).snapshots
            && after.events == db.events[e := w.event.(status := Succeeded, completedAt := Some(w.world.completedAt))]
            && after.healthLogs == db.healthLogs + multiset{HealthLog(sid, Running, RolledBack(e))}
  {
    assert CurrentIds(PutService(db, w.event.serviceId, RolledBackService(w)), w.event.serviceId)
        == CurrentIds(db, w.event.serviceId);
    hide CanSaveService, Recreated, NewStatus, RolledBackSnapshot, CurrentIds;
  }

  lemma CommitAdds(db: Db, after: Db, serviceId: Id, target: Snapshot, userId: Id, world: World)
    requires db.next !in db.snapshots && after.next == db.next + 1
    requires var row := Snapshot(serviceId, target.imageTag, target.config, world.deployedAt, Some(userId), true);
             after.snapshots == Commit(db, CurrentIds(db, serviceId), row).snapshots
    ensures AddsSnapshot(db, after, serviceId, target, userId, world)
  {
    forall i | i in db.snapshots
      ensures after.snapshots[i]
           == if db.snapshots[i].serviceId == serviceId then db.snapshots[i].(isCurrent := false) else db.snapshots[i]
    {
    }
  }

  lemma SuccessfulExecution(db: Db, e: Id, w: Worker)
    requires w.world.ssh.Some? && Executed(db, e, w).1 == DoneSucceeded
    ensures Recreated(w).Some? && NewStatus(w) == Running
    ensures var judged := WithEntries(w.event,
                                      Results(w.world.ssh.value) + [PostRollbackHealthCheck(true, Running)]);
            Executed(db, e, w) == Finished(PutEvent(db, e, judged), e, w.(event := judged))
  {
    ResultsAre(w.world.ssh.value);
    assert w.event.log + Results(w.world.ssh.value) + [PostRollbackHealthCheck(true, Running)]
        == w.event.log + (Results(w.world.ssh.value) + [PostRollbackHealthCheck(true, Running)]);
    hide Finished, Recreated, NewStatus, Results, CommandEntries;
  }

  lemma AddedFromTheSame(db: Db, mid: Db, after: Db, serviceId: Id, target: Snapshot, userId: Id, world: World)
    requires AddsSnapshot(mid, after, serviceId, target, userId, world)
    requires mid.snapshots == db.snapshots && mid.next == db.next
    ensures AddsSnapshot(db, after, serviceId, target, userId, world)
  {
  }

  lemma SucceededFrom(db: Db, mid: Db, after: Db, e: Id, w: Worker, judged: Event)
    requires CanStart(db, e) && w == LoadedWorker(db, e, w.world) && w.world.ssh.Some?
    requires db.next !in db.snapshots && Recreated(w).Some? && NewStatus(w) == Running
    requires judged == WithEntries(w.event, Results(w.world.ssh.value) + [PostRollbackHealthCheck(true, Running)])
    requires mid == PutEvent(db, e, judged) && (after, DoneSucceeded) == Finished(mid, e, w.(event := judged))
    ensures SucceedsWith(db, after, e, w.world, Recreated(w).value.id)
  {
    var row, w' := db.events[e], w.(event := judged);
    assert Recreated(w') == Recreated(w) && NewStatus(w') == NewStatus(w);
    FinishedIs(mid, e, w');
    CommitAdds(mid, after, row.serviceId, w.target, row.triggeredBy, w.world);
    AddedFromTheSame(db, mid, after, row.serviceId, w.target, row.triggeredBy, w.world);
    assert w.event.log + Results(w.world.ssh.value) + [PostRollbackHealthCheck(true, Running)]
        == w.event.log + (Results(w.world.ssh.value) + [PostRollbackHealthCheck(true, Running)]);
    var final := judged.(status := Succeeded, completedAt := Some(w.world.completedAt));
    assert db.events[e := judged][e := final] == db.events[e := final];
    hide CanSaveEvent, Finished, Recreated, NewStatus, Results, AddsSnapshot, MovedTo, Commit, CurrentIds;
  }

  /**
    A job that succeeds leaves exactly this, whatever the outside gave it: the service on the first listed container
    with the target's name, the target's image and configuration as the one current snapshot, the event completed with
    all five steps, and one health log row.
   */
  lemma SuccessfulJobEffect(db: Db, e: Id, world: World)
    requires TablesOk(db) && CanStart(db, e) && JobEffect(db, e, world).1 == DoneSucceeded
    ensures world.ssh.Some? && world.listing.Some?
    ensures var name := db.snapshots[db.events[e].toSnapshotId].config.containerName;
            exists k :: FirstNamed(world.listing.value, k, name) && ReadsAsRunning(world.listing.value[k].status)
                        && SucceedsWith(db, JobEffect(db, e, world).0, e, world, world.listing.value[k].id)
  {
    var w := LoadedWorker(db, e, world);
    var judged := WithEntries(w.event, Results(world.ssh.value) + [PostRollbackHealthCheck(true, Running)]);
    assert db.next !in db.snapshots.Keys;
    hide TablesOk, Executed, Finished, Recreated, NewStatus, Results, SucceedsWith, CanSaveEvent;
    SuccessfulExecution(db, e, w);
    PickedRuns(w);
    SucceededFrom(db, PutEvent(db, e, judged), JobEffect(db, e, world).0, e, w, judged);
  }

  lemma PickedRuns(w: Worker)
    requires Recreated(w).Some? && NewStatus(w) == Running
    ensures w.world.listing.Some?
    ensures exists k :: FirstNamed(w.world.listing.value, k, w.target.config.containerName)
                        && ReadsAsRunning(w.world.listing.value[k].status)
                        && w.world.listing.value[k].id == Recreated(w).value.id
  {
    PickedIs(w);
    hide FirstNamed, ReadsAsRunning, NewStatus;
  }
}
