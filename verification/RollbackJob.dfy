/**
  The rollback worker as the method that a job runs, against a direct description of what a whole job does, and
  the worker's single steps taken alone against the same description.
 */
module RollbackJob {
  import opened Wrappers
  import opened Text
  import opened ShellCommand
  import opened ImageReference
  import opened Tables
  import opened Repositories
  import opened DeploymentSnapshots
  import opened Rollback

  // ---------- What a whole job does ----------

  function Starting(row: Event): Event {
    row.(status := InProgress)
  }

  /** The job can start: its event is there, and starting it does not make a second active one. */
  predicate CanStart(db: Db, e: Id) {
    e in db.events && CanSaveEvent(db, e, Starting(db.events[e]))
  }

  /** The worker's variables once the service, the host and the target are loaded. */
  function LoadedWorker(db: Db, e: Id, world: World): Worker
    requires CanStart(db, e)
  {
    var row := Starting(db.events[e]);
    Worker(TargetRead, row, db.services[row.serviceId], db.snapshots[row.toSnapshotId], {}, 0, world, false)
  }

  function CommandEntries(ssh: SshResults): seq<LogEntry> {
    [CommandEntry(ssh, 0), CommandEntry(ssh, 1), CommandEntry(ssh, 2), CommandEntry(ssh, 3)]
  }

  function WithEntries(row: Event, entries: seq<LogEntry>): Event {
    row.(log := row.log + entries)
  }

  /** A failure: the entry, the final status and the alert; services and snapshots stay. */
  function FailedWith(db: Db, e: Id, row: Event, reason: FailReason, world: World): (Db, Pc) {
    var final := WithEntries(row, [Failure(reason)]).(status := Failed, completedAt := Some(world.completedAt));
    (PutEvent(db, e, final).(alerts := db.alerts + multiset{RollbackFailed(e)}), DoneFailed(reason))
  }

  /**
    From the verdict of the health check on: the service row, the new snapshot, the health log and the final status.
   */
  function Finished(db: Db, e: Id, w: Worker): (Db, Pc)
    requires Recreated(w).Some?
  {
    var sid := w.event.serviceId;
    if !CanSaveService(db, sid, RolledBackService(w)) then (db, Crashed)
    else
      var db1 := PutService(db, sid, RolledBackService(w));
      if !w.world.configReadableAgain then (db1, Crashed)
      else
        var db2 := Taken(db1, RolledBackSnapshot(w));
        if !w.world.healthLogWorks then (db2, Crashed)
        else
          var final := w.event.(status := Succeeded, completedAt := Some(w.world.completedAt));
          var log := HealthLog(sid, NewStatus(w), RolledBack(e));
          (PutEvent(db2.(healthLogs := db2.healthLogs + multiset{log}), e, final), DoneSucceeded)
  }

  /** From the end of the SSH session on. */
  function Executed(db: Db, e: Id, w: Worker): (Db, Pc)
    requires w.world.ssh.Some?
  {
    var logged := WithEntries(w.event, CommandEntries(w.world.ssh.value));
    if w.world.ssh.value.run.exitCode != Some(0) then FailedWith(db, e, logged, RunFailed, w.world)
    else if w.world.listing.None? then (PutEvent(db, e, logged), Crashed)
    else
      var judged := WithEntries(logged, [PostRollbackHealthCheck(Recreated(w).Some?, NewStatus(w))]);
      if NewStatus(w) != Running || Recreated(w).None? then FailedWith(db, e, judged, NotRunning(NewStatus(w)), w.world)
      else Finished(PutEvent(db, e, judged), e, w.(event := judged))
  }

  /** What a job does to the tables when nobody interferes, and how it ends. */
  function JobEffect(db: Db, e: Id, world: World): (Db, Pc) {
    if e !in db.events then (db, Skipped)
    else if !CanStart(db, e) then (db, Crashed)
    else
      var w := LoadedWorker(db, e, world);
      if !world.keyReadable then FailedWith(db, e, w.event, KeyUnreadable, world)
      else if !world.configReadable then (PutEvent(db, e, w.event), Crashed)
      else if world.ssh.None? then FailedWith(db, e, w.event, SshFailed, world)
      else Executed(db, e, w)
  }

  const LIST_FORMAT := "{{json .}}"
  const LIST_CONTAINERS := "docker ps -a --format" + " " + ("'" + LIST_FORMAT + "'")

  /** The commands of the SSH session. */
  function CommandsFor(service: Service, target: Snapshot): seq<string> {
    ["docker stop " + service.containerId, "docker rm " + service.containerId,
     CommandText(target.config, target.imageTag), LIST_CONTAINERS]
  }

  /** The session is opened exactly when the job starts and both the key and the configuration can be read. */
  function CommandsSent(db: Db, e: Id, world: World): seq<string> {
    if CanStart(db, e) && world.keyReadable && world.configReadable
    then CommandsFor(LoadedWorker(db, e, world).service, LoadedWorker(db, e, world).target) else []
  }

  /**
    What the session runs as its third command asks docker for exactly the target's configuration and image, unless
    that image would be taken for an option.
   */
  lemma SentCommandRecreatesTarget(db: Db, e: Id, world: World)
    requires CommandsSent(db, e, world) != []
    ensures e in db.events && db.events[e].toSnapshotId in db.snapshots && |CommandsSent(db, e, world)| == 4
    ensures var target := db.snapshots[db.events[e].toSnapshotId];
            var words := Split(CommandsSent(db, e, world)[2]);
            words.Some?
            && (ReadDockerRun(words.value) == Some(Invocation(target.config, target.imageTag, [])) <==>
                !LooksLikeOption(target.imageTag))
  {
    var target := db.snapshots[db.events[e].toSnapshotId];
    CommandSplits(target.config, target.imageTag);
    DockerReadsBack(target.config, target.imageTag);
    hide Split, ReadDockerRun, Argv, CommandText, CanSaveEvent;
  }

  lemma DockerIsPlain()
    ensures IsPlain("docker")
  {
  }

  lemma StopIsPlain()
    ensures IsPlain("stop")
  {
  }

  lemma RemoveIsPlain()
    ensures IsPlain("rm")
  {
  }

  lemma StopReadsIff(id: string)
    ensures Split("docker stop " + id) == Some(["docker", "stop", id]) <==> id != [] && IsPlain(id)
  {
    hide Split, IsPlain;
    DockerIsPlain();
    StopIsPlain();
    ThirdWordReadsIff("docker", "stop", id);
    assert "docker" + " " + "stop" + " " == "docker stop ";
  }

  lemma RemoveReadsIff(id: string)
    ensures Split("docker rm " + id) == Some(["docker", "rm", id]) <==> id != [] && IsPlain(id)
  {
    hide Split, IsPlain;
    DockerIsPlain();
    RemoveIsPlain();
    ThirdWordReadsIff("docker", "rm", id);
    assert "docker" + " " + "rm" + " " == "docker rm ";
  }

  /**
    The first two commands take the container's id as it is: the shell splits each into docker, its subcommand and that
    id exactly when the id is not empty and holds nothing but plain characters.
   */
  lemma SentCommandsNameContainer(db: Db, e: Id, world: World)
    requires CommandsSent(db, e, world) != []
    ensures e in db.events && db.events[e].serviceId in db.services && |CommandsSent(db, e, world)| == 4
    ensures var id := db.services[db.events[e].serviceId].containerId;
            && (Split(CommandsSent(db, e, world)[0]) == Some(["docker", "stop", id]) <==> id != [] && IsPlain(id))
            && (Split(CommandsSent(db, e, world)[1]) == Some(["docker", "rm", id]) <==> id != [] && IsPlain(id))
  {
    var id := db.services[db.events[e].serviceId].containerId;
    StopReadsIff(id);
    RemoveReadsIff(id);
    hide Split, IsPlain, CanSaveEvent, CommandText;
  }

  lemma PsIsPlain()
    ensures IsPlain("ps") && IsPlain("-a")
  {
  }

  lemma FormatIsPlain()
    ensures IsPlain("--format")
  {
  }

  /** The last command lists every container, running or not, as one JSON object a line. */
  lemma SentCommandListsAll(db: Db, e: Id, world: World)
    requires CommandsSent(db, e, world) != []
    ensures |CommandsSent(db, e, world)| == 4
    ensures Split(CommandsSent(db, e, world)[3]) == Some(["docker", "ps", "-a", "--format", "{{json .}}"])
  {
    ListCommandReads();
    hide Split, CanSaveEvent, CommandText;
  }

  lemma ListCommandReads()
    ensures Split(LIST_CONTAINERS) == Some(["docker", "ps", "-a", "--format", LIST_FORMAT])
  {
    hide IsPlain, Denotes, Split, ShellEscape, LIST_CONTAINERS, LIST_FORMAT, Join;
    DockerIsPlain();
    PsIsPlain();
    FormatIsPlain();
    PlainReads("docker");
    PlainReads("ps");
    PlainReads("-a");
    PlainReads("--format");
    EscapedReads(LIST_FORMAT);
    JoinedReads(["docker", "ps", "-a", "--format", ShellEscape(LIST_FORMAT)],
                ["docker", "ps", "-a", "--format", LIST_FORMAT]);
    ListTextIs();
  }

  lemma {:induction false} JoinLast(words: seq<string>, last: string)
    requires words != []
    ensures Join(words + [last], " ") == Join(words, " ") + " " + last
  {
    if |words| > 1 {
      JoinLast(words[1..], last);
      assert (words + [last])[1..] == words[1..] + [last];
    } else {
      assert (words + [last])[1..] == [last];
    }
  }

  lemma JoinFour(a: string, b: string, c: string, d: string)
    ensures Join([a, b, c, d], " ") == a + " " + (b + " " + (c + " " + d))
  {
    assert [a, b, c, d][1..] == [b, c, d] && [b, c, d][1..] == [c, d] && [c, d][1..] == [d];
    assert Join([c, d], " ") == c + " " + d;
  }

  lemma ListHeadIs()
    ensures "docker" + " " + ("ps" + " " + ("-a" + " " + "--format")) == "docker ps -a --format"
  {
    assert "-a" + " " + "--format" == "-a --format";
    assert "ps" + " " + "-a --format" == "ps -a --format";
  }

  lemma FormatHasNoQuote()
    ensures '\'' !in LIST_FORMAT
  {
  }

  lemma ListTextIs()
    ensures Join(["docker", "ps", "-a", "--format", ShellEscape(LIST_FORMAT)], " ") == LIST_CONTAINERS
  {
    FormatHasNoQuote();
    hide Join, LIST_FORMAT;
    NothingToEscape(LIST_FORMAT);
    var head := ["docker", "ps", "-a", "--format"];
    JoinLast(head, ShellEscape(LIST_FORMAT));
    assert head + [ShellEscape(LIST_FORMAT)] == ["docker", "ps", "-a", "--format", ShellEscape(LIST_FORMAT)];
    JoinFour("docker", "ps", "-a", "--format");
    ListHeadIs();
  }

  // ---------- The event's own place in the table ----------

  /** Whatever is saved for the event with these keys is accepted, and keeps the tables consistent. */
  ghost predicate Holds(db: Db, e: Id, row: Event) {
    && TablesOk(db) && e < db.next
    && row.serviceId in db.services
    && SnapshotOf(db.snapshots, row.fromSnapshotId, row.serviceId)
    && SnapshotOf(db.snapshots, row.toSnapshotId, row.serviceId)
    && NoOtherActive(db.events, e, row.serviceId)
  }

  predicate NoOtherActive(events: map<Id, Event>, e: Id, serviceId: Id) {
    forall i :: i in events && i != e ==> !(events[i].serviceId == serviceId && Active(events[i].status))
  }

  predicate SameReferences(a: Event, b: Event) {
    a.serviceId == b.serviceId && a.fromSnapshotId == b.fromSnapshotId && a.toSnapshotId == b.toSnapshotId
  }

  lemma HeldSavesWork(db: Db, e: Id, row: Event, saved: Event)
    requires Holds(db, e, row) && SameReferences(saved, row)
    ensures CanSaveEvent(db, e, saved) && Holds(PutEvent(db, e, saved), e, saved)
  {
    SaveEventKeepsTables(db, e, saved);
    hide TablesOk;
  }

  lemma PutTwice(db: Db, e: Id, first: Event, second: Event)
    ensures PutEvent(PutEvent(db, e, first), e, second) == PutEvent(db, e, second)
  {
    assert db.events[e := first][e := second] == db.events[e := second];
  }

  lemma StartedHolds(db: Db, e: Id)
    requires TablesOk(db) && CanStart(db, e)
    ensures Holds(db, e, Starting(db.events[e]))
    ensures db.services[db.events[e].serviceId].hostId in db.hosts
  {
    assert EventReferences(db.services, db.snapshots, db.events[e]);
    assert e in db.events.Keys;
  }

  /** A service row saved by the job keeps the event's place. */
  lemma SavedServiceHolds(db: Db, e: Id, row: Event, service: Service)
    requires Holds(db, e, row) && CanSaveService(db, row.serviceId, service)
    ensures Holds(PutService(db, row.serviceId, service), e, row)
  {
    SaveServiceKeepsTables(db, row.serviceId, service);
    hide TablesOk, CanSaveService;
  }

  lemma TakenKeepsReference(db: Db, id: Id, serviceId: Id, snapshot: Snapshot)
    requires FreshIds(db) && SnapshotOf(db.snapshots, id, serviceId)
    ensures SnapshotOf(Taken(db, snapshot).snapshots, id, serviceId)
  {
    assert db.next !in db.snapshots.Keys;
  }

  lemma TakenLeavesTheRest(db: Db, snapshot: Snapshot)
    ensures var db' := Taken(db, snapshot);
            db'.services == db.services && db'.events == db.events && db.next <= db'.next
  {
    hide CurrentIds;
  }

  lemma TakenHolds(db: Db, e: Id, row: Event, snapshot: Snapshot)
    requires Holds(db, e, row) && snapshot.isCurrent
    ensures Holds(Taken(db, snapshot), e, row)
  {
    assert FreshIds(db);
    hide TablesOk, FreshIds, Taken, SnapshotOf, NoOtherActive;
    TakenKeepsTables(db, snapshot);
    TakenLeavesTheRest(db, snapshot);
    TakenKeepsReference(db, row.fromSnapshotId, row.serviceId, snapshot);
    TakenKeepsReference(db, row.toSnapshotId, row.serviceId, snapshot);
  }

  lemma NotedHolds(db: Db, e: Id, row: Event, logs: multiset<HealthLog>)
    requires Holds(db, e, row)
    ensures Holds(db.(healthLogs := logs), e, row)
  {
  }

  // ---------- The job as a method ----------

  class RollbackProcessor {
    const db: Database
    const snapshots: DeploymentSnapshotsService

    constructor (db: Database)
      ensures this.db == db && snapshots.db == db
    {
      this.db := db;
      snapshots := new DeploymentSnapshotsService(db);
    }

    /** Saves the event, which cannot fail while its place is held. */
    method Save(e: Id, held: Event, row: Event)
      requires Holds(db.State(), e, held) && SameReferences(row, held)
      modifies db
      ensures Holds(db.State(), e, row) && db.State() == PutEvent(old(db.State()), e, row)
    {
      HeldSavesWork(db.State(), e, held, row);
      hide Holds, CanSaveEvent;
      var _ := db.SaveEvent(e, row);
    }

    /** Appends one entry and saves the event. */
    method AppendLog(e: Id, event: Event, entry: LogEntry) returns (logged: Event)
      requires Holds(db.State(), e, event)
      modifies db
      ensures logged == WithEntries(event, [entry]) && Holds(db.State(), e, logged)
      ensures db.State() == PutEvent(old(db.State()), e, logged)
    {
      hide Holds;
      logged := event.(log := event.log + [entry]);
      Save(e, event, logged);
    }

    /** Records the failure and hands it to alert evaluation; the organisation is known, since the service was found. */
    method Fail(e: Id, event: Event, reason: FailReason, world: World) returns (outcome: Pc)
      requires Holds(db.State(), e, event)
      modifies db
      ensures (db.State(), outcome) == FailedWith(old(db.State()), e, event, reason, world)
    {
      hide Holds;
      var logged := AppendLog(e, event, Failure(reason));
      var final := logged.(status := Failed);
      final := final.(completedAt := Some(world.completedAt));
      PutTwice(old(db.State()), e, logged, final);
      Save(e, logged, final);
      db.alerts := db.alerts + multiset{RollbackFailed(e)};
      return DoneFailed(reason);
    }

    /** Moves the service to the recreated container, takes the snapshot and closes the event. */
    method Succeed(e: Id, w: Worker) returns (outcome: Pc)
      requires Holds(db.State(), e, w.event) && Recreated(w).Some? && NewStatus(w) == Running && snapshots.db == db
      modifies db
      ensures (db.State(), outcome) == Finished(old(db.State()), e, w)
    {
      var reference := SplitImageAndTag(w.target.imageTag);
      var sid := w.event.serviceId;
      var service := w.service.(containerId := Recreated(w).value.id);
      service := service.(image := reference.image);
      service := service.(currentTag := reference.tag);
      service := service.(status := Running);
      service := service.(lastCheckedAt := w.world.checkedAt);
      hide CanSaveService, TablesOk, Taken;
      var saved := db.SaveService(sid, service);
      if !saved {
        return Crashed;
      }
      SavedServiceHolds(old(db.State()), e, w.event, service);
      if !w.world.configReadableAgain {
        return Crashed;
      }
      var snapshot := Snapshot(sid, w.target.imageTag, w.target.config, w.world.deployedAt, Some(w.event.triggeredBy),
                               true);
      TakenHolds(db.State(), e, w.event, snapshot);
      var _ := snapshots.CreateSnapshot(snapshot);
      if !w.world.healthLogWorks {
        return Crashed;
      }
      NotedHolds(db.State(), e, w.event, db.healthLogs + multiset{HealthLog(sid, Running, RolledBack(e))});
      db.healthLogs := db.healthLogs + multiset{HealthLog(sid, Running, RolledBack(e))};
      var final := w.event.(status := Succeeded);
      final := final.(completedAt := Some(w.world.completedAt));
      hide Holds;
      Save(e, w.event, final);
      return DoneSucceeded;
    }

    /** Logs the four commands, judges the run and the health check, and ends the job. */
    method Execute(e: Id, w: Worker) returns (outcome: Pc)
      requires Holds(db.State(), e, w.event) && w.world.ssh.Some? && snapshots.db == db
      modifies db
      ensures (db.State(), outcome) == Executed(old(db.State()), e, w)
    {
      hide Holds, Finished, FailedWith;
      var ssh := w.world.ssh.value;
      var logged := LogCommands(e, w.event, ssh);
      ghost var before := old(db.State());
      if ssh.run.exitCode != Some(0) {
        FailedAfterSave(before, e, logged, logged, RunFailed, w.world);
        outcome := Fail(e, logged, RunFailed, w.world);
        return;
      }
      if w.world.listing.None? {
        return Crashed;
      }
      var recreated := Recreated(w);
      var newStatus := if recreated.Some? then ClassifyContainerStatus(recreated.value.status) else Unknown;
      var judged := AppendLog(e, logged, PostRollbackHealthCheck(recreated.Some?, newStatus));
      PutTwice(before, e, logged, judged);
      if newStatus != Running || recreated.None? {
        FailedAfterSave(before, e, judged, judged, NotRunning(newStatus), w.world);
        outcome := Fail(e, judged, NotRunning(newStatus), w.world);
        return;
      }
      outcome := Succeed(e, w.(event := judged));
    }

    method LogCommands(e: Id, event: Event, ssh: SshResults) returns (logged: Event)
      requires Holds(db.State(), e, event)
      modifies db
      ensures logged == WithEntries(event, CommandEntries(ssh)) && Holds(db.State(), e, logged)
      ensures db.State() == PutEvent(old(db.State()), e, logged)
    {
      hide Holds;
      ghost var before := db.State();
      var stopped := AppendLog(e, event, Command(StopContainer, ssh.stop));
      var removed := AppendLog(e, stopped, Command(RemoveContainer, ssh.remove));
      PutTwice(before, e, stopped, removed);
      var run := AppendLog(e, removed, Command(StartContainer, ssh.run));
      PutTwice(before, e, removed, run);
      logged := AppendLog(e, run, Command(ListContainers, ssh.list));
      PutTwice(before, e, run, logged);
      EntriesInOrder(event, ssh);
    }

    /**
      Runs the job of an event. Throwing is the outcome Crashed. A job that nobody interferes with always finds the
      service, the host and the target, so those checks are left to the step form.
     */
    method Process(e: Id, world: World) returns (outcome: Pc, sent: seq<string>)
      requires db.Valid() && snapshots.db == db
      modifies db
      ensures (db.State(), outcome) == JobEffect(old(db.State()), e, world)
      ensures sent == CommandsSent(old(db.State()), e, world)
    {
      sent := [];
      if e !in db.events {
        return Skipped, sent;
      }
      var event := db.events[e];
      event := event.(status := InProgress);
      ghost var before := db.State();
      if CanStart(before, e) {
        StartedHolds(before, e);
        HeldSavesWork(before, e, event, event);
      }
      hide TablesOk, CanSaveEvent, Holds, Executed, FailedWith;
      var saved := db.SaveEvent(e, event);
      if !saved {
        return Crashed, sent;
      }
      var service := db.services[event.serviceId];
      var target := db.snapshots[event.toSnapshotId];
      if !world.keyReadable {
        FailedAfterSave(before, e, event, event, KeyUnreadable, world);
        outcome := Fail(e, event, KeyUnreadable, world);
        return;
      }
      if !world.configReadable {
        return Crashed, sent;
      }
      var run := BuildDockerRunCommand(target.config, target.imageTag);
      sent := ["docker stop " + service.containerId, "docker rm " + service.containerId, run, LIST_CONTAINERS];
      if world.ssh.None? {
        FailedAfterSave(before, e, event, event, SshFailed, world);
        outcome := Fail(e, event, SshFailed, world);
        return;
      }
      var w := Worker(TargetRead, event, service, target, {}, 0, world, false);
      ExecutedAfterSave(before, e, w);
      outcome := Execute(e, w);
    }
  }

  lemma EntriesInOrder(row: Event, ssh: SshResults)
    ensures WithEntries(WithEntries(WithEntries(WithEntries(row, [Command(StopContainer, ssh.stop)]),
                                                [Command(RemoveContainer, ssh.remove)]),
                                    [Command(StartContainer, ssh.run)]),
                        [Command(ListContainers, ssh.list)])
         == WithEntries(row, CommandEntries(ssh))
  {
    assert CommandEntries(ssh) == [Command(StopContainer, ssh.stop)] + [Command(RemoveContainer, ssh.remove)]
                                  + [Command(StartContainer, ssh.run)] + [Command(ListContainers, ssh.list)];
  }

  lemma FailedAfterSave(db: Db, e: Id, saved: Event, row: Event, reason: FailReason, world: World)
    ensures FailedWith(PutEvent(db, e, saved), e, row, reason, world) == FailedWith(db, e, row, reason, world)
  {
    PutTwice(db, e, saved,
             WithEntries(row, [Failure(reason)]).(status := Failed, completedAt := Some(world.completedAt)));
  }

  lemma ExecutedAfterSave(db: Db, e: Id, w: Worker)
    requires w.world.ssh.Some?
    ensures Executed(PutEvent(db, e, w.event), e, w) == Executed(db, e, w)
  {
    var logged := WithEntries(w.event, CommandEntries(w.world.ssh.value));
    var judged := WithEntries(logged, [PostRollbackHealthCheck(Recreated(w).Some?, NewStatus(w))]);
    FailedAfterSave(db, e, w.event, logged, RunFailed, w.world);
    FailedAfterSave(db, e, w.event, judged, NotRunning(NewStatus(w)), w.world);
    PutTwice(db, e, w.event, logged);
    PutTwice(db, e, w.event, judged);
    hide FailedWith, Finished, PutEvent;
  }
}
