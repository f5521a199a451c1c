/**
  The rollback protocol as a step system over the shared tables: callers that enqueue, a job queue, workers that
  execute, service syncs, snapshot transactions and host removal. A step is the code between two awaits, so
  the steps of all participants interleave freely.
 */
module Rollback {
  import opened Wrappers
  import opened ShellCommand
  import opened ImageReference
  import opened Tables
  import DockerPs

  // ---------- The worker ----------

  datatype SshResults = SshResults(stop: CommandResult, remove: CommandResult, run: CommandResult, list: CommandResult)

  /** What the outside does to one job. None stands for an exception. */
  datatype World = World(
    keyReadable: bool,                              // the SSH key decrypts
    configReadable: bool,                           // the target's configuration decrypts, the first time
    ssh: Option<SshResults>,                        // the SSH session
    listing: Option<seq<DockerPs.Container>>,       // parsing the docker ps output
    configReadableAgain: bool,                      // the configuration decrypts when the snapshot is taken
    healthLogWorks: bool,                           // the health log row is stored
    checkedAt: Time,
    deployedAt: Time,
    completedAt: Time)

  datatype Pc =
    | Delivered | Loaded | Started | ServiceRead | HostRead | TargetRead
    | Logging(k: nat)
    | Judged | SavingService | ServiceSaved | InTransaction | SnapshotSaved | HealthLogged
    | Failing(reason: FailReason) | FailureLogged(reason: FailReason) | FailureSaved(reason: FailReason)
    | DoneSucceeded | DoneFailed(reason: FailReason) | Skipped | Crashed

  /** A worker's program counter and local variables; a variable has no meaning before it is assigned. */
  datatype Worker = Worker(
    pc: Pc,
    event: Event,
    service: Service,
    target: Snapshot,
    flips: set<Id>,
    newSnapshot: Id,
    world: World,
    undisturbed: bool)         // no sync has touched the service since the worker saved it

  /** The first listed container with the recreated container's name. */
  function FindRecreated(containers: seq<DockerPs.Container>, name: string): Option<DockerPs.Container> {
    if containers == [] then None
    else if containers[0].names == name then Some(containers[0])
    else FindRecreated(containers[1..], name)
  }

  /** The k-th entry of a listing is the first with this name. */
  predicate FirstNamed(containers: seq<DockerPs.Container>, k: int, name: string) {
    0 <= k < |containers| && containers[k].names == name && forall j :: 0 <= j < k ==> containers[j].names != name
  }

  lemma {:induction false} FindsFirstNamed(containers: seq<DockerPs.Container>, name: string)
    ensures match FindRecreated(containers, name)
            case None => forall j :: 0 <= j < |containers| ==> containers[j].names != name
            case Some(c) => exists k :: FirstNamed(containers, k, name) && containers[k] == c
  {
    if containers != [] {
      FindsFirstNamed(containers[1..], name);
      if containers[0].names == name {
        assert FirstNamed(containers, 0, name);
      } else if FindRecreated(containers[1..], name).Some? {
        var c := FindRecreated(containers[1..], name).value;
        var k :| FirstNamed(containers[1..], k, name) && containers[1..][k] == c;
        assert FirstNamed(containers, k + 1, name) && containers[k + 1] == c;
      } else {
        assert forall j :: 0 < j < |containers| ==> containers[j] == containers[1..][j - 1];
      }
    }
  }

  /** There is only one such entry. */
  lemma FirstNamedIsOne(containers: seq<DockerPs.Container>, j: int, k: int, name: string)
    requires FirstNamed(containers, j, name) && FirstNamed(containers, k, name)
    ensures j == k
  {
  }

  /** The first entry with this name has this id and is running. */
  ghost predicate RunsFirstNamed(containers: seq<DockerPs.Container>, name: string, id: string) {
    exists k :: FirstNamed(containers, k, name) && containers[k].id == id && ReadsAsRunning(containers[k].status)
  }

  function Recreated(w: Worker): Option<DockerPs.Container> {
    match w.world.listing
    case None => None
    case Some(containers) => FindRecreated(containers, w.target.config.containerName)
  }

  function NewStatus(w: Worker): ServiceStatus {
    match Recreated(w)
    case None => Unknown
    case Some(c) => ClassifyContainerStatus(c.status)
  }

  function CommandStepAt(k: nat): CommandStep {
    match k
    case 0 => StopContainer
    case 1 => RemoveContainer
    case 2 => StartContainer
    case _ => ListContainers
  }

  function CommandEntry(ssh: SshResults, k: nat): LogEntry {
    Command(CommandStepAt(k),
            match k case 0 => ssh.stop case 1 => ssh.remove case 2 => ssh.run case _ => ssh.list)
  }

  /** Saves the event and goes on; an exception of the save ends the job. */
  function SaveThen(db: Db, e: Id, w: Worker, row: Event, pc: Pc): (Db, Worker) {
    if CanSaveEvent(db, e, row) then (PutEvent(db, e, row), w.(event := row, pc := pc))
    else (db, w.(event := row, pc := Crashed))
  }

  function AppendThen(db: Db, e: Id, w: Worker, entry: LogEntry, pc: Pc): (Db, Worker) {
    SaveThen(db, e, w, w.event.(log := w.event.log + [entry]), pc)
  }

  /** The service row after a successful rollback. */
  function RolledBackService(w: Worker): Service
    requires Recreated(w).Some?
  {
    var r := SplitImageAndTag(w.target.imageTag);
    w.service.(containerId := Recreated(w).value.id, image := r.image, currentTag := r.tag, status := NewStatus(w),
               lastCheckedAt := w.world.checkedAt)
  }

  function RolledBackSnapshot(w: Worker): Snapshot {
    Snapshot(w.event.serviceId, w.target.imageTag, w.target.config, w.world.deployedAt, Some(w.event.triggeredBy), true)
  }

  /** The program points whose step saves the event. */
  predicate Writes(pc: Pc) {
    pc.Loaded? || pc.Logging? || pc.HealthLogged? || pc.Failing? || pc.FailureLogged?
  }

  function WritingStep(db: Db, e: Id, w: Worker): (Db, Worker)
    requires Writes(w.pc)
  {
    match w.pc
    case Loaded =>
      SaveThen(db, e, w, w.event.(status := InProgress), Started)
    case Logging(k) =>
      LoggingStep(db, e, w, k)
    case HealthLogged =>
      SaveThen(db, e, w, w.event.(status := Succeeded, completedAt := Some(w.world.completedAt)), DoneSucceeded)
    case Failing(reason) =>
      AppendThen(db, e, w, Failure(reason), FailureLogged(reason))
    case FailureLogged(reason) =>
      SaveThen(db, e, w, w.event.(status := Failed, completedAt := Some(w.world.completedAt)), FailureSaved(reason))
  }

  /** One log entry for each of the four commands, then the verdict on the run and the health check. */
  function LoggingStep(db: Db, e: Id, w: Worker, k: nat): (Db, Worker) {
    if w.world.ssh.None? then (db, w.(pc := Crashed))
    else if k < 4 then AppendThen(db, e, w, CommandEntry(w.world.ssh.value, k), Logging(k + 1))
    else if w.world.ssh.value.run.exitCode != Some(0) then (db, w.(pc := Failing(RunFailed)))
    else if w.world.listing.None? then (db, w.(pc := Crashed))
    else AppendThen(db, e, w, PostRollbackHealthCheck(Recreated(w).Some?, NewStatus(w)), Judged)
  }

  function SavingServiceStep(db: Db, w: Worker): (Db, Worker) {
    if Recreated(w).None? then (db, w.(pc := Crashed))
    else
      var row := RolledBackService(w);
      if CanSaveService(db, w.event.serviceId, row)
      then (PutService(db, w.event.serviceId, row), w.(service := row, undisturbed := true, pc := ServiceSaved))
      else (db, w.(service := row, pc := Crashed))
  }

  function CommittingStep(db: Db, w: Worker): (Db, Worker) {
    if CanCommit(db, w.event.serviceId, w.flips)
    then (Commit(db, w.flips, RolledBackSnapshot(w)), w.(newSnapshot := db.next, pc := SnapshotSaved))
    else (db, w.(pc := Crashed))
  }

  /** The steps that read the tables, or only decide. */
  function ReadingStep(db: Db, e: Id, w: Worker): Worker {
    match w.pc
    case Delivered =>
      if e in db.events then w.(event := db.events[e], pc := Loaded) else w.(pc := Skipped)
    case Started =>
      if w.event.serviceId in db.services
      then w.(service := db.services[w.event.serviceId], pc := ServiceRead)
      else w.(pc := Failing(ServiceGone))
    case ServiceRead =>
      w.(pc := if w.service.hostId in db.hosts then HostRead else Failing(HostGone))
    case HostRead =>
      if w.event.toSnapshotId in db.snapshots
      then w.(target := db.snapshots[w.event.toSnapshotId], pc := TargetRead)
      else w.(pc := Failing(TargetGone))
    case TargetRead =>
      w.(pc := if !w.world.keyReadable then Failing(KeyUnreadable)
               else if !w.world.configReadable then Crashed
               else if w.world.ssh.None? then Failing(SshFailed)
               else Logging(0))
    case Judged =>
      w.(pc := if NewStatus(w) != Running || Recreated(w).None? then Failing(NotRunning(NewStatus(w)))
               else SavingService)
    case ServiceSaved =>
      if w.world.configReadableAgain
      then w.(flips := CurrentIds(db, w.event.serviceId), pc := InTransaction)
      else w.(pc := Crashed)
    case SnapshotSaved =>
      w.(pc := if w.world.healthLogWorks then HealthLogged else Crashed)
    case FailureSaved(reason) =>
      w.(pc := DoneFailed(reason))
    case _ => w
  }

  /**
    The health log row of a success and the alert of a failure; the organisation is unknown when there was no service.
   */
  function Noted(db: Db, e: Id, w: Worker): Db {
    match w.pc
    case SnapshotSaved =>
      if w.world.healthLogWorks
      then db.(healthLogs := db.healthLogs + multiset{HealthLog(w.event.serviceId, w.service.status, RolledBack(e))})
      else db
    case FailureSaved(reason) =>
      if reason == ServiceGone then db else db.(alerts := db.alerts + multiset{RollbackFailed(e)})
    case _ => db
  }

  /** The worker's step from each program point: its effect on the tables and the worker's next state. */
  function WorkerStep(db: Db, e: Id, w: Worker): (Db, Worker) {
    if Writes(w.pc) then WritingStep(db, e, w)
    else if w.pc.SavingService? then SavingServiceStep(db, w)
    else if w.pc.InTransaction? then CommittingStep(db, w)
    else (Noted(db, e, w), ReadingStep(db, e, w))
  }

  predicate IsDone(pc: Pc) {
    pc.DoneSucceeded? || pc.DoneFailed? || pc.Skipped? || pc.Crashed?
  }

  // ---------- The caller ----------

  datatype CallerPc =
    | Arrived | ServiceFound | TargetFound | CurrentFound | NoneActive | Inserted
    | Returned | Refused | Stranded

  datatype Caller = Caller(
    pc: CallerPc, orgId: Id, serviceId: Id, targetSnapshotId: Id, userId: Id, currentSnapshotId: Id, eventId: Id)

  predicate SomeActive(db: Db, serviceId: Id) {
    exists i :: i in db.events && db.events[i].serviceId == serviceId && Active(db.events[i].status)
  }

  function NewEvent(c: Caller): Event {
    Event(c.serviceId, c.currentSnapshotId, c.targetSnapshotId, c.userId, Pending, [], None)
  }

  // ---------- The system ----------

  /** A snapshot transaction of a sync between its update and its insert. */
  datatype Capture = Capture(serviceId: Id, imageTag: string, config: Config, deployedAt: Time, flips: set<Id>)

  datatype Sys = Sys(
    db: Db,
    queue: multiset<Id>,           // the queued jobs, each naming an event
    callers: map<Id, Caller>,
    workers: map<Id, Worker>,      // the worker that an event's job was delivered to
    captures: map<Id, Capture>)

  const INITIAL := Sys(EMPTY_DB, multiset{}, map[], map[], map[])

  datatype Label =
    | Arrive(c: Id, caller: Caller)
    | Call(c: Id, addWorks: bool)                  // the caller's next step; addWorks matters for the queue's add only
    | Deliver(e: Id, worker: Worker)
    | Work(e: Id)
    | SyncSave(id: Id, row: Service, logs: multiset<HealthLog>, alerts: multiset<Alert>)
    | CaptureBegin(t: Id, capture: Capture)
    | CaptureEnd(t: Id)
    | NewHost
    | DropHost(h: Id)

  ghost function CallerStep(s: Sys, c: Id, addWorks: bool): Sys
    requires c in s.callers
  {
    var k := s.callers[c];
    var db := s.db;
    var go := (pc: CallerPc) => s.(callers := s.callers[c := k.(pc := pc)]);
    match k.pc
    case Arrived =>
      go(if k.serviceId in db.services && db.services[k.serviceId].orgId == k.orgId then ServiceFound else Refused)
    case ServiceFound =>
      go(if SnapshotOf(db.snapshots, k.targetSnapshotId, k.serviceId) then TargetFound else Refused)
    case TargetFound =>
      if CurrentIds(db, k.serviceId) == {} then go(Refused)
      else
        var i :| i in CurrentIds(db, k.serviceId);
        s.(callers := s.callers[c := k.(currentSnapshotId := i, pc := CurrentFound)])
    case CurrentFound =>
      go(if SomeActive(db, k.serviceId) then Refused else NoneActive)
    case NoneActive =>
      if CanSaveEvent(db, db.next, NewEvent(k))
      then s.(db := PutEvent(db, db.next, NewEvent(k)).(next := db.next + 1),
              callers := s.callers[c := k.(eventId := db.next, pc := Inserted)])
      else go(Refused)
    case Inserted =>
      if addWorks
      then s.(queue := s.queue + multiset{k.eventId}, callers := s.callers[c := k.(pc := Returned)])
      else go(Stranded)
    case _ => s
  }

  function Disturb(workers: map<Id, Worker>, hostId: Id, serviceId: Id): map<Id, Worker> {
    map e | e in workers ::
      if workers[e].service.hostId == hostId || workers[e].event.serviceId == serviceId
      then workers[e].(undisturbed := false) else workers[e]
  }

  function CapturedSnapshot(x: Capture): Snapshot {
    Snapshot(x.serviceId, x.imageTag, x.config, x.deployedAt, None, true)
  }

  predicate Enabled(s: Sys, step: Label) {
    match step
    case Arrive(c, caller) => c !in s.callers && caller.pc == Arrived
    case Call(c, _) => c in s.callers
    case Deliver(e, worker) => e in s.queue && worker.pc == Delivered
    case Work(e) => e in s.workers
    case SyncSave(id, row, _, _) =>
      && CanSaveService(s.db, id, row)
      && if id in s.db.services
         then row.hostId == s.db.services[id].hostId && row.orgId == s.db.services[id].orgId
         else id == s.db.next
    case CaptureBegin(t, capture) => t !in s.captures && capture.flips == CurrentIds(s.db, capture.serviceId)
    case CaptureEnd(t) => t in s.captures
    case NewHost => true
    case DropHost(h) => h in s.db.hosts
  }

  /**
    The system's step. A sync may save any row for a service of its host and take a snapshot of any configuration;
    each job is delivered once.
   */
  ghost function Apply(s: Sys, step: Label): Sys
    requires Enabled(s, step)
  {
    match step
    case Arrive(c, caller) => s.(callers := s.callers[c := caller])
    case Call(c, addWorks) => CallerStep(s, c, addWorks)
    case Deliver(e, worker) => s.(queue := s.queue - multiset{e}, workers := s.workers[e := worker])
    case Work(e) =>
      var (db, w) := WorkerStep(s.db, e, s.workers[e]);
      s.(db := db, workers := s.workers[e := w])
    case SyncSave(id, row, logs, alerts) =>
      s.(db := AfterSyncSave(s.db, id, row, logs, alerts), workers := Disturb(s.workers, row.hostId, id))
    case CaptureBegin(t, capture) => s.(captures := s.captures[t := capture])
    case CaptureEnd(t) =>
      var x := s.captures[t];
      s.(db := if CanCommit(s.db, x.serviceId, x.flips) then Commit(s.db, x.flips, CapturedSnapshot(x)) else s.db,
         captures := s.captures - {t},
         workers := if x.serviceId in s.db.services
                    then Disturb(s.workers, s.db.services[x.serviceId].hostId, x.serviceId) else s.workers)
    case NewHost => s.(db := AddHost(s.db))
    case DropHost(h) => s.(db := RemoveHost(s.db, h))
  }

  /** A run from s: every step is enabled where it is taken. */
  ghost predicate IsRun(s: Sys, steps: seq<Label>)
    decreases |steps|
  {
    steps != [] ==> Enabled(s, steps[0]) && IsRun(Apply(s, steps[0]), steps[1..])
  }

  ghost function After(s: Sys, steps: seq<Label>): Sys
    requires IsRun(s, steps)
    decreases |steps|
  {
    if steps == [] then s else After(Apply(s, steps[0]), steps[1..])
  }

  lemma {:induction false} RunsCompose(s: Sys, first: seq<Label>, second: seq<Label>)
    requires IsRun(s, first + second)
    ensures IsRun(s, first) && IsRun(After(s, first), second)
    ensures After(After(s, first), second) == After(s, first + second)
    decreases |first|
  {
    if first == [] {
      assert first + second == second;
    } else {
      assert (first + second)[1..] == first[1..] + second;
      RunsCompose(Apply(s, first[0]), first[1..], second);
    }
  }

  lemma {:induction false} RunsConcat(s: Sys, first: seq<Label>, second: seq<Label>)
    requires IsRun(s, first) && IsRun(After(s, first), second)
    ensures IsRun(s, first + second) && After(s, first + second) == After(After(s, first), second)
    decreases |first|
  {
    if first == [] {
      assert first + second == second;
    } else {
      assert (first + second)[1..] == first[1..] + second;
      RunsConcat(Apply(s, first[0]), first[1..], second);
    }
  }

  lemma OneStepRun(s: Sys, step: Label)
    requires Enabled(s, step)
    ensures IsRun(s, [step]) && After(s, [step]) == Apply(s, step)
  {
    hide Enabled, Apply;
    assert [step][1..] == [];
    assert After(Apply(s, step), []) == Apply(s, step);
  }

  /** The system after one step of a worker. */
  ghost function Worked(s: Sys, e: Id): Sys
    requires e in s.workers
  {
    var (db, w) := WorkerStep(s.db, e, s.workers[e]);
    s.(db := db, workers := s.workers[e := w])
  }

  lemma WorkedIsApplied(s: Sys, e: Id)
    requires e in s.workers
    ensures Enabled(s, Work(e)) && Worked(s, e) == Apply(s, Work(e))
  {
    hide WorkerStep;
  }
}
