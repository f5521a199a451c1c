/** What every step of the rollback system keeps, whatever the interleaving. */
module RollbackInvariant {
  import opened Wrappers
  import opened Tables
  import opened Rollback

  // ---------- The shape of a log ----------

  datatype Kind = Stop | Remove | Run | List | Health | Fail

  /** The order in which a job logs its steps. */
  function Plan(k: nat): Kind {
    match k
    case 0 => Stop
    case 1 => Remove
    case 2 => Run
    case 3 => List
    case 4 => Health
    case _ => Fail
  }

  function KindOf(entry: LogEntry): Kind {
    match entry
    case Command(step, _) =>
      (match step
       case StopContainer => Stop
       case RemoveContainer => Remove
       case StartContainer => Run
       case ListContainers => List)
    case PostRollbackHealthCheck(_, _) => Health
    case Failure(_) => Fail
  }

  /** The first n entries are the first n steps of the plan. */
  predicate Follows(log: seq<LogEntry>, n: nat) {
    n <= |log| && n <= 5 && forall i :: 0 <= i < n ==> KindOf(log[i]) == Plan(i)
  }

  /** The log is exactly the first n steps of the plan. */
  predicate LogIs(log: seq<LogEntry>, n: nat) {
    |log| == n && Follows(log, n)
  }

  lemma LogGrows(log: seq<LogEntry>, n: nat, entry: LogEntry)
    requires LogIs(log, n) && n < 5 && KindOf(entry) == Plan(n)
    ensures LogIs(log + [entry], n + 1)
  {
  }

  lemma LogFails(log: seq<LogEntry>, reason: FailReason)
    requires LogIs(log, Reached(reason))
    ensures FailureEnds(log + [Failure(reason)], reason)
  {
  }

  /** How much of the plan is logged when a job fails for this reason. */
  function Reached(reason: FailReason): nat {
    match reason
    case RunFailed => 4
    case NotRunning(_) => 5
    case _ => 0
  }

  /** The service, the host or the target snapshot was gone when the job looked for it. */
  predicate IsGone(reason: FailReason) {
    reason == ServiceGone || reason == HostGone || reason == TargetGone
  }

  predicate FailureEnds(log: seq<LogEntry>, reason: FailReason) {
    && |log| == Reached(reason) + 1
    && log[Reached(reason)] == Failure(reason)
    && Follows(log, Reached(reason))
  }

  // ---------- The shape of an event row ----------

  predicate IsFresh(row: Event) {
    row.status == Pending && row.log == [] && row.completedAt == None
  }

  predicate IsRunning(row: Event) {
    row.status == InProgress && row.completedAt == None
  }

  /** The log of a running event: a beginning of the plan, or a failure just logged. */
  predicate RunningLog(log: seq<LogEntry>) {
    || LogIs(log, |log|)
    || (&& log != [] && log[|log| - 1].Failure?
        && !IsGone(log[|log| - 1].reason) && FailureEnds(log, log[|log| - 1].reason))
  }

  /** What a stored event always looks like. */
  predicate RowOk(row: Event) {
    match row.status
    case Pending => IsFresh(row)
    case InProgress => row.completedAt == None && RunningLog(row.log)
    case Succeeded => row.completedAt.Some? && LogIs(row.log, 5)
    case Failed =>
      && row.completedAt.Some? && row.log != [] && row.log[|row.log| - 1].Failure?
      && !IsGone(row.log[|row.log| - 1].reason) && FailureEnds(row.log, row.log[|row.log| - 1].reason)
  }

  /** The failure reason a program point carries. */
  function ReasonOf(pc: Pc): Option<FailReason> {
    match pc
    case Failing(r) => Some(r)
    case FailureLogged(r) => Some(r)
    case FailureSaved(r) => Some(r)
    case DoneFailed(r) => Some(r)
    case _ => None
  }

  /** How many steps of the plan are logged at a program point on the way to success. */
  function Logged(pc: Pc): nat {
    match pc
    case Loaded => 0
    case Started => 0
    case ServiceRead => 0
    case HostRead => 0
    case TargetRead => 0
    case Logging(k) => k
    case _ => 5
  }

  /** The worker's copy of the event at each program point. */
  predicate StageOk(pc: Pc, row: Event) {
    if pc.Loaded? then IsFresh(row)
    else if pc.Failing? then IsRunning(row) && LogIs(row.log, Reached(pc.reason))
    else if pc.FailureLogged? then IsRunning(row) && FailureEnds(row.log, pc.reason)
    else if pc.FailureSaved? || pc.DoneFailed? then
      row.status == Failed && row.completedAt.Some? && FailureEnds(row.log, pc.reason)
    else if pc.DoneSucceeded? then row.status == Succeeded && row.completedAt.Some? && LogIs(row.log, 5)
    else pc.Crashed? || (IsRunning(row) && LogIs(row.log, Logged(pc)) && (pc.Logging? ==> pc.k <= 4))
  }

  // ---------- One worker ----------

  predicate SameKeys(a: Event, b: Event) {
    && a.serviceId == b.serviceId && a.fromSnapshotId == b.fromSnapshotId
    && a.toSnapshotId == b.toSnapshotId && a.triggeredBy == b.triggeredBy
  }

  /** Removal takes an event with its service and its snapshots, and nothing brings any of them back. */
  predicate GoneTogether(db: Db, e: Id, row: Event) {
    && e < db.next && row.serviceId < db.next && row.fromSnapshotId < db.next && row.toSnapshotId < db.next
    && (e !in db.events ==>
          row.serviceId !in db.services && row.fromSnapshotId !in db.snapshots && row.toSnapshotId !in db.snapshots)
  }

  predicate HasRead(pc: Pc) {
    !pc.Delivered? && !pc.Skipped?
  }

  predicate HasService(pc: Pc) {
    HasRead(pc) && !pc.Loaded? && !pc.Started? && !pc.Crashed? && ReasonOf(pc) != Some(ServiceGone)
  }

  /** The host of the service that the worker loaded: its own host, removed only together with the service. */
  predicate ServiceCopyOk(db: Db, w: Worker) {
    && w.service.hostId < db.next
    && (w.event.serviceId in db.services ==>
          && db.services[w.event.serviceId].hostId == w.service.hostId
          && db.services[w.event.serviceId].orgId == w.service.orgId)
    && (w.event.serviceId !in db.services ==> w.service.hostId !in db.hosts)
  }

  predicate FlipsOk(db: Db, flips: set<Id>, serviceId: Id) {
    forall i :: i in flips ==> i < db.next && (i in db.snapshots ==> db.snapshots[i].serviceId == serviceId)
  }

  /** The stored row is the worker's copy; a crashed worker's row stays as it was last saved. */
  predicate StoredAs(row: Event, w: Worker) {
    && SameKeys(row, w.event)
    && if w.pc.Crashed? then row.status == InProgress && RowOk(row) else row == w.event
  }

  predicate WorkerOk(db: Db, e: Id, w: Worker) {
    && (w.pc.Delivered? && e in db.events ==> IsFresh(db.events[e]))
    && (w.pc.Delivered? ==> e < db.next)
    && (w.pc.Skipped? ==> e < db.next && e !in db.events)
    && (HasRead(w.pc) ==>
          && GoneTogether(db, e, w.event)
          && StageOk(w.pc, w.event)
          && (e in db.events ==> StoredAs(db.events[e], w)))
    && (HasService(w.pc) ==> ServiceCopyOk(db, w))
    && (w.pc.InTransaction? ==> FlipsOk(db, w.flips, w.event.serviceId))
    && (ReasonOf(w.pc).Some? && IsGone(ReasonOf(w.pc).value) ==> e !in db.events)
  }

  // ---------- Everybody ----------

  predicate WorkersOk(db: Db, workers: map<Id, Worker>) {
    forall e :: e in workers ==> WorkerOk(db, e, workers[e])
  }

  /** An event that was never delivered is untouched. */
  predicate UndeliveredOk(db: Db, workers: map<Id, Worker>) {
    forall e :: e in db.events && e !in workers ==> IsFresh(db.events[e])
  }

  predicate BelongsIfThere(db: Db, snapshotId: Id, serviceId: Id) {
    snapshotId < db.next && (snapshotId in db.snapshots ==> db.snapshots[snapshotId].serviceId == serviceId)
  }

  predicate CallerOk(db: Db, k: Caller) {
    && (k.pc != Arrived && k.pc != ServiceFound && k.pc != Refused ==>
          BelongsIfThere(db, k.targetSnapshotId, k.serviceId))
    && (k.pc == CurrentFound || k.pc == NoneActive ==> BelongsIfThere(db, k.currentSnapshotId, k.serviceId))
    && (k.pc == Inserted ==> k.eventId < db.next)
  }

  predicate CallersOk(db: Db, callers: map<Id, Caller>) {
    forall c :: c in callers ==> CallerOk(db, callers[c])
  }

  /** The one caller about to queue an event is the one that inserted it, and it is in no other hands. */
  predicate InsertedOk(queue: multiset<Id>, callers: map<Id, Caller>, workers: map<Id, Worker>) {
    && (forall c :: c in callers && callers[c].pc == Inserted ==>
          callers[c].eventId !in queue && callers[c].eventId !in workers)
    && (forall c, d | c in callers && d in callers ::
          callers[c].pc == Inserted && callers[d].pc == Inserted ==>
            (callers[c].eventId == callers[d].eventId ==> c == d))
  }

  predicate QueueOk(db: Db, queue: multiset<Id>, workers: map<Id, Worker>) {
    && (forall e :: e in queue ==> queue[e] == 1 && e !in workers && e < db.next)
    && (forall e :: e in workers ==> e < db.next)
  }

  predicate CapturesOk(db: Db, captures: map<Id, Capture>) {
    forall t :: t in captures ==> FlipsOk(db, captures[t].flips, captures[t].serviceId)
  }

  ghost predicate Inv(s: Sys) {
    && TablesOk(s.db)
    && WorkersOk(s.db, s.workers)
    && UndeliveredOk(s.db, s.workers)
    && CallersOk(s.db, s.callers)
    && InsertedOk(s.queue, s.callers, s.workers)
    && QueueOk(s.db, s.queue, s.workers)
    && CapturesOk(s.db, s.captures)
  }

  // ---------- How one step's table changes look to everybody else ----------

  /**
    What any step may do to the tables from the point of view of somebody holding `mine` (an event of theirs, if any):
    ids are never reused, nothing removed comes back, rows keep their owners, and my event's row is not written.
   */
  ghost predicate Around(before: Db, after: Db, mine: Id) {
    && before.next <= after.next
    && (forall i :: i in after.hosts && i < before.next ==> i in before.hosts)
    && (forall i :: i in after.services && i < before.next ==>
          i in before.services && after.services[i].hostId == before.services[i].hostId
          && after.services[i].orgId == before.services[i].orgId)
    && (forall i :: i in after.snapshots && i < before.next ==>
          i in before.snapshots && after.snapshots[i].serviceId == before.snapshots[i].serviceId)
    && (mine in after.events && mine < before.next ==>
          mine in before.events && after.events[mine] == before.events[mine])
  }

  /** What is mine goes only as a whole: the event with its service and snapshots, the service with its host. */
  ghost predicate GoesAsAWhole(before: Db, after: Db, e: Id, w: Worker) {
    && (HasRead(w.pc) && e in before.events && e !in after.events ==>
          (w.event.serviceId !in after.services && w.event.fromSnapshotId !in after.snapshots
           && w.event.toSnapshotId !in after.snapshots))
    && (HasRead(w.pc) && w.event.serviceId in before.services && w.event.serviceId !in after.services ==>
          before.services[w.event.serviceId].hostId !in after.hosts)
  }

  lemma AroundKeepsWorker(before: Db, after: Db, e: Id, w: Worker)
    requires TablesOk(before) && TablesOk(after) && Around(before, after, e) && GoesAsAWhole(before, after, e, w)
    requires WorkerOk(before, e, w)
    ensures WorkerOk(after, e, w)
  {
  }

  lemma AroundKeepsCaller(before: Db, after: Db, mine: Id, k: Caller)
    requires Around(before, after, mine) && CallerOk(before, k)
    ensures CallerOk(after, k)
  {
  }

  lemma AroundKeepsFlips(before: Db, after: Db, mine: Id, flips: set<Id>, serviceId: Id)
    requires Around(before, after, mine) && FlipsOk(before, flips, serviceId)
    ensures FlipsOk(after, flips, serviceId)
  {
  }

  // ---------- The worker's own step ----------

  /** With a job delivered once, saving the worker's event never violates an index: it fails only for a removed row. */
  lemma SaveFailsOnlyIfRemoved(db: Db, e: Id, w: Worker, row: Event)
    requires TablesOk(db) && WorkerOk(db, e, w) && HasRead(w.pc) && !w.pc.Crashed?
    requires SameKeys(row, w.event) && (Active(row.status) ==> Active(w.event.status))
    ensures CanSaveEvent(db, e, row) <==> e in db.events
  {
    if e in db.events {
      assert EventReferences(db.services, db.snapshots, db.events[e]);
    }
  }

  lemma SaveThenKeepsMine(db: Db, e: Id, w: Worker, row: Event, pc: Pc)
    requires TablesOk(db) && WorkerOk(db, e, w) && HasRead(w.pc) && !w.pc.Crashed?
    requires SameKeys(row, w.event) && (Active(row.status) ==> Active(w.event.status))
    requires HasRead(pc) && !pc.Crashed? && StageOk(pc, row) && !pc.InTransaction?
    requires HasService(pc) ==> HasService(w.pc)
    requires ReasonOf(pc) == ReasonOf(w.pc)
    ensures var (db', w') := SaveThen(db, e, w, row, pc);
            && TablesOk(db') && WorkerOk(db', e, w')
            && db' == (if e in db.events then PutEvent(db, e, row) else db)
            && w' == (if e in db.events then w.(event := row, pc := pc) else w.(event := row, pc := Crashed))
  {
    SaveFailsOnlyIfRemoved(db, e, w, row);
    if e in db.events {
      assert EventReferences(db.services, db.snapshots, db.events[e]);
      SaveEventKeepsTables(db, e, row);
      hide TablesOk, CanSaveEvent;
      SavedIsMine(db, e, w, row, pc);
    } else {
      hide TablesOk, CanSaveEvent;
    }
  }

  /** A worker that saved its event holds the row that is stored. */
  lemma SavedIsMine(db: Db, e: Id, w: Worker, row: Event, pc: Pc)
    requires WorkerOk(db, e, w) && HasRead(w.pc) && !w.pc.Crashed? && SameKeys(row, w.event)
    requires HasRead(pc) && !pc.Crashed? && StageOk(pc, row) && !pc.InTransaction?
    requires (HasService(pc) ==> HasService(w.pc)) && ReasonOf(pc) == ReasonOf(w.pc) && e in db.events
    ensures WorkerOk(PutEvent(db, e, row), e, w.(event := row, pc := pc))
  {
  }

  lemma AppendThenKeepsMine(db: Db, e: Id, w: Worker, entry: LogEntry, pc: Pc)
    requires TablesOk(db) && WorkerOk(db, e, w) && HasRead(w.pc) && !w.pc.Crashed?
    requires HasRead(pc) && !pc.Crashed? && !pc.InTransaction?
    requires StageOk(pc, w.event.(log := w.event.log + [entry]))
    requires HasService(pc) ==> HasService(w.pc)
    requires ReasonOf(pc) == ReasonOf(w.pc)
    ensures var (db', w') := AppendThen(db, e, w, entry, pc);
            var row := w.event.(log := w.event.log + [entry]);
            && TablesOk(db') && WorkerOk(db', e, w')
            && db' == (if e in db.events then PutEvent(db, e, row) else db)
            && w' == (if e in db.events then w.(event := row, pc := pc) else w.(event := row, pc := Crashed))
  {
    SaveThenKeepsMine(db, e, w, w.event.(log := w.event.log + [entry]), pc);
  }

  predicate Reads(pc: Pc) {
    !Writes(pc) && !pc.SavingService? && !pc.InTransaction?
  }

  /** Looking up the event, the service, the host and the target. */
  lemma LookingUpKeepsWorker(db: Db, e: Id, w: Worker)
    requires TablesOk(db) && WorkerOk(db, e, w)
    requires w.pc.Delivered? || w.pc.Started? || w.pc.ServiceRead? || w.pc.HostRead?
    ensures WorkerOk(db, e, ReadingStep(db, e, w))
  {
    hide TablesOk, WorkerOk, ReadingStep;
    if w.pc.Delivered? || w.pc.Started? {
      LoadingKeepsWorker(db, e, w);
    } else {
      FindingKeepsWorker(db, e, w);
    }
  }

  lemma EventIsComplete(db: Db, e: Id)
    requires TablesOk(db) && e in db.events
    ensures EventReferences(db.services, db.snapshots, db.events[e])
  {
  }

  lemma FindingHostKeepsWorker(db: Db, e: Id, w: Worker)
    requires HostsPresent(db.hosts, db.services) && WorkerOk(db, e, w) && w.pc.ServiceRead?
    requires e in db.events ==> EventReferences(db.services, db.snapshots, db.events[e])
    ensures WorkerOk(db, e, ReadingStep(db, e, w))
  {
  }

  lemma FindingTargetKeepsWorker(db: Db, e: Id, w: Worker)
    requires WorkerOk(db, e, w) && w.pc.HostRead?
    requires e in db.events ==> EventReferences(db.services, db.snapshots, db.events[e])
    ensures WorkerOk(db, e, ReadingStep(db, e, w))
  {
  }

  /** The host is there with the service, and the target with the event. */
  lemma FindingKeepsWorker(db: Db, e: Id, w: Worker)
    requires TablesOk(db) && WorkerOk(db, e, w) && (w.pc.ServiceRead? || w.pc.HostRead?)
    ensures WorkerOk(db, e, ReadingStep(db, e, w))
  {
    assert HostsPresent(db.hosts, db.services);
    hide TablesOk, WorkerOk, ReadingStep, HostsPresent;
    if e in db.events {
      EventIsComplete(db, e);
    }
    if w.pc.ServiceRead? {
      FindingHostKeepsWorker(db, e, w);
    } else {
      FindingTargetKeepsWorker(db, e, w);
    }
  }

  lemma LoadingEventKeepsWorker(db: Db, e: Id, w: Worker)
    requires FreshIds(db) && WorkerOk(db, e, w) && w.pc.Delivered?
    requires e in db.events ==> EventReferences(db.services, db.snapshots, db.events[e])
    ensures WorkerOk(db, e, ReadingStep(db, e, w))
  {
    if e in db.events {
      assert db.events[e].serviceId in db.services.Keys;
      assert db.events[e].fromSnapshotId in db.snapshots.Keys && db.events[e].toSnapshotId in db.snapshots.Keys;
    }
  }

  lemma LoadingServiceKeepsWorker(db: Db, e: Id, w: Worker)
    requires AllBelow(db.hosts, db.next) && HostsPresent(db.hosts, db.services)
    requires WorkerOk(db, e, w) && w.pc.Started?
    requires e in db.events ==> EventReferences(db.services, db.snapshots, db.events[e])
    ensures WorkerOk(db, e, ReadingStep(db, e, w))
  {
    if w.event.serviceId in db.services {
      assert db.services[w.event.serviceId].hostId in db.hosts;
    }
  }

  lemma LoadingKeepsWorker(db: Db, e: Id, w: Worker)
    requires TablesOk(db) && WorkerOk(db, e, w) && (w.pc.Delivered? || w.pc.Started?)
    ensures WorkerOk(db, e, ReadingStep(db, e, w))
  {
    assert HostsPresent(db.hosts, db.services) && FreshIds(db) && AllBelow(db.hosts, db.next);
    hide TablesOk, WorkerOk, ReadingStep, HostsPresent, FreshIds, AllBelow;
    if e in db.events {
      EventIsComplete(db, e);
    }
    if w.pc.Delivered? {
      LoadingEventKeepsWorker(db, e, w);
    } else {
      LoadingServiceKeepsWorker(db, e, w);
    }
  }

  /** Deciding how to go on, and starting the snapshot transaction. */
  lemma DecidingKeepsWorker(db: Db, e: Id, w: Worker)
    requires FreshIds(db) && WorkerOk(db, e, w)
    requires w.pc.TargetRead? || w.pc.Judged? || w.pc.ServiceSaved?
    ensures WorkerOk(db, e, ReadingStep(db, e, w))
  {
    hide Recreated, NewStatus, GoneTogether;
    match w.pc
    case TargetRead =>
    case Judged =>
    case ServiceSaved =>
      assert FlipsOk(db, CurrentIds(db, w.event.serviceId), w.event.serviceId);
  }

  /** The last steps before a save, or none at all. */
  lemma FinishingKeepsWorker(db: Db, e: Id, w: Worker)
    requires WorkerOk(db, e, w)
    requires w.pc.SnapshotSaved? || w.pc.FailureSaved? || IsDone(w.pc)
    ensures WorkerOk(db, e, ReadingStep(db, e, w))
  {
    match w.pc
    case SnapshotSaved =>
    case FailureSaved(_) =>
    case _ =>
  }

  lemma ReadingKeepsWorker(db: Db, e: Id, w: Worker)
    requires TablesOk(db) && WorkerOk(db, e, w) && Reads(w.pc)
    ensures WorkerOk(db, e, ReadingStep(db, e, w))
  {
    TablesFresh(db);
    hide WorkerOk, TablesOk, ReadingStep;
    if w.pc.Delivered? || w.pc.Started? || w.pc.ServiceRead? || w.pc.HostRead? {
      LookingUpKeepsWorker(db, e, w);
    } else if w.pc.TargetRead? || w.pc.Judged? || w.pc.ServiceSaved? {
      DecidingKeepsWorker(db, e, w);
    } else {
      FinishingKeepsWorker(db, e, w);
    }
  }

  lemma NotesKeepTables(before: Db, after: Db)
    requires TablesOk(before) && after == before.(healthLogs := after.healthLogs, alerts := after.alerts)
    ensures TablesOk(after)
  {
  }

  lemma NotingKeepsTables(db: Db, e: Id, w: Worker)
    requires TablesOk(db)
    ensures TablesOk(Noted(db, e, w))
  {
    hide TablesOk;
    NotesKeepTables(db, Noted(db, e, w));
  }

  lemma NotingKeepsWorker(db: Db, e: Id, w: Worker, w': Worker)
    requires WorkerOk(db, e, w')
    ensures WorkerOk(Noted(db, e, w), e, w')
  {
  }

  lemma LoggingKeepsMine(db: Db, e: Id, w: Worker, k: nat)
    requires TablesOk(db) && WorkerOk(db, e, w) && w.pc == Logging(k)
    ensures var (db', w') := LoggingStep(db, e, w, k); TablesOk(db') && WorkerOk(db', e, w')
  {
    hide TablesOk;
    if w.world.ssh.Some? {
      if k < 4 {
        LogGrows(w.event.log, k, CommandEntry(w.world.ssh.value, k));
        AppendThenKeepsMine(db, e, w, CommandEntry(w.world.ssh.value, k), Logging(k + 1));
      } else if w.world.ssh.value.run.exitCode == Some(0) && w.world.listing.Some? {
        LogGrows(w.event.log, 4, PostRollbackHealthCheck(Recreated(w).Some?, NewStatus(w)));
        AppendThenKeepsMine(db, e, w, PostRollbackHealthCheck(Recreated(w).Some?, NewStatus(w)), Judged);
      }
    }
  }

  lemma WritingKeepsMine(db: Db, e: Id, w: Worker)
    requires TablesOk(db) && WorkerOk(db, e, w) && Writes(w.pc)
    ensures var (db', w') := WritingStep(db, e, w); TablesOk(db') && WorkerOk(db', e, w')
  {
    hide TablesOk, AppendThen, SaveThen;
    match w.pc
    case Loaded =>
      SaveThenKeepsMine(db, e, w, w.event.(status := InProgress), Started);
    case Logging(k) =>
      LoggingKeepsMine(db, e, w, k);
    case HealthLogged =>
      SaveThenKeepsMine(db, e, w, w.event.(status := Succeeded, completedAt := Some(w.world.completedAt)),
                        DoneSucceeded);
    case Failing(reason) =>
      LogFails(w.event.log, reason);
      AppendThenKeepsMine(db, e, w, Failure(reason), FailureLogged(reason));
    case FailureLogged(reason) =>
      SaveThenKeepsMine(db, e, w, w.event.(status := Failed, completedAt := Some(w.world.completedAt)),
                        FailureSaved(reason));
  }

  lemma SavingServiceUpdates(db: Db, e: Id, w: Worker)
    requires WorkerOk(db, e, w) && w.pc.SavingService?
    ensures var (db', w') := SavingServiceStep(db, w);
            w'.pc.ServiceSaved? ==>
              && w.event.serviceId in db.services
              && db' == PutService(db, w.event.serviceId, w'.service)
              && CanSaveService(db, w.event.serviceId, w'.service)
              && w'.service.hostId == w.service.hostId && w'.service.orgId == w.service.orgId
  {
  }

  lemma PutServiceKeepsWorker(db: Db, e: Id, w: Worker, row: Service)
    requires WorkerOk(db, e, w) && w.event.serviceId in db.services && HasService(w.pc)
    requires row.hostId == w.service.hostId && row.orgId == w.service.orgId
    ensures WorkerOk(PutService(db, w.event.serviceId, row), e, w)
  {
  }

  /** A worker past its save, successful or not, keeps what it had. */
  lemma SavedServiceWorkerOk(db: Db, e: Id, w: Worker)
    requires WorkerOk(db, e, w) && w.pc.SavingService?
    ensures var w' := SavingServiceStep(db, w).1; WorkerOk(db, e, w')
  {
    hide CanSaveService, GoneTogether, Recreated, NewStatus;
  }

  lemma SavingServiceKeepsMine(db: Db, e: Id, w: Worker)
    requires TablesOk(db) && WorkerOk(db, e, w) && w.pc.SavingService?
    ensures var (db', w') := SavingServiceStep(db, w); TablesOk(db') && WorkerOk(db', e, w')
  {
    hide TablesOk, WorkerOk, CanSaveService, PutService, Recreated, RolledBackService;
    SavingServiceUpdates(db, e, w);
    SavedServiceWorkerOk(db, e, w);
    var w' := SavingServiceStep(db, w).1;
    if w'.pc.ServiceSaved? {
      SaveServiceKeepsTables(db, w.event.serviceId, w'.service);
      PutServiceKeepsWorker(db, e, w', w'.service);
    }
  }

  lemma CommitKeepsWorker(db: Db, e: Id, w: Worker, flips: set<Id>, row: Snapshot)
    requires WorkerOk(db, e, w)
    requires FlipsOk(db, w.flips, w.event.serviceId)
    ensures WorkerOk(Commit(db, flips, row), e, w)
  {
  }

  lemma CommittingKeepsMine(db: Db, e: Id, w: Worker)
    requires TablesOk(db) && WorkerOk(db, e, w) && w.pc.InTransaction?
    ensures var (db', w') := CommittingStep(db, w); TablesOk(db') && WorkerOk(db', e, w')
  {
    hide TablesOk;
    if CanCommit(db, w.event.serviceId, w.flips) {
      CommitKeepsTables(db, w.flips, RolledBackSnapshot(w));
      CommitKeepsWorker(db, e, w, w.flips, RolledBackSnapshot(w));
    }
  }

  lemma WorkKeepsMine(db: Db, e: Id, w: Worker)
    requires TablesOk(db) && WorkerOk(db, e, w)
    ensures var (db', w') := WorkerStep(db, e, w); TablesOk(db') && WorkerOk(db', e, w')
  {
    hide TablesOk, WritingStep, SavingServiceStep, CommittingStep, ReadingStep, Noted;
    if Writes(w.pc) {
      WritingKeepsMine(db, e, w);
    } else if w.pc.SavingService? {
      SavingServiceKeepsMine(db, e, w);
    } else if w.pc.InTransaction? {
      CommittingKeepsMine(db, e, w);
    } else {
      ReadingKeepsWorker(db, e, w);
      NotingKeepsTables(db, e, w);
      NotingKeepsWorker(db, e, w, ReadingStep(db, e, w));
    }
  }

  lemma WritingTouchesOneRow(db: Db, e: Id, w: Worker)
    requires WorkerOk(db, e, w) && Writes(w.pc)
    ensures var (db', w') := WritingStep(db, e, w);
            db' == db || (e in db.events && db' == PutEvent(db, e, w'.event))
  {
  }

  lemma PutEventAround(db: Db, e: Id, row: Event, mine: Id)
    requires mine != e
    ensures Around(db, PutEvent(db, e, row), mine)
  {
  }

  lemma PutServiceAround(db: Db, id: Id, row: Service, mine: Id)
    requires id in db.services && row.hostId == db.services[id].hostId && row.orgId == db.services[id].orgId
    ensures Around(db, PutService(db, id, row), mine)
  {
  }

  lemma CommitAround(db: Db, flips: set<Id>, row: Snapshot, mine: Id)
    ensures Around(db, Commit(db, flips, row), mine)
  {
  }

  /** Nothing is removed. */
  predicate Keeps(before: Db, after: Db) {
    && before.hosts == after.hosts && before.events.Keys <= after.events.Keys
    && before.services.Keys <= after.services.Keys && before.snapshots.Keys <= after.snapshots.Keys
  }

  lemma CommitKeeps(db: Db, flips: set<Id>, row: Snapshot)
    ensures Keeps(db, Commit(db, flips, row))
  {
    assert Flipped(db.snapshots, flips).Keys == db.snapshots.Keys;
  }

  /** A worker's step as everybody else sees it: it removes nothing and writes no event but its own. */
  lemma WorkAroundOthers(db: Db, e: Id, w: Worker, mine: Id)
    requires WorkerOk(db, e, w) && mine != e
    ensures Around(db, WorkerStep(db, e, w).0, mine) && Keeps(db, WorkerStep(db, e, w).0)
    ensures WorkerStep(db, e, w).0.events.Keys == db.events.Keys
  {
    if Writes(w.pc) {
      hide Around, SaveThen, AppendThen, WritingStep;
      WritingTouchesOneRow(db, e, w);
      PutEventAround(db, e, WritingStep(db, e, w).1.event, mine);
      SameAround(db, mine);
    } else if w.pc.SavingService? {
      hide Around, SavingServiceStep;
      SavingServiceUpdates(db, e, w);
      var (db', w') := SavingServiceStep(db, w);
      if w'.pc.ServiceSaved? {
        PutServiceAround(db, w.event.serviceId, w'.service, mine);
      }
      SameAround(db, mine);
    } else if w.pc.InTransaction? {
      hide Around, Keeps, Commit;
      CommitAround(db, w.flips, RolledBackSnapshot(w), mine);
      CommitKeeps(db, w.flips, RolledBackSnapshot(w));
      CommitLeavesEvents(db, w.flips, RolledBackSnapshot(w));
      SameAround(db, mine);
    } else {
      hide WorkerOk, Around;
      NotingAround(db, e, w, mine);
    }
  }

  lemma NotingAround(db: Db, e: Id, w: Worker, mine: Id)
    ensures Around(db, Noted(db, e, w), mine) && Keeps(db, Noted(db, e, w)) && Noted(db, e, w).events == db.events
  {
  }

  lemma SameAround(db: Db, mine: Id)
    ensures Around(db, db, mine) && Keeps(db, db)
  {
  }

  lemma CommitLeavesEvents(db: Db, flips: set<Id>, row: Snapshot)
    ensures Commit(db, flips, row).events == db.events && Commit(db, flips, row).services == db.services
  {
  }

  // ---------- Every step keeps the invariant ----------

  lemma OthersKeep(before: Db, after: Db, workers: map<Id, Worker>, except: set<Id>)
    requires TablesOk(before) && TablesOk(after) && WorkersOk(before, workers)
    requires forall e :: e in workers && e !in except ==>
               Around(before, after, e) && GoesAsAWhole(before, after, e, workers[e])
    ensures forall e :: e in workers && e !in except ==> WorkerOk(after, e, workers[e])
  {
    hide TablesOk, WorkerOk, Around, GoesAsAWhole;
    forall e | e in workers && e !in except
      ensures WorkerOk(after, e, workers[e])
    {
      AroundKeepsWorker(before, after, e, workers[e]);
    }
  }

  lemma KeepsGoesAsAWhole(before: Db, after: Db, e: Id, w: Worker)
    requires Keeps(before, after)
    ensures GoesAsAWhole(before, after, e, w)
  {
  }

  /** Callers, captures and the queue hold on to ids only. */
  lemma RestKeeps(before: Db, after: Db, mine: Id, s: Sys)
    requires Around(before, after, mine)
    requires CallersOk(before, s.callers) && CapturesOk(before, s.captures) && QueueOk(before, s.queue, s.workers)
    ensures CallersOk(after, s.callers) && CapturesOk(after, s.captures) && QueueOk(after, s.queue, s.workers)
  {
    forall c | c in s.callers
      ensures CallerOk(after, s.callers[c])
    {
      AroundKeepsCaller(before, after, mine, s.callers[c]);
    }
    forall t | t in s.captures
      ensures FlipsOk(after, s.captures[t].flips, s.captures[t].serviceId)
    {
      AroundKeepsFlips(before, after, mine, s.captures[t].flips, s.captures[t].serviceId);
    }
  }

  lemma UndeliveredKeeps(before: Db, after: Db, workers: map<Id, Worker>)
    requires FreshIds(before) && UndeliveredOk(before, workers)
    requires forall e :: e !in workers ==> Around(before, after, e)
    requires forall e :: e in after.events && e !in before.events ==> IsFresh(after.events[e])
    ensures UndeliveredOk(after, workers)
  {
    forall e | e in after.events && e !in workers
      ensures IsFresh(after.events[e])
    {
      assert Around(before, after, e);
    }
  }

  lemma WorkKeepsOthers(s: Sys, e: Id)
    requires TablesOk(s.db) && WorkersOk(s.db, s.workers) && e in s.workers
    ensures var (db, w) := WorkerStep(s.db, e, s.workers[e]);
            TablesOk(db) && WorkersOk(db, s.workers[e := w])
  {
    var (db, w) := WorkerStep(s.db, e, s.workers[e]);
    hide TablesOk, WorkerStep, Around, Keeps, GoesAsAWhole, WorkerOk;
    assert WorkerOk(s.db, e, s.workers[e]);
    WorkKeepsMine(s.db, e, s.workers[e]);
    forall x | x in s.workers && x != e
      ensures Around(s.db, db, x) && GoesAsAWhole(s.db, db, x, s.workers[x])
    {
      WorkAroundOthers(s.db, e, s.workers[e], x);
      KeepsGoesAsAWhole(s.db, db, x, s.workers[x]);
    }
    OthersKeep(s.db, db, s.workers, {e});
  }

  lemma WorkKeepsUndelivered(s: Sys, e: Id)
    requires FreshIds(s.db) && WorkersOk(s.db, s.workers) && UndeliveredOk(s.db, s.workers) && e in s.workers
    ensures UndeliveredOk(WorkerStep(s.db, e, s.workers[e]).0, s.workers)
  {
    var db := WorkerStep(s.db, e, s.workers[e]).0;
    hide WorkerStep, Around, Keeps, WorkerOk;
    assert WorkerOk(s.db, e, s.workers[e]);
    forall x | x != e
      ensures Around(s.db, db, x) && db.events.Keys == s.db.events.Keys
    {
      WorkAroundOthers(s.db, e, s.workers[e], x);
    }
    assert Around(s.db, db, e + 1);
    UndeliveredKeeps(s.db, db, s.workers);
  }

  /** Only which workers there are matters to the undelivered events. */
  lemma SameWorkersKnown(before: Db, after: Db, workers: map<Id, Worker>, e: Id, w: Worker)
    requires e in workers
    ensures workers[e := w].Keys == workers.Keys
    ensures UndeliveredOk(after, workers) ==> UndeliveredOk(after, workers[e := w])
  {
  }

  lemma WorkKeepsInv(s: Sys, e: Id)
    requires Inv(s) && e in s.workers
    ensures Inv(Apply(s, Work(e)))
  {
    assert WorkerOk(s.db, e, s.workers[e]);
    TablesFresh(s.db);
    hide TablesOk, FreshIds, WorkersOk, WorkerOk, WorkerStep, Around, Keeps, CallersOk, CapturesOk, UndeliveredOk;
    var (db, w) := WorkerStep(s.db, e, s.workers[e]);
    WorkKeepsOthers(s, e);
    WorkKeepsUndelivered(s, e);
    WorkAroundOthers(s.db, e, s.workers[e], e + 1);
    RestKeeps(s.db, db, e + 1, s);
    SameWorkersKnown(s.db, db, s.workers, e, w);
  }

  lemma TablesFresh(db: Db)
    requires TablesOk(db)
    ensures FreshIds(db)
  {
  }

  // Callers

  lemma MovingCallerKeepsInv(s: Sys, c: Id, k: Caller)
    requires Inv(s) && CallerOk(s.db, k) && k.pc != Inserted
    ensures Inv(s.(callers := s.callers[c := k]))
  {
    hide TablesOk, WorkersOk, UndeliveredOk, CapturesOk, QueueOk;
  }

  lemma InsertAround(db: Db, row: Event, mine: Id)
    ensures Around(db, AfterInsert(db, row), mine) && Keeps(db, AfterInsert(db, row))
  {
  }

  function AfterInsert(db: Db, row: Event): Db {
    PutEvent(db, db.next, row).(next := db.next + 1)
  }

  lemma InsertKeepsWorkers(s: Sys, row: Event)
    requires TablesOk(s.db) && TablesOk(AfterInsert(s.db, row)) && WorkersOk(s.db, s.workers)
    ensures WorkersOk(AfterInsert(s.db, row), s.workers)
  {
    var db := AfterInsert(s.db, row);
    hide TablesOk, Around, Keeps, GoesAsAWhole, WorkerOk, AfterInsert;
    forall x | x in s.workers
      ensures Around(s.db, db, x) && GoesAsAWhole(s.db, db, x, s.workers[x])
    {
      InsertAround(s.db, row, x);
      KeepsGoesAsAWhole(s.db, db, x, s.workers[x]);
    }
    OthersKeep(s.db, db, s.workers, {});
  }

  lemma InsertKeepsUndelivered(s: Sys, row: Event)
    requires FreshIds(s.db) && UndeliveredOk(s.db, s.workers) && IsFresh(row)
    ensures UndeliveredOk(AfterInsert(s.db, row), s.workers)
  {
  }

  lemma InsertedIsTracked(s: Sys, c: Id, row: Event)
    requires QueueOk(s.db, s.queue, s.workers) && CallersOk(s.db, s.callers)
    requires InsertedOk(s.queue, s.callers, s.workers)
    requires c in s.callers && s.callers[c].pc == NoneActive
    ensures var db := AfterInsert(s.db, row);
            var callers := s.callers[c := s.callers[c].(eventId := s.db.next, pc := Inserted)];
            CallersOk(db, callers) && InsertedOk(s.queue, callers, s.workers)
  {
    var db := AfterInsert(s.db, row);
    NewIdIsNobodys(s);
    forall d | d in s.callers
      ensures CallerOk(db, s.callers[d])
    {
      InsertAround(s.db, row, 0);
      AroundKeepsCaller(s.db, db, 0, s.callers[d]);
    }
  }

  lemma InsertingKeepsInv(s: Sys, c: Id)
    requires Inv(s) && c in s.callers && s.callers[c].pc == NoneActive
    requires CanSaveEvent(s.db, s.db.next, NewEvent(s.callers[c]))
    ensures var db := AfterInsert(s.db, NewEvent(s.callers[c]));
            Inv(s.(db := db, callers := s.callers[c := s.callers[c].(eventId := s.db.next, pc := Inserted)]))
  {
    var row := NewEvent(s.callers[c]);
    assert CallerOk(s.db, s.callers[c]);
    InsertEventKeepsTables(s.db, row);
    TablesFresh(s.db);
    hide TablesOk, WorkersOk, CapturesOk, Around, UndeliveredOk, QueueOk, CallersOk, InsertedOk;
    InsertKeepsWorkers(s, row);
    InsertKeepsUndelivered(s, row);
    InsertedIsTracked(s, c, row);
    InsertAround(s.db, row, 0);
    RestKeeps(s.db, AfterInsert(s.db, row), 0, s);
  }

  /** A new event's id is not queued, delivered or held by a caller yet. */
  lemma NewIdIsNobodys(s: Sys)
    requires QueueOk(s.db, s.queue, s.workers) && CallersOk(s.db, s.callers)
    ensures s.db.next !in s.queue && s.db.next !in s.workers
    ensures forall c :: c in s.callers && s.callers[c].pc == Inserted ==> s.callers[c].eventId != s.db.next
  {
    assert forall c :: c in s.callers ==> CallerOk(s.db, s.callers[c]);
  }

  lemma QueueingStep(s: Sys, c: Id)
    requires c in s.callers && s.callers[c].pc == Inserted
    ensures CallerStep(s, c, true)
         == s.(queue := s.queue + multiset{s.callers[c].eventId},
               callers := s.callers[c := s.callers[c].(pc := Returned)])
  {
    hide CanSaveEvent, SomeActive, CurrentIds;
  }

  lemma QueueingKeepsInv(s: Sys, c: Id)
    requires Inv(s) && c in s.callers && s.callers[c].pc == Inserted
    ensures Inv(CallerStep(s, c, true))
  {
    hide TablesOk, WorkersOk, UndeliveredOk, CapturesOk, CallerStep;
    assert CallerOk(s.db, s.callers[c]);
    QueueingStep(s, c);
  }

  /** The caller's steps that only read. */
  lemma AskingKeepsCaller(s: Sys, c: Id)
    requires FreshIds(s.db) && c in s.callers && CallerOk(s.db, s.callers[c])
    requires var pc := s.callers[c].pc; pc == Arrived || pc == ServiceFound || pc == TargetFound || pc == CurrentFound
    ensures var s' := CallerStep(s, c, true);
            && c in s'.callers && CallerOk(s.db, s'.callers[c]) && s'.callers[c].pc != Inserted
            && s' == s.(callers := s.callers[c := s'.callers[c]])
            && CallerStep(s, c, false) == s'
  {
  }

  lemma RefusingKeepsInv(s: Sys, c: Id)
    requires Inv(s) && c in s.callers
    ensures Inv(s.(callers := s.callers[c := s.callers[c].(pc := Refused)]))
  {
    assert CallerOk(s.db, s.callers[c]);
    hide Inv;
    MovingCallerKeepsInv(s, c, s.callers[c].(pc := Refused));
  }

  lemma SavingCallerKeepsInv(s: Sys, c: Id, addWorks: bool)
    requires Inv(s) && c in s.callers && s.callers[c].pc == NoneActive
    ensures Inv(CallerStep(s, c, addWorks))
  {
    hide Inv, CanSaveEvent, NewEvent;
    if CanSaveEvent(s.db, s.db.next, NewEvent(s.callers[c])) {
      InsertingKeepsInv(s, c);
    } else {
      RefusingKeepsInv(s, c);
    }
  }

  lemma QueueingCallerKeepsInv(s: Sys, c: Id, addWorks: bool)
    requires Inv(s) && c in s.callers && s.callers[c].pc == Inserted
    ensures Inv(CallerStep(s, c, addWorks))
  {
    assert CallerOk(s.db, s.callers[c]);
    hide Inv;
    if addWorks {
      QueueingKeepsInv(s, c);
    } else {
      MovingCallerKeepsInv(s, c, s.callers[c].(pc := Stranded));
    }
  }

  lemma CallKeepsInv(s: Sys, c: Id, addWorks: bool)
    requires Inv(s) && c in s.callers
    ensures Inv(CallerStep(s, c, addWorks))
  {
    var k := s.callers[c];
    assert CallerOk(s.db, k);
    TablesFresh(s.db);
    hide Inv, TablesOk;
    if k.pc == NoneActive {
      hide CallerStep;
      SavingCallerKeepsInv(s, c, addWorks);
    } else if k.pc == Inserted {
      hide CallerStep;
      QueueingCallerKeepsInv(s, c, addWorks);
    } else if k.pc != Returned && k.pc != Refused && k.pc != Stranded {
      hide CallerStep;
      AskingKeepsCaller(s, c);
      MovingCallerKeepsInv(s, c, CallerStep(s, c, true).callers[c]);
    }
  }

  // Delivery

  lemma DeliverKeepsInv(s: Sys, e: Id, worker: Worker)
    requires Inv(s) && Enabled(s, Deliver(e, worker))
    ensures Inv(Apply(s, Deliver(e, worker)))
  {
    hide TablesOk, CallersOk, CapturesOk;
    assert s.queue[e] == 1;
    hide GoneTogether, StageOk, StoredAs, ServiceCopyOk, FlipsOk, FreshIds;
  }

  // Syncs and hosts

  lemma DisturbKeeps(db: Db, workers: map<Id, Worker>, hostId: Id, serviceId: Id)
    requires WorkersOk(db, workers)
    ensures WorkersOk(db, Disturb(workers, hostId, serviceId))
    ensures Disturb(workers, hostId, serviceId).Keys == workers.Keys
  {
    forall e | e in workers
      ensures WorkerOk(db, e, workers[e].(undisturbed := false))
    {
      assert WorkerOk(db, e, workers[e]);
    }
  }

  /** Any change of the tables that removes nothing and writes no event keeps the invariant. */
  lemma QuietChangeKeepsInv(s: Sys, db: Db)
    requires Inv(s) && TablesOk(db) && Keeps(s.db, db) && db.events == s.db.events
    requires forall x :: Around(s.db, db, x)
    ensures Inv(s.(db := db))
  {
    TablesFresh(s.db);
    hide TablesOk, Around, Keeps, GoesAsAWhole, WorkerOk;
    forall x | x in s.workers
      ensures GoesAsAWhole(s.db, db, x, s.workers[x])
    {
      KeepsGoesAsAWhole(s.db, db, x, s.workers[x]);
    }
    OthersKeep(s.db, db, s.workers, {});
    RestKeeps(s.db, db, 0, s);
    UndeliveredKeeps(s.db, db, s.workers);
  }

  lemma DisturbKeepsInv(s: Sys, hostId: Id, serviceId: Id)
    requires Inv(s)
    ensures Inv(s.(workers := Disturb(s.workers, hostId, serviceId)))
  {
    DisturbKeeps(s.db, s.workers, hostId, serviceId);
    hide TablesOk, WorkersOk, CallersOk, CapturesOk, Disturb;
  }

  lemma SyncSaveKeepsTables(db: Db, id: Id, row: Service, logs: multiset<HealthLog>, alerts: multiset<Alert>)
    requires TablesOk(db) && CanSaveService(db, id, row)
    requires if id in db.services then row.hostId == db.services[id].hostId && row.orgId == db.services[id].orgId
             else id == db.next
    ensures TablesOk(AfterSyncSave(db, id, row, logs, alerts))
  {
    if id in db.services {
      SaveServiceKeepsTables(db, id, row);
    } else {
      InsertServiceKeepsTables(db, row);
    }
  }

  lemma SyncSaveAround(db: Db, id: Id, row: Service, logs: multiset<HealthLog>, alerts: multiset<Alert>, mine: Id)
    requires if id in db.services then row.hostId == db.services[id].hostId && row.orgId == db.services[id].orgId
             else id == db.next
    ensures Around(db, AfterSyncSave(db, id, row, logs, alerts), mine)
    ensures Keeps(db, AfterSyncSave(db, id, row, logs, alerts))
  {
  }

  lemma SyncSaveKeepsInv(s: Sys, id: Id, row: Service, logs: multiset<HealthLog>, alerts: multiset<Alert>)
    requires Inv(s) && Enabled(s, SyncSave(id, row, logs, alerts))
    ensures Inv(Apply(s, SyncSave(id, row, logs, alerts)))
  {
    var db := AfterSyncSave(s.db, id, row, logs, alerts);
    hide TablesOk, Around, Keeps, AfterSyncSave;
    assert TablesOk(s.db);
    SyncSaveKeepsTables(s.db, id, row, logs, alerts);
    forall x
      ensures Around(s.db, db, x) && Keeps(s.db, db)
    {
      SyncSaveAround(s.db, id, row, logs, alerts, x);
    }
    hide Inv, Disturb;
    SyncSaveLeavesEvents(s.db, id, row, logs, alerts);
    assert Around(s.db, db, 0);
    QuietChangeKeepsInv(s, db);
    DisturbKeepsInv(s.(db := db), row.hostId, id);
    SyncSaveEffect(s, id, row, logs, alerts);
  }

  lemma SyncSaveLeavesEvents(db: Db, id: Id, row: Service, logs: multiset<HealthLog>, alerts: multiset<Alert>)
    ensures AfterSyncSave(db, id, row, logs, alerts).events == db.events
  {
  }

  lemma SyncSaveEffect(s: Sys, id: Id, row: Service, logs: multiset<HealthLog>, alerts: multiset<Alert>)
    requires Enabled(s, SyncSave(id, row, logs, alerts))
    ensures Apply(s, SyncSave(id, row, logs, alerts))
         == s.(db := AfterSyncSave(s.db, id, row, logs, alerts), workers := Disturb(s.workers, row.hostId, id))
  {
    hide Disturb;
  }

  lemma CaptureBeginKeepsInv(s: Sys, t: Id, capture: Capture)
    requires Inv(s) && Enabled(s, CaptureBegin(t, capture))
    ensures Inv(Apply(s, CaptureBegin(t, capture)))
  {
    TablesFresh(s.db);
    assert FlipsOk(s.db, capture.flips, capture.serviceId);
    hide TablesOk, WorkersOk, UndeliveredOk, CallersOk, InsertedOk, QueueOk;
  }

  lemma CapturedKeepsInv(s: Sys, x: Capture)
    requires Inv(s) && FlipsOk(s.db, x.flips, x.serviceId) && CanCommit(s.db, x.serviceId, x.flips)
    ensures Inv(s.(db := Commit(s.db, x.flips, CapturedSnapshot(x))))
  {
    var row := CapturedSnapshot(x);
    var db := Commit(s.db, x.flips, row);
    CommitKeepsTables(s.db, x.flips, row);
    forall y
      ensures Around(s.db, db, y)
    {
      CommitAround(s.db, x.flips, row, y);
    }
    CommitKeeps(s.db, x.flips, row);
    CommitLeavesEvents(s.db, x.flips, row);
    QuietChangeKeepsInv(s, db);
  }

  lemma CaptureEndKeepsInv(s: Sys, t: Id)
    requires Inv(s) && t in s.captures
    ensures Inv(Apply(s, CaptureEnd(t)))
  {
    var x := s.captures[t];
    assert FlipsOk(s.db, x.flips, x.serviceId);
    var s1 := if CanCommit(s.db, x.serviceId, x.flips) then s.(db := Commit(s.db, x.flips, CapturedSnapshot(x))) else s;
    if CanCommit(s.db, x.serviceId, x.flips) {
      CapturedKeepsInv(s, x);
    }
    var s2 := s1.(captures := s1.captures - {t});
    assert Inv(s2) by {
      hide TablesOk, WorkersOk, UndeliveredOk, CallersOk, InsertedOk, QueueOk;
    }
    if x.serviceId in s.db.services {
      DisturbKeepsInv(s2, s.db.services[x.serviceId].hostId, x.serviceId);
    }
  }

  lemma AddHostAround(db: Db, mine: Id)
    ensures Around(db, AddHost(db), mine)
  {
  }

  lemma AddHostKeepsWorker(db: Db, e: Id, w: Worker)
    requires FreshIds(db) && WorkerOk(db, e, w)
    ensures WorkerOk(AddHost(db), e, w)
  {
  }

  lemma NewHostKeepsInv(s: Sys)
    requires Inv(s)
    ensures Inv(Apply(s, NewHost))
  {
    AddHostKeepsTables(s.db);
    var db := AddHost(s.db);
    TablesFresh(s.db);
    hide TablesOk, Around, WorkerOk, CallersOk, InsertedOk, QueueOk, CapturesOk;
    forall x | x in s.workers
      ensures WorkerOk(db, x, s.workers[x])
    {
      AddHostKeepsWorker(s.db, x, s.workers[x]);
    }
    AddHostAround(s.db, 0);
    RestKeeps(s.db, db, 0, s);
  }

  lemma DropAround(db: Db, h: Id, mine: Id)
    ensures Around(db, RemoveHost(db, h), mine)
  {
  }

  lemma DropGoesAsAWhole(db: Db, h: Id, e: Id, w: Worker)
    requires TablesOk(db) && WorkerOk(db, e, w)
    ensures GoesAsAWhole(db, RemoveHost(db, h), e, w)
  {
    if e in db.events {
      assert EventReferences(db.services, db.snapshots, db.events[e]);
    }
  }

  lemma DropLeavesRows(db: Db, h: Id)
    ensures var after := RemoveHost(db, h);
            forall i :: i in after.events ==> i in db.events && after.events[i] == db.events[i]
  {
  }

  lemma DropHostKeepsInv(s: Sys, h: Id)
    requires Inv(s) && h in s.db.hosts
    ensures Inv(Apply(s, DropHost(h)))
  {
    hide TablesOk, FreshIds, Around, GoesAsAWhole, WorkerOk, RemoveHost;
    hide CallersOk, CapturesOk, QueueOk, InsertedOk, UndeliveredOk;
    var db := RemoveHost(s.db, h);
    RemoveHostKeepsTables(s.db, h);
    TablesFresh(s.db);
    DropLeavesRows(s.db, h);
    forall x | x in s.workers
      ensures GoesAsAWhole(s.db, db, x, s.workers[x])
    {
      DropGoesAsAWhole(s.db, h, x, s.workers[x]);
    }
    forall x
      ensures Around(s.db, db, x)
    {
      DropAround(s.db, h, x);
    }
    OthersKeep(s.db, db, s.workers, {});
    RestKeeps(s.db, db, 0, s);
    UndeliveredKeeps(s.db, db, s.workers);
  }

  /** Every step of every participant keeps the invariant. */
  lemma StepKeepsInv(s: Sys, step: Label)
    requires Inv(s) && Enabled(s, step)
    ensures Inv(Apply(s, step))
  {
    match step
    case Arrive(c, caller) =>
      MovingCallerKeepsInv(s, c, caller);
    case Call(c, addWorks) =>
      CallKeepsInv(s, c, addWorks);
    case Deliver(e, worker) =>
      DeliverKeepsInv(s, e, worker);
    case Work(e) =>
      WorkKeepsInv(s, e);
    case SyncSave(id, row, logs, alerts) =>
      SyncSaveKeepsInv(s, id, row, logs, alerts);
    case CaptureBegin(t, capture) =>
      CaptureBeginKeepsInv(s, t, capture);
    case CaptureEnd(t) =>
      CaptureEndKeepsInv(s, t);
    case NewHost =>
      NewHostKeepsInv(s);
    case DropHost(h) =>
      DropHostKeepsInv(s, h);
  }

  lemma {:induction false} RunKeepsInv(s: Sys, steps: seq<Label>)
    requires Inv(s) && IsRun(s, steps)
    ensures Inv(After(s, steps))
    decreases |steps|
  {
    if steps != [] {
      StepKeepsInv(s, steps[0]);
      RunKeepsInv(Apply(s, steps[0]), steps[1..]);
    }
  }

  lemma InitiallyInv()
    ensures Inv(INITIAL)
  {
  }
}
