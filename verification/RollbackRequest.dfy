/** Asking for a rollback: the checks, the new event row and its job. */
module RollbackRequest {
  import opened Wrappers
  import opened Tables
  import opened Repositories
  import opened DeploymentSnapshots
  import opened Rollback

  datatype Request = Request(orgId: Id, serviceId: Id, targetSnapshotId: Id, userId: Id)

  datatype Reply =
    | Accepted(eventId: Id)
    | ServiceNotFound
    | SnapshotNotOfService
    | NoHistory
    | AlreadyActive
    | QueueFailed(eventId: Id)

  predicate InOrganisation(db: Db, r: Request) {
    r.serviceId in db.services && db.services[r.serviceId].orgId == r.orgId
  }

  /**
    What a request needs: a service of the organisation, a target and a current snapshot of it, and no active
    rollback.
   */
  predicate Acceptable(db: Db, r: Request) {
    && InOrganisation(db, r)
    && SnapshotOf(db.snapshots, r.targetSnapshotId, r.serviceId)
    && CurrentIds(db, r.serviceId) != {}
    && !SomeActive(db, r.serviceId)
  }

  /** Each check, said of the rows: a request passes all four exactly when it is acceptable. */
  lemma ChecksAre(db: Db, r: Request)
    ensures InOrganisation(db, r) <==> r.serviceId in db.services && db.services[r.serviceId].orgId == r.orgId
    ensures SnapshotOf(db.snapshots, r.targetSnapshotId, r.serviceId)
       <==> r.targetSnapshotId in db.snapshots && db.snapshots[r.targetSnapshotId].serviceId == r.serviceId
    ensures CurrentIds(db, r.serviceId) != {}
       <==> exists i :: i in db.snapshots && db.snapshots[i].serviceId == r.serviceId && db.snapshots[i].isCurrent
    ensures SomeActive(db, r.serviceId)
       <==> exists i :: i in db.events && db.events[i].serviceId == r.serviceId
                        && db.events[i].status in {Pending, InProgress}
    ensures Acceptable(db, r)
       <==> && InOrganisation(db, r) && SnapshotOf(db.snapshots, r.targetSnapshotId, r.serviceId)
            && CurrentIds(db, r.serviceId) != {} && !SomeActive(db, r.serviceId)
  {
    if i :| i in db.snapshots && db.snapshots[i].serviceId == r.serviceId && db.snapshots[i].isCurrent {
      assert i in CurrentIds(db, r.serviceId);
    }
    if i :| i in CurrentIds(db, r.serviceId) {
      assert db.snapshots[i].isCurrent;
    }
  }

  ghost function CurrentOf(db: Db, serviceId: Id): (i: Id)
    requires CurrentIds(db, serviceId) != {}
    ensures i in CurrentIds(db, serviceId)
  {
    var i :| i in CurrentIds(db, serviceId);
    i
  }

  ghost function Requested(db: Db, r: Request): Event
    requires Acceptable(db, r)
  {
    Event(r.serviceId, CurrentOf(db, r.serviceId), r.targetSnapshotId, r.userId, Pending, [], None)
  }

  /** The tables with the new pending event. */
  ghost function Enqueued(db: Db, r: Request): Db
    requires Acceptable(db, r)
  {
    PutEvent(db, db.next, Requested(db, r)).(next := db.next + 1)
  }

  /** With the tables consistent, the insert of an acceptable request is accepted as well. */
  lemma InsertWorks(db: Db, r: Request)
    requires TablesOk(db) && Acceptable(db, r)
    ensures CanSaveEvent(db, db.next, Requested(db, r)) && TablesOk(Enqueued(db, r))
    ensures CurrentIds(db, r.serviceId) == {CurrentOf(db, r.serviceId)}
  {
    var i := CurrentOf(db, r.serviceId);
    AtMostOneCurrentId(db, r.serviceId, i);
    InsertEventKeepsTables(db, Requested(db, r));
  }

  /**
    One event is added: pending, with an empty log, from a current snapshot of the service to the snapshot that is asked
    for, in the name of the user who asks. Nothing else changes.
   */
  predicate AddsAsAsked(db: Db, after: Db, r: Request, id: Id) {
    && after == db.(events := after.events, next := id + 1)
    && id !in db.events && after.events.Keys == db.events.Keys + {id}
    && (forall i :: i in db.events ==> after.events[i] == db.events[i])
    && after.events[id].serviceId == r.serviceId && after.events[id].triggeredBy == r.userId
    && after.events[id].toSnapshotId == r.targetSnapshotId
    && after.events[id].fromSnapshotId in CurrentIds(db, r.serviceId)
    && after.events[id].status == Pending && after.events[id].log == [] && after.events[id].completedAt == None
  }

  lemma EnqueuedAsAsked(db: Db, r: Request)
    requires TablesOk(db) && Acceptable(db, r)
    ensures AddsAsAsked(db, Enqueued(db, r), r, db.next)
  {
    assert db.next !in db.events.Keys;
    hide TablesOk, Acceptable, CurrentIds;
  }

  /** An accepted request shuts out the next one for its service, whatever its target, until its event is finished. */
  lemma SecondRequestRefused(db: Db, first: Request, second: Request)
    requires TablesOk(db) && Acceptable(db, first) && second.serviceId == first.serviceId
    ensures !Acceptable(Enqueued(db, first), second)
  {
    assert Enqueued(db, first).events[db.next] == Requested(db, first);
    assert SomeActive(Enqueued(db, first), second.serviceId);
  }

  class RollbackService {
    const db: Database
    const snapshots: DeploymentSnapshotsService
    var queue: multiset<Id>

    constructor (db: Database)
      ensures this.db == db && snapshots.db == db && queue == multiset{}
    {
      this.db := db;
      snapshots := new DeploymentSnapshotsService(db);
      queue := multiset{};
    }

    /** The end of an acceptable request: the insert of its event, and the job. */
    method InsertAndQueue(r: Request, current: Id, addWorks: bool) returns (reply: Reply)
      requires db.Valid() && Acceptable(db.State(), r) && current in CurrentIds(db.State(), r.serviceId)
      modifies this`queue, db
      ensures db.Valid() && db.State() == Enqueued(old(db.State()), r)
      ensures reply == if addWorks then Accepted(old(db.next)) else QueueFailed(old(db.next))
      ensures queue == if addWorks then old(queue) + multiset{old(db.next)} else old(queue)
    {
      InsertWorks(db.State(), r);
      hide TablesOk, CanSaveEvent, SomeActive, CurrentIds;
      var id, _ := db.InsertEvent(Event(r.serviceId, current, r.targetSnapshotId, r.userId, Pending, [], None));
      if !addWorks {
        return QueueFailed(id);
      }
      queue := queue + multiset{id};
      return Accepted(id);
    }

    /**
      Accepts exactly the acceptable requests. When the queue then refuses the job, the caller gets the error but the
      pending event stays.
     */
    method EnqueueRollback(r: Request, addWorks: bool) returns (reply: Reply)
      requires db.Valid() && snapshots.db == db
      modifies this`queue, db
      ensures db.Valid()
      ensures reply.ServiceNotFound? <==> !InOrganisation(old(db.State()), r)
      ensures reply.SnapshotNotOfService? <==>
                InOrganisation(old(db.State()), r) && !SnapshotOf(old(db.snapshots), r.targetSnapshotId, r.serviceId)
      ensures reply.NoHistory? <==>
                && InOrganisation(old(db.State()), r) && SnapshotOf(old(db.snapshots), r.targetSnapshotId, r.serviceId)
                && CurrentIds(old(db.State()), r.serviceId) == {}
      ensures reply.AlreadyActive? <==>
                && InOrganisation(old(db.State()), r) && SnapshotOf(old(db.snapshots), r.targetSnapshotId, r.serviceId)
                && CurrentIds(old(db.State()), r.serviceId) != {} && SomeActive(old(db.State()), r.serviceId)
      ensures Acceptable(old(db.State()), r) <==> reply.Accepted? || reply.QueueFailed?
      ensures Acceptable(old(db.State()), r) ==>
                && reply == (if addWorks then Accepted(old(db.next)) else QueueFailed(old(db.next)))
                && db.State() == Enqueued(old(db.State()), r)
      ensures Acceptable(old(db.State()), r) ==> AddsAsAsked(old(db.State()), db.State(), r, old(db.next))
      ensures !Acceptable(old(db.State()), r) ==> db.State() == old(db.State())
      ensures queue == if reply.Accepted? then old(queue) + multiset{reply.eventId} else old(queue)
    {
      if r.serviceId !in db.services || db.services[r.serviceId].orgId != r.orgId {
        return ServiceNotFound;
      }
      var target := snapshots.FindOneForService(r.serviceId, r.targetSnapshotId);
      if target.None? {
        return SnapshotNotOfService;
      }
      var current := snapshots.FindCurrentForService(r.serviceId);
      if current.None? {
        return NoHistory;
      }
      if SomeActive(db.State(), r.serviceId) {
        return AlreadyActive;
      }
      EnqueuedAsAsked(db.State(), r);
      assert current.value in CurrentIds(db.State(), r.serviceId);
      hide TablesOk, Enqueued, SomeActive, CurrentIds, AddsAsAsked;
      reply := InsertAndQueue(r, current.value, addWorks);
    }
  }

  // ---------- As a run of the system ----------

  function RequestOf(k: Caller): Request {
    Request(k.orgId, k.serviceId, k.targetSnapshotId, k.userId)
  }

  function CallSteps(c: Id, addWorks: bool, n: nat): seq<Label> {
    seq(n, _ => Call(c, addWorks))
  }

  lemma CallFirst(s: Sys, c: Id, addWorks: bool, n: nat)
    requires c in s.callers && n > 0 && IsRun(CallerStep(s, c, addWorks), CallSteps(c, addWorks, n - 1))
    ensures IsRun(s, CallSteps(c, addWorks, n))
    ensures After(s, CallSteps(c, addWorks, n)) == After(CallerStep(s, c, addWorks), CallSteps(c, addWorks, n - 1))
  {
    assert CallSteps(c, addWorks, n)[0] == Call(c, addWorks);
    assert CallSteps(c, addWorks, n)[1..] == CallSteps(c, addWorks, n - 1);
    hide CallerStep;
  }

  predicate CallerDone(pc: CallerPc) {
    pc == Returned || pc == Refused || pc == Stranded
  }

  lemma {:induction false} DoneStays(s: Sys, c: Id, addWorks: bool, n: nat)
    requires c in s.callers && CallerDone(s.callers[c].pc)
    ensures IsRun(s, CallSteps(c, addWorks, n)) && After(s, CallSteps(c, addWorks, n)) == s
  {
    if n > 0 {
      DoneStays(s, c, addWorks, n - 1);
      CallFirst(s, c, addWorks, n);
    }
  }

  function Moved(s: Sys, c: Id, pc: CallerPc): Sys
    requires c in s.callers
  {
    s.(callers := s.callers[c := s.callers[c].(pc := pc)])
  }

  /** From a caller's state on, the next n steps of its own lead to s'. */
  ghost predicate Leads(s: Sys, c: Id, addWorks: bool, n: nat, s': Sys) {
    IsRun(s, CallSteps(c, addWorks, n)) && After(s, CallSteps(c, addWorks, n)) == s'
  }

  lemma StepThenLeads(s: Sys, c: Id, addWorks: bool, n: nat, s1: Sys, s': Sys)
    requires c in s.callers && n > 0 && CallerStep(s, c, addWorks) == s1 && Leads(s1, c, addWorks, n - 1, s')
    ensures Leads(s, c, addWorks, n, s')
  {
    CallFirst(s, c, addWorks, n);
  }

  lemma RefusedLeads(s: Sys, c: Id, addWorks: bool, n: nat)
    requires c in s.callers && n > 0 && CallerStep(s, c, addWorks) == Moved(s, c, Refused)
    ensures Leads(s, c, addWorks, n, Moved(s, c, Refused))
  {
    DoneStays(Moved(s, c, Refused), c, addWorks, n - 1);
    hide CallerStep;
    StepThenLeads(s, c, addWorks, n, Moved(s, c, Refused), Moved(s, c, Refused));
  }

  /** The state after the insert and the queue's add. */
  ghost function Answered(s: Sys, c: Id, current: Id, addWorks: bool): Sys
    requires c in s.callers && Acceptable(s.db, RequestOf(s.callers[c]))
  {
    var id := s.db.next;
    var k := s.callers[c].(currentSnapshotId := current, eventId := id, pc := if addWorks then Returned else Stranded);
    s.(db := Enqueued(s.db, RequestOf(s.callers[c])), callers := s.callers[c := k],
       queue := if addWorks then s.queue + multiset{id} else s.queue)
  }

  /** The state after the insert. */
  ghost function InsertedBy(s: Sys, c: Id): Sys
    requires c in s.callers && Acceptable(s.db, RequestOf(s.callers[c]))
  {
    s.(db := Enqueued(s.db, RequestOf(s.callers[c])),
       callers := s.callers[c := s.callers[c].(eventId := s.db.next, pc := Inserted)])
  }

  lemma InsertStep(s: Sys, c: Id, addWorks: bool)
    requires TablesOk(s.db) && c in s.callers && s.callers[c].pc == NoneActive
    requires Acceptable(s.db, RequestOf(s.callers[c]))
    requires s.callers[c].currentSnapshotId == CurrentOf(s.db, s.callers[c].serviceId)
    ensures CallerStep(s, c, addWorks) == InsertedBy(s, c)
  {
    InsertWorks(s.db, RequestOf(s.callers[c]));
    assert NewEvent(s.callers[c]) == Requested(s.db, RequestOf(s.callers[c]));
    hide TablesOk, CanSaveEvent, Acceptable, SomeActive, CurrentIds;
  }

  lemma AddStep(s: Sys, c: Id, addWorks: bool)
    requires c in s.callers && Acceptable(s.db, RequestOf(s.callers[c]))
    ensures CallerStep(InsertedBy(s, c), c, addWorks) == Answered(s, c, s.callers[c].currentSnapshotId, addWorks)
  {
    hide Acceptable, SomeActive, CurrentIds, CanSaveEvent, Enqueued;
  }

  lemma InsertingLeads(s: Sys, c: Id, addWorks: bool)
    requires TablesOk(s.db) && c in s.callers && s.callers[c].pc == NoneActive
    requires Acceptable(s.db, RequestOf(s.callers[c]))
    requires s.callers[c].currentSnapshotId == CurrentOf(s.db, s.callers[c].serviceId)
    ensures Leads(s, c, addWorks, 2, Answered(s, c, s.callers[c].currentSnapshotId, addWorks))
  {
    var s1 := InsertedBy(s, c);
    var s2 := Answered(s, c, s.callers[c].currentSnapshotId, addWorks);
    assert Leads(s2, c, addWorks, 0, s2);
    assert c in s1.callers;
    hide TablesOk, Acceptable, CallerStep, Leads, Answered, InsertedBy;
    InsertStep(s, c, addWorks);
    AddStep(s, c, addWorks);
    StepThenLeads(s1, c, addWorks, 1, s2, s2);
    StepThenLeads(s, c, addWorks, 2, s1, s2);
  }

  lemma CheckingLeads(s: Sys, c: Id, addWorks: bool)
    requires TablesOk(s.db) && c in s.callers && s.callers[c].pc == CurrentFound
    requires var k := s.callers[c];
             && InOrganisation(s.db, RequestOf(k)) && SnapshotOf(s.db.snapshots, k.targetSnapshotId, k.serviceId)
             && CurrentIds(s.db, k.serviceId) != {} && k.currentSnapshotId == CurrentOf(s.db, k.serviceId)
    ensures Leads(s, c, addWorks, 3,
                  if Acceptable(s.db, RequestOf(s.callers[c]))
                  then Answered(s, c, s.callers[c].currentSnapshotId, addWorks)
                  else Moved(s, c, Refused))
  {
    hide TablesOk, CanSaveEvent, SomeActive, Leads;
    if SomeActive(s.db, s.callers[c].serviceId) {
      RefusedLeads(s, c, addWorks, 3);
    } else {
      var s1 := Moved(s, c, NoneActive);
      InsertingLeads(s1, c, addWorks);
      var i := s.callers[c].currentSnapshotId;
      assert Answered(s1, c, i, addWorks) == Answered(s, c, i, addWorks);
      StepThenLeads(s, c, addWorks, 3, s1, Answered(s, c, s.callers[c].currentSnapshotId, addWorks));
    }
  }

  /** The same answer and the same tables as the method's. */
  ghost predicate AnsweredAs(s: Sys, s': Sys, c: Id, addWorks: bool)
    requires c in s.callers
  {
    var r := RequestOf(s.callers[c]);
    && c in s'.callers
    && if !Acceptable(s.db, r) then s'.db == s.db && s'.queue == s.queue && s'.callers[c].pc == Refused
       else
         && s'.db == Enqueued(s.db, r)
         && s'.queue == (if addWorks then s.queue + multiset{s.db.next} else s.queue)
         && s'.callers[c].pc == (if addWorks then Returned else Stranded)
  }

  lemma RefusedIsAnswered(s: Sys, c: Id, k: Caller, addWorks: bool)
    requires c in s.callers && !Acceptable(s.db, RequestOf(s.callers[c]))
    ensures AnsweredAs(s, Moved(s.(callers := s.callers[c := k]), c, Refused), c, addWorks)
  {
    hide Acceptable;
  }

  /** What a caller is answered does not depend on how far it has come. */
  lemma AnsweredFromThere(s: Sys, c: Id, k: Caller, s': Sys, addWorks: bool)
    requires c in s.callers && RequestOf(k) == RequestOf(s.callers[c])
    requires AnsweredAs(s.(callers := s.callers[c := k]), s', c, addWorks)
    ensures AnsweredAs(s, s', c, addWorks)
  {
    hide Acceptable, Enqueued;
  }

  lemma AcceptedIsAnswered(s: Sys, c: Id, i: Id, addWorks: bool)
    requires c in s.callers && Acceptable(s.db, RequestOf(s.callers[c]))
    ensures AnsweredAs(s, Answered(s, c, i, addWorks), c, addWorks)
  {
    hide Acceptable, Enqueued;
  }

  lemma NoCurrentLeads(s: Sys, c: Id, addWorks: bool)
    requires c in s.callers && s.callers[c].pc == TargetFound && CurrentIds(s.db, s.callers[c].serviceId) == {}
    ensures exists s' :: Leads(s, c, addWorks, 4, s') && AnsweredAs(s, s', c, addWorks)
  {
    hide CurrentIds, Leads, AnsweredAs, SomeActive, CanSaveEvent;
    RefusedLeads(s, c, addWorks, 4);
    RefusedIsAnswered(s, c, s.callers[c], addWorks);
    assert s.(callers := s.callers[c := s.callers[c]]) == s;
  }

  lemma SomeCurrentLeads(s: Sys, c: Id, addWorks: bool)
    requires TablesOk(s.db) && c in s.callers && s.callers[c].pc == TargetFound
    requires InOrganisation(s.db, RequestOf(s.callers[c]))
    requires SnapshotOf(s.db.snapshots, s.callers[c].targetSnapshotId, s.callers[c].serviceId)
    requires CurrentIds(s.db, s.callers[c].serviceId) != {}
    ensures exists s' :: Leads(s, c, addWorks, 4, s') && AnsweredAs(s, s', c, addWorks)
  {
    hide TablesOk, CurrentIds, Leads, AnsweredAs, CallerStep, CurrentOf, InOrganisation, SnapshotOf;
    var k := s.callers[c];
    var k1 := k.(currentSnapshotId := CurrentOf(s.db, k.serviceId), pc := CurrentFound);
    var s1 := s.(callers := s.callers[c := k1]);
    assert RequestOf(k1) == RequestOf(k);
    TakingCurrentIsAStep(s, c, addWorks);
    FoundLeads(s1, c, addWorks);
    var s' :| Leads(s1, c, addWorks, 3, s') && AnsweredAs(s1, s', c, addWorks);
    StepThenLeads(s, c, addWorks, 4, s1, s');
    AnsweredFromThere(s, c, k1, s', addWorks);
  }

  lemma FindingCurrentLeads(s: Sys, c: Id, addWorks: bool)
    requires TablesOk(s.db) && c in s.callers && s.callers[c].pc == TargetFound
    requires InOrganisation(s.db, RequestOf(s.callers[c]))
    requires SnapshotOf(s.db.snapshots, s.callers[c].targetSnapshotId, s.callers[c].serviceId)
    ensures exists s' :: Leads(s, c, addWorks, 4, s') && AnsweredAs(s, s', c, addWorks)
  {
    hide TablesOk, CurrentIds, Leads, AnsweredAs, InOrganisation, SnapshotOf;
    if CurrentIds(s.db, s.callers[c].serviceId) == {} {
      NoCurrentLeads(s, c, addWorks);
    } else {
      SomeCurrentLeads(s, c, addWorks);
    }
  }

  lemma FoundLeads(s: Sys, c: Id, addWorks: bool)
    requires TablesOk(s.db) && c in s.callers && s.callers[c].pc == CurrentFound
    requires var k := s.callers[c];
             && InOrganisation(s.db, RequestOf(k)) && SnapshotOf(s.db.snapshots, k.targetSnapshotId, k.serviceId)
             && CurrentIds(s.db, k.serviceId) != {} && k.currentSnapshotId == CurrentOf(s.db, k.serviceId)
    ensures exists s' :: Leads(s, c, addWorks, 3, s') && AnsweredAs(s, s', c, addWorks)
  {
    hide TablesOk, Leads, AnsweredAs, CallerStep, Answered;
    CheckingLeads(s, c, addWorks);
    if Acceptable(s.db, RequestOf(s.callers[c])) {
      AcceptedIsAnswered(s, c, s.callers[c].currentSnapshotId, addWorks);
    } else {
      RefusedIsAnswered(s, c, s.callers[c], addWorks);
      assert s.(callers := s.callers[c := s.callers[c]]) == s;
    }
  }

  lemma TakingCurrentIsAStep(s: Sys, c: Id, addWorks: bool)
    requires TablesOk(s.db) && c in s.callers && s.callers[c].pc == TargetFound
    requires CurrentIds(s.db, s.callers[c].serviceId) != {}
    ensures var k := s.callers[c];
            CallerStep(s, c, addWorks)
            == s.(callers := s.callers[c := k.(currentSnapshotId := CurrentOf(s.db, k.serviceId), pc := CurrentFound)])
  {
    AtMostOneCurrentId(s.db, s.callers[c].serviceId, CurrentOf(s.db, s.callers[c].serviceId));
    hide TablesOk, CurrentIds, SomeActive, CanSaveEvent;
  }

  /** A caller's six steps, when nobody interferes, are the request's method: accepted exactly when acceptable. */
  lemma RequestAlone(s: Sys, c: Id, addWorks: bool)
    requires TablesOk(s.db) && c in s.callers && s.callers[c].pc == Arrived
    ensures exists s' :: Leads(s, c, addWorks, 6, s') && AnsweredAs(s, s', c, addWorks)
  {
    var k := s.callers[c];
    var r := RequestOf(k);
    assert s.(callers := s.callers[c := k]) == s;
    hide TablesOk, CurrentIds, Leads, SomeActive, CanSaveEvent, AnsweredAs;
    if !InOrganisation(s.db, r) {
      RefusedLeads(s, c, addWorks, 6);
      RefusedIsAnswered(s, c, k, addWorks);
    } else {
      var s1 := Moved(s, c, ServiceFound);
      if !SnapshotOf(s.db.snapshots, r.targetSnapshotId, r.serviceId) {
        RefusedLeads(s1, c, addWorks, 5);
        StepThenLeads(s, c, addWorks, 6, s1, Moved(s1, c, Refused));
        RefusedIsAnswered(s, c, k.(pc := ServiceFound), addWorks);
      } else {
        TargetFoundLeads(s, c, addWorks);
      }
    }
  }

  lemma TargetFoundLeads(s: Sys, c: Id, addWorks: bool)
    requires TablesOk(s.db) && c in s.callers && s.callers[c].pc == Arrived
    requires InOrganisation(s.db, RequestOf(s.callers[c]))
    requires SnapshotOf(s.db.snapshots, s.callers[c].targetSnapshotId, s.callers[c].serviceId)
    ensures exists s' :: Leads(s, c, addWorks, 6, s') && AnsweredAs(s, s', c, addWorks)
  {
    var k2 := s.callers[c].(pc := TargetFound);
    var s1 := Moved(s, c, ServiceFound);
    var s2 := s.(callers := s.callers[c := k2]);
    hide TablesOk, CurrentIds, Leads, SomeActive, CanSaveEvent, AnsweredAs;
    assert CallerStep(s, c, addWorks) == s1;
    assert CallerStep(s1, c, addWorks) == s2;
    hide CallerStep;
    FindingCurrentLeads(s2, c, addWorks);
    var s' :| Leads(s2, c, addWorks, 4, s') && AnsweredAs(s2, s', c, addWorks);
    StepThenLeads(s1, c, addWorks, 5, s2, s');
    StepThenLeads(s, c, addWorks, 6, s1, s');
    AnsweredFromThere(s, c, k2, s', addWorks);
  }
}
