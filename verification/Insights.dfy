/**
  Insights: which hosts are idle, which domains and hosts are orphaned, and the daily job that alerts
  when an entity starts to match.
 */
module Insights {
  import opened Wrappers
  import Alerts
  import HostLifecycle

  // ---------- Edge detection ----------

  datatype Flag = IdleHost | OrphanedDomain | OrphanedHost

  datatype Entity = Entity(id: Uuid, orgId: Uuid)

  datatype InsightAlert = InsightAlert(orgId: Uuid, entityId: Uuid, flag: Flag, condition: string)

  function ConditionFor(flag: Flag): string {
    match flag
    case IdleHost => "system:idle_host_detected"
    case OrphanedDomain => "system:orphan_detected"
    case OrphanedHost => "system:orphan_detected"
  }

  /** The insight_states table; its unique index makes (entity, flag) a key. */
  type States = map<(Uuid, Flag), bool>

  predicate Active(states: States, id: Uuid, flag: Flag) {
    (id, flag) in states && states[(id, flag)]
  }

  function Ids(entities: seq<Entity>): set<Uuid> {
    set e | e in entities :: e.id
  }

  function AlertFor(e: Entity, flag: Flag): InsightAlert {
    InsightAlert(e.orgId, e.id, flag, ConditionFor(flag))
  }

  /** One alert for each matching entity that was not active before, in order. */
  function NewAlerts(states: States, flag: Flag, matching: seq<Entity>): seq<InsightAlert> {
    if matching == [] then []
    else
      (if Active(states, matching[0].id, flag) then [] else [AlertFor(matching[0], flag)])
      + NewAlerts(states, flag, matching[1..])
  }

  /** After a run, a row of the flag is active exactly when its entity matched; rows of other flags are as before. */
  function NextStates(states: States, flag: Flag, matching: seq<Entity>): States {
    map k | k in states.Keys + (set id | id in Ids(matching) :: (id, flag))
      :: if k.1 == flag then k.0 in Ids(matching) else states[k]
  }

  lemma {:induction false} NewAlertsSnoc(states: States, flag: Flag, matching: seq<Entity>, e: Entity)
    ensures NewAlerts(states, flag, matching + [e])
         == NewAlerts(states, flag, matching) + (if Active(states, e.id, flag) then [] else [AlertFor(e, flag)])
  {
    if matching == [] {
      assert matching + [e] == [e] && [e][1..] == [];
    } else {
      NewAlertsSnoc(states, flag, matching[1..], e);
      assert (matching + [e])[1..] == matching[1..] + [e];
    }
  }

  /** The rows of the flag for these ids, set to one value. */
  function WithFlags(states: States, flag: Flag, ids: set<Uuid>, active: bool): States {
    map k | k in states.Keys + (set id | id in ids :: (id, flag))
      :: if k.1 == flag && k.0 in ids then active else states[k]
  }

  lemma WithNoFlags(states: States, flag: Flag, active: bool)
    ensures WithFlags(states, flag, {}, active) == states
  {
  }

  lemma WithOneMoreFlag(states: States, flag: Flag, ids: set<Uuid>, id: Uuid, active: bool)
    ensures WithFlags(states, flag, ids + {id}, active) == WithFlags(states, flag, ids, active)[(id, flag) := active]
  {
  }

  function ActiveIds(states: States, flag: Flag): set<Uuid> {
    set k | k in states && k.1 == flag && states[k] :: k.0
  }

  lemma ActiveIdsAre(states: States, flag: Flag, id: Uuid)
    ensures id in ActiveIds(states, flag) <==> Active(states, id, flag)
  {
    assert Active(states, id, flag) ==> (id, flag) in states;
  }

  /** Marking what matches and unmarking what was active and does not is the whole update. */
  lemma MarkedThenUnmarked(states: States, flag: Flag, matching: seq<Entity>, unmarked: set<Uuid>)
    requires unmarked == ActiveIds(states, flag) - Ids(matching)
    ensures WithFlags(WithFlags(states, flag, Ids(matching), true), flag, unmarked, false)
         == NextStates(states, flag, matching)
  {
    var marked := WithFlags(states, flag, Ids(matching), true);
    var next := NextStates(states, flag, matching);
    forall id | id in unmarked
      ensures (id, flag) in states
    {
      ActiveIdsAre(states, flag, id);
    }
    forall k | k in next && k.1 == flag && k.0 !in Ids(matching) && k.0 !in unmarked
      ensures !states[k]
    {
      ActiveIdsAre(states, flag, k.0);
      assert k == (k.0, flag);
    }
    assert WithFlags(marked, flag, unmarked, false).Keys == next.Keys;
  }

  /** What one more matching entity adds to the alerts and to the marked rows. */
  lemma OneMoreMatch(states: States, flag: Flag, matching: seq<Entity>, i: nat)
    requires i < |matching|
    ensures NewAlerts(states, flag, matching[..i + 1])
         == NewAlerts(states, flag, matching[..i])
            + (if matching[i].id in ActiveIds(states, flag) then [] else [AlertFor(matching[i], flag)])
    ensures WithFlags(states, flag, Ids(matching[..i + 1]), true)
         == WithFlags(states, flag, Ids(matching[..i]), true)[(matching[i].id, flag) := true]
  {
    assert matching[..i + 1] == matching[..i] + [matching[i]];
    assert Ids(matching[..i + 1]) == Ids(matching[..i]) + {matching[i].id};
    NewAlertsSnoc(states, flag, matching[..i], matching[i]);
    WithOneMoreFlag(states, flag, Ids(matching[..i]), matching[i].id, true);
    ActiveIdsAre(states, flag, matching[i].id);
  }

  class InsightsService {
    var states: States
    var alerts: seq<InsightAlert>

    constructor ()
      ensures states == map[] && alerts == []
    {
      states := map[];
      alerts := [];
    }

    method UpsertFlag(entityId: Uuid, flag: Flag, active: bool)
      modifies this`states
      ensures states == old(states)[(entityId, flag) := active]
    {
      states := states[(entityId, flag) := active];
    }

    /** Alerts for entities that newly match, marks every matching entity, and unmarks those that match no longer. */
    method EvaluateFlagTransitions(flag: Flag, currentlyMatching: seq<Entity>)
      modifies this
      ensures alerts == old(alerts) + NewAlerts(old(states), flag, currentlyMatching)
      ensures states == NextStates(old(states), flag, currentlyMatching)
    {
      var currentIds := Ids(currentlyMatching);
      var previouslyActiveIds := ActiveIds(states, flag);
      ghost var before := states;
      WithNoFlags(before, flag, true);
      assert currentlyMatching[..0] == [] && NewAlerts(before, flag, []) == [];
      assert Ids(currentlyMatching[..0]) == {} && currentlyMatching[..|currentlyMatching|] == currentlyMatching;
      hide NewAlerts, WithFlags, NextStates, ActiveIds, Ids;

      for i := 0 to |currentlyMatching|
        invariant alerts == old(alerts) + NewAlerts(before, flag, currentlyMatching[..i])
        invariant states == WithFlags(before, flag, Ids(currentlyMatching[..i]), true)
      {
        var entity := currentlyMatching[i];
        OneMoreMatch(before, flag, currentlyMatching, i);
        if entity.id !in previouslyActiveIds {
          alerts := alerts + [AlertFor(entity, flag)];
        }
        UpsertFlag(entity.id, flag, true);
      }

      ghost var marked := states;
      ghost var unmarked: set<Uuid> := {};
      var noLongerMatching := previouslyActiveIds - currentIds;
      WithNoFlags(marked, flag, false);
      while noLongerMatching != {}
        invariant alerts == old(alerts) + NewAlerts(before, flag, currentlyMatching)
        invariant unmarked + noLongerMatching == previouslyActiveIds - currentIds
        invariant states == WithFlags(marked, flag, unmarked, false)
      {
        var id :| id in noLongerMatching;
        WithOneMoreFlag(marked, flag, unmarked, id, false);
        UpsertFlag(id, flag, false);
        noLongerMatching := noLongerMatching - {id};
        unmarked := unmarked + {id};
      }
      MarkedThenUnmarked(before, flag, currentlyMatching, unmarked);
    }

    /** The daily job: the three queries over all organisations, each followed by its evaluation. */
    method RunDailyCheck(d: Day)
      modifies this
      ensures alerts == old(alerts) + AlertsOf(old(states), DayRuns(d))
      ensures states == StatesAfter(old(states), DayRuns(d))
    {
      ghost var before, runs := states, DayRuns(d);
      hide NextStates, NewAlerts, StatesAfter, AlertsOf, Filter;
      var idleHosts := ComputeIdleHosts(d.idle.hosts, d.idle.services, d.idle.now, None);
      EvaluateFlagTransitions(IdleHost, HostEntities(idleHosts));
      var orphanedDomains := ComputeOrphanedDomains(d.domains.domains, d.domains.hosts, None);
      EvaluateFlagTransitions(OrphanedDomain, DomainEntities(orphanedDomains));
      var orphanedHosts := ComputeOrphanedHosts(d.hosts.hosts, d.hosts.domains, None);
      EvaluateFlagTransitions(OrphanedHost, HostEntities(orphanedHosts));
      ThreeRuns(before, runs);
    }
  }

  lemma ThreeRuns(states: States, runs: seq<Run>)
    requires |runs| == 3
    ensures var s1 := NextStates(states, runs[0].flag, runs[0].matching);
            var s2 := NextStates(s1, runs[1].flag, runs[1].matching);
            && StatesAfter(states, runs) == NextStates(s2, runs[2].flag, runs[2].matching)
            && AlertsOf(states, runs) == NewAlerts(states, runs[0].flag, runs[0].matching)
                                         + NewAlerts(s1, runs[1].flag, runs[1].matching)
                                         + NewAlerts(s2, runs[2].flag, runs[2].matching)
  {
    hide NextStates, NewAlerts;
    var two := runs[1..];
    var one := two[1..];
    var s1 := NextStates(states, runs[0].flag, runs[0].matching);
    var s2 := NextStates(s1, runs[1].flag, runs[1].matching);
    assert two[0] == runs[1] && one[0] == runs[2] && one[1..] == [];
    assert StatesAfter(states, runs) == StatesAfter(s1, two) == StatesAfter(s2, one);
    assert StatesAfter(s2, one) == StatesAfter(NextStates(s2, runs[2].flag, runs[2].matching), one[1..]);
    var a0, a1 := NewAlerts(states, runs[0].flag, runs[0].matching), NewAlerts(s1, runs[1].flag, runs[1].matching);
    var a2 := NewAlerts(s2, runs[2].flag, runs[2].matching);
    assert AlertsOf(s2, one) == a2 + AlertsOf(NextStates(s2, runs[2].flag, runs[2].matching), []) == a2;
    assert AlertsOf(s1, two) == a1 + AlertsOf(s2, one);
    assert AlertsOf(states, runs) == a0 + AlertsOf(s1, two);
    assert a0 + (a1 + a2) == a0 + a1 + a2;
  }

  // ---------- Edge detection over whole histories ----------

  /** One evaluation of one flag, with the entities that matched at that time. */
  datatype Run = Run(flag: Flag, matching: seq<Entity>)

  function StatesAfter(states: States, runs: seq<Run>): States
    decreases |runs|
  {
    if runs == [] then states
    else StatesAfter(NextStates(states, runs[0].flag, runs[0].matching), runs[1..])
  }

  function AlertsOf(states: States, runs: seq<Run>): seq<InsightAlert>
    decreases |runs|
  {
    if runs == [] then []
    else
      NewAlerts(states, runs[0].flag, runs[0].matching)
      + AlertsOf(NextStates(states, runs[0].flag, runs[0].matching), runs[1..])
  }

  function CountFor(alerts: seq<InsightAlert>, id: Uuid, flag: Flag): nat {
    if alerts == [] then 0
    else (if alerts[0].entityId == id && alerts[0].flag == flag then 1 else 0) + CountFor(alerts[1..], id, flag)
  }

  /** How often the entity went from not matching to matching, looking only at runs of that flag. */
  function RisingEdges(was: bool, runs: seq<Run>, id: Uuid, flag: Flag): nat
    decreases |runs|
  {
    if runs == [] then 0
    else if runs[0].flag != flag then RisingEdges(was, runs[1..], id, flag)
    else
      var matches := id in Ids(runs[0].matching);
      (if matches && !was then 1 else 0) + RisingEdges(matches, runs[1..], id, flag)
  }

  predicate DistinctIds(entities: seq<Entity>) {
    forall i, j :: 0 <= i < j < |entities| ==> entities[i].id != entities[j].id
  }

  lemma {:induction false} CountOfConcat(a: seq<InsightAlert>, b: seq<InsightAlert>, id: Uuid, flag: Flag)
    ensures CountFor(a + b, id, flag) == CountFor(a, id, flag) + CountFor(b, id, flag)
  {
    if a == [] {
      assert a + b == b;
    } else {
      CountOfConcat(a[1..], b, id, flag);
      assert (a + b)[1..] == a[1..] + b;
    }
  }

  lemma {:induction false} AlertsOfOneRun(states: States, run: Run, matching: seq<Entity>, id: Uuid, flag: Flag)
    requires DistinctIds(matching)
    ensures CountFor(NewAlerts(states, run.flag, matching), id, flag)
         == if run.flag == flag && id in Ids(matching) && !Active(states, id, flag) then 1 else 0
  {
    if matching != [] {
      AlertsOfOneRun(states, run, matching[1..], id, flag);
      var head := if Active(states, matching[0].id, run.flag) then [] else [AlertFor(matching[0], run.flag)];
      CountOfConcat(head, NewAlerts(states, run.flag, matching[1..]), id, flag);
      assert matching == [matching[0]] + matching[1..];
      assert Ids(matching) == {matching[0].id} + Ids(matching[1..]);
      assert matching[0].id !in Ids(matching[1..]);
    }
  }

  /**
    Over any history of runs, of any flags and in any order, an entity is alerted for a flag exactly as often as
    it newly matched it: never again while it keeps matching, and again after every gap.
   */
  lemma {:induction false} AlertsAreRisingEdges(states: States, runs: seq<Run>, id: Uuid, flag: Flag)
    requires forall r :: r in runs ==> DistinctIds(r.matching)
    ensures CountFor(AlertsOf(states, runs), id, flag) == RisingEdges(Active(states, id, flag), runs, id, flag)
    decreases |runs|
  {
    if runs != [] {
      var run := runs[0];
      var next := NextStates(states, run.flag, run.matching);
      AlertsAreRisingEdges(next, runs[1..], id, flag);
      AlertsOfOneRun(states, run, run.matching, id, flag);
      CountOfConcat(NewAlerts(states, run.flag, run.matching), AlertsOf(next, runs[1..]), id, flag);
      assert run.flag == flag ==> (Active(next, id, flag) <==> id in Ids(run.matching));
      assert run.flag != flag ==> Active(next, id, flag) == Active(states, id, flag);
    }
  }

  /** The entities that matched when the flag was last run. */
  function LastMatching(initially: set<Uuid>, runs: seq<Run>, flag: Flag): set<Uuid>
    decreases |runs|
  {
    if runs == [] then initially
    else LastMatching(if runs[0].flag == flag then Ids(runs[0].matching) else initially, runs[1..], flag)
  }

  /** After any history the active rows of a flag are exactly the entities of its last run. */
  lemma {:induction false} ActiveAfterRuns(states: States, runs: seq<Run>, flag: Flag)
    ensures ActiveIds(StatesAfter(states, runs), flag) == LastMatching(ActiveIds(states, flag), runs, flag)
    decreases |runs|
  {
    if runs != [] {
      var run := runs[0];
      var next := NextStates(states, run.flag, run.matching);
      ActiveAfterRuns(next, runs[1..], flag);
      if run.flag == flag {
        forall id
          ensures id in ActiveIds(next, flag) <==> id in Ids(run.matching)
        {
          ActiveIdsAre(next, flag, id);
        }
        assert ActiveIds(next, flag) == Ids(run.matching);
      } else {
        forall id
          ensures id in ActiveIds(next, flag) <==> id in ActiveIds(states, flag)
        {
          ActiveIdsAre(next, flag, id);
          ActiveIdsAre(states, flag, id);
        }
        assert ActiveIds(next, flag) == ActiveIds(states, flag);
      }
    }
  }

  // ---------- The three queries ----------

  datatype Host = Host(id: Uuid, orgId: Uuid, ipAddress: string, status: HostLifecycle.HostStatus, createdAt: int)
  datatype Domain = Domain(id: Uuid, orgId: Uuid, hostId: Option<Uuid>, resolvedIp: Option<string>)
  datatype ServiceRow = ServiceRow(hostId: Uuid, running: bool)

  const IDLE_HOST_MIN_AGE_MS := 24 * 60 * 60 * 1000

  function Filter<T>(rows: seq<T>, keep: T -> bool): seq<T> {
    if rows == [] then []
    else (if keep(rows[0]) then [rows[0]] else []) + Filter(rows[1..], keep)
  }

  lemma {:induction false} FilterMembers<T>(rows: seq<T>, keep: T -> bool)
    ensures forall x :: x in Filter(rows, keep) <==> x in rows && keep(x)
  {
    if rows != [] {
      FilterMembers(rows[1..], keep);
    }
  }

  lemma {:induction false} FilterTwice<T>(rows: seq<T>, p: T -> bool, q: T -> bool, both: T -> bool)
    requires forall x :: x in rows ==> both(x) == (p(x) && q(x))
    ensures Filter(Filter(rows, p), q) == Filter(rows, both)
  {
    if rows != [] {
      assert rows[0] in rows;
      FilterTwice(rows[1..], p, q, both);
      var rest := Filter(rows[1..], p);
      if p(rows[0]) {
        assert ([rows[0]] + rest)[1..] == rest;
      } else {
        assert [] + rest == rest;
      }
    }
  }

  lemma {:induction false} FilterSame<T>(rows: seq<T>, p: T -> bool, q: T -> bool)
    requires forall x :: x in rows ==> p(x) == q(x)
    ensures Filter(rows, p) == Filter(rows, q)
  {
    if rows != [] {
      assert rows[0] in rows;
      FilterSame(rows[1..], p, q);
    }
  }

  /** An absent or empty organisation id does not restrict the query. */
  predicate InScope(orgId: Option<Uuid>, rowOrg: Uuid) {
    orgId.Some? && orgId.value != [] ==> rowOrg == orgId.value
  }

  ghost predicate IsIdle(h: Host, services: seq<ServiceRow>, now: int) {
    && h.status.Healthy?
    && h.createdAt < now - IDLE_HOST_MIN_AGE_MS
    && !exists s :: s in services && s.running && s.hostId == h.id
  }

  ghost predicate IsOrphanedDomain(d: Domain, hosts: seq<Host>) {
    d.hostId == None || (d.resolvedIp.Some? && !exists h :: h in hosts && h.ipAddress == d.resolvedIp.value)
  }

  ghost predicate IsOrphanedHost(h: Host, domains: seq<Domain>) {
    !exists d :: d in domains && d.hostId == Some(h.id)
  }

  ghost function WantedIdle(services: seq<ServiceRow>, now: int, orgId: Option<Uuid>): Host -> bool {
    (h: Host) => InScope(orgId, h.orgId) && IsIdle(h, services, now)
  }

  ghost function WantedDomain(hosts: seq<Host>, orgId: Option<Uuid>): Domain -> bool {
    (d: Domain) => InScope(orgId, d.orgId) && IsOrphanedDomain(d, hosts)
  }

  ghost function WantedHost(domains: seq<Domain>, orgId: Option<Uuid>): Host -> bool {
    (h: Host) => InScope(orgId, h.orgId) && IsOrphanedHost(h, domains)
  }

  /** Healthy hosts of sufficient age without a running service, found through one query for all candidates. */
  method ComputeIdleHosts(hosts: seq<Host>, services: seq<ServiceRow>, now: int,
                          orgId: Option<Uuid>) returns (r: seq<Host>)
    ensures r == Filter(hosts, WantedIdle(services, now, orgId))
  {
    var candidate := (h: Host) =>
      h.status.Healthy? && h.createdAt < now - IDLE_HOST_MIN_AGE_MS && InScope(orgId, h.orgId);
    var candidates := Filter(hosts, candidate);
    FilterMembers(hosts, candidate);
    ghost var wanted := WantedIdle(services, now, orgId);
    if |candidates| == 0 {
      NothingKept(hosts, candidate, wanted);
      return [];
    }
    var candidateIds := set h | h in candidates :: h.id;
    var runningServices := Filter(services, (s: ServiceRow) => s.hostId in candidateIds && s.running);
    FilterMembers(services, (s: ServiceRow) => s.hostId in candidateIds && s.running);
    var hostsWithRunningServices := set s | s in runningServices :: s.hostId;
    var idle := (h: Host) => h.id !in hostsWithRunningServices;
    r := Filter(candidates, idle);
    forall h | h in hosts
      ensures wanted(h) == (candidate(h) && idle(h))
    {
      if candidate(h) {
        assert h in candidates && h.id in candidateIds;
      }
    }
    FilterTwice(hosts, candidate, idle, wanted);
  }

  /** Domains without a host, or resolving to an address that is no host's. */
  method ComputeOrphanedDomains(domains: seq<Domain>, hosts: seq<Host>, orgId: Option<Uuid>) returns (r: seq<Domain>)
    ensures r == Filter(domains, WantedDomain(hosts, orgId))
  {
    var inScope := (d: Domain) => InScope(orgId, d.orgId);
    var found := Filter(domains, inScope);
    FilterMembers(domains, inScope);
    ghost var wanted := WantedDomain(hosts, orgId);
    if |found| == 0 {
      NothingKept(domains, inScope, wanted);
      return [];
    }
    var knownHostIps := set h | h in hosts :: h.ipAddress;
    var orphaned := (d: Domain) => d.hostId == None || (d.resolvedIp != None && d.resolvedIp.value !in knownHostIps);
    r := Filter(found, orphaned);
    FilterTwice(domains, inScope, orphaned, wanted);
  }

  /** Hosts that no domain, of any organisation, is linked to. */
  method ComputeOrphanedHosts(hosts: seq<Host>, domains: seq<Domain>, orgId: Option<Uuid>) returns (r: seq<Host>)
    ensures r == Filter(hosts, WantedHost(domains, orgId))
  {
    var inScope := (h: Host) => InScope(orgId, h.orgId);
    var found := Filter(hosts, inScope);
    FilterMembers(hosts, inScope);
    ghost var wanted := WantedHost(domains, orgId);
    if |found| == 0 {
      NothingKept(hosts, inScope, wanted);
      return [];
    }
    var domainsWithHost := Filter(domains, (d: Domain) => d.hostId != None);
    FilterMembers(domains, (d: Domain) => d.hostId != None);
    var referencedHostIds := set d | d in domainsWithHost :: d.hostId.value;
    var orphaned := (h: Host) => h.id !in referencedHostIds;
    r := Filter(found, orphaned);
    FilterTwice(hosts, inScope, orphaned, wanted);
  }

  lemma {:induction false} NothingKept<T>(rows: seq<T>, p: T -> bool, q: T -> bool)
    requires Filter(rows, p) == [] && forall x :: q(x) ==> p(x)
    ensures Filter(rows, q) == []
  {
    if rows != [] {
      assert Filter(rows[1..], p) == [];
      NothingKept(rows[1..], p, q);
    }
  }

  /** A query that adds the organisation to another's condition gives the other's list restricted to it. */
  lemma ScopedIsFilteredGlobal<T>(rows: seq<T>,
                                  org: T -> Uuid, mine: T -> bool, global: T -> bool, scoped: T -> bool, orgId: Uuid)
    requires forall x :: x in rows ==> scoped(x) == (InScope(Some(orgId), org(x)) && global(x))
    requires forall x :: x in rows ==> mine(x) == (org(x) == orgId)
    ensures Filter(rows, scoped) == if orgId == [] then Filter(rows, global) else Filter(Filter(rows, global), mine)
  {
    if orgId == [] {
      FilterSame(rows, scoped, global);
    } else {
      FilterTwice(rows, global, mine, scoped);
    }
  }

  function HostOf(orgId: Uuid): Host -> bool {
    (h: Host) => h.orgId == orgId
  }

  function DomainOf(orgId: Uuid): Domain -> bool {
    (d: Domain) => d.orgId == orgId
  }

  /**
    The idle hosts of an organisation are the idle hosts of all, restricted to it, so the view of an organisation and
    the daily job cannot disagree at one time. An empty organisation id gives the idle hosts of all.
   */
  lemma IdleHostsOfOrg(hosts: seq<Host>, services: seq<ServiceRow>, now: int, orgId: Uuid)
    ensures var global, scoped := WantedIdle(services, now, None), WantedIdle(services, now, Some(orgId));
            && (orgId != [] ==> Filter(hosts, scoped) == Filter(Filter(hosts, global), HostOf(orgId)))
            && (orgId == [] ==> Filter(hosts, scoped) == Filter(hosts, global))
  {
    ScopedIsFilteredGlobal(hosts, (h: Host) => h.orgId, HostOf(orgId), WantedIdle(services, now, None),
                           WantedIdle(services, now, Some(orgId)), orgId);
  }

  /** Likewise the orphaned domains. */
  lemma OrphanedDomainsOfOrg(domains: seq<Domain>, hosts: seq<Host>, orgId: Uuid)
    ensures var global, scoped := WantedDomain(hosts, None), WantedDomain(hosts, Some(orgId));
            && (orgId != [] ==> Filter(domains, scoped) == Filter(Filter(domains, global), DomainOf(orgId)))
            && (orgId == [] ==> Filter(domains, scoped) == Filter(domains, global))
  {
    ScopedIsFilteredGlobal(domains, (d: Domain) => d.orgId, DomainOf(orgId), WantedDomain(hosts, None),
                           WantedDomain(hosts, Some(orgId)), orgId);
  }

  /** Likewise the orphaned hosts. */
  lemma OrphanedHostsOfOrg(hosts: seq<Host>, domains: seq<Domain>, orgId: Uuid)
    ensures var global, scoped := WantedHost(domains, None), WantedHost(domains, Some(orgId));
            && (orgId != [] ==> Filter(hosts, scoped) == Filter(Filter(hosts, global), HostOf(orgId)))
            && (orgId == [] ==> Filter(hosts, scoped) == Filter(hosts, global))
  {
    ScopedIsFilteredGlobal(hosts, (h: Host) => h.orgId, HostOf(orgId), WantedHost(domains, None),
                           WantedHost(domains, Some(orgId)), orgId);
  }

  // ---------- The daily job ----------

  /** The tables as one of the queries sees them. */
  datatype Observation = Observation(hosts: seq<Host>, services: seq<ServiceRow>, domains: seq<Domain>, now: int)

  /**
    A day's job asks for idle hosts, then for orphaned domains, then for orphaned hosts; the tables may change
    between.
   */
  datatype Day = Day(idle: Observation, domains: Observation, hosts: Observation)

  function HostEntities(hosts: seq<Host>): (r: seq<Entity>)
    ensures |r| == |hosts|
  {
    seq(|hosts|, i requires 0 <= i < |hosts| => Entity(hosts[i].id, hosts[i].orgId))
  }

  function DomainEntities(domains: seq<Domain>): (r: seq<Entity>)
    ensures |r| == |domains|
  {
    seq(|domains|, i requires 0 <= i < |domains| => Entity(domains[i].id, domains[i].orgId))
  }

  ghost function IdleRun(o: Observation): Run {
    Run(IdleHost, HostEntities(Filter(o.hosts, WantedIdle(o.services, o.now, None))))
  }

  ghost function DomainRun(o: Observation): Run {
    Run(OrphanedDomain, DomainEntities(Filter(o.domains, WantedDomain(o.hosts, None))))
  }

  ghost function HostRun(o: Observation): Run {
    Run(OrphanedHost, HostEntities(Filter(o.hosts, WantedHost(o.domains, None))))
  }

  ghost function DayRuns(d: Day): seq<Run> {
    [IdleRun(d.idle), DomainRun(d.domains), HostRun(d.hosts)]
  }

  ghost function AllRuns(days: seq<Day>): seq<Run> {
    if days == [] then [] else DayRuns(days[0]) + AllRuns(days[1..])
  }

  /** Healthy, created more than a day ago, and no running service is on it. */
  ghost predicate WasIdle(h: Host, o: Observation) {
    && h in o.hosts && h.status == HostLifecycle.Healthy && o.now - h.createdAt > 86_400_000
    && forall s :: s in o.services && s.running ==> s.hostId != h.id
  }

  /** Linked to no host, or it resolves to an address that no host has. */
  ghost predicate WasOrphanedDomain(x: Domain, o: Observation) {
    && x in o.domains
    && (x.hostId == None || (x.resolvedIp.Some? && forall h :: h in o.hosts ==> Some(h.ipAddress) != x.resolvedIp))
  }

  /** No domain is linked to it. */
  ghost predicate WasOrphanedHost(h: Host, o: Observation) {
    h in o.hosts && forall x :: x in o.domains ==> x.hostId != Some(h.id)
  }

  lemma DefinitionsAgree(h: Host, x: Domain, o: Observation)
    ensures WasIdle(h, o) <==> h in o.hosts && IsIdle(h, o.services, o.now)
    ensures WasOrphanedDomain(x, o) <==> x in o.domains && IsOrphanedDomain(x, o.hosts)
    ensures WasOrphanedHost(h, o) <==> h in o.hosts && IsOrphanedHost(h, o.domains)
  {
  }

  /** The entity meets the flag's own definition on that day. */
  ghost predicate MatchesOn(d: Day, id: Uuid, flag: Flag) {
    match flag
    case IdleHost => exists h :: WasIdle(h, d.idle) && h.id == id
    case OrphanedDomain => exists x :: WasOrphanedDomain(x, d.domains) && x.id == id
    case OrphanedHost => exists h :: WasOrphanedHost(h, d.hosts) && h.id == id
  }

  /** On how many days the entity came to meet it. */
  ghost function DailyEdges(was: bool, days: seq<Day>, id: Uuid, flag: Flag): nat
    decreases |days|
  {
    if days == [] then 0
    else
      var matches := MatchesOn(days[0], id, flag);
      (if matches && !was then 1 else 0) + DailyEdges(matches, days[1..], id, flag)
  }

  predicate DistinctHosts(hosts: seq<Host>) {
    forall i, j :: 0 <= i < j < |hosts| ==> hosts[i].id != hosts[j].id
  }

  predicate DistinctDomains(domains: seq<Domain>) {
    forall i, j :: 0 <= i < j < |domains| ==> domains[i].id != domains[j].id
  }

  /** The ids of the rows are primary keys. */
  predicate KeysOk(d: Day) {
    DistinctHosts(d.idle.hosts) && DistinctDomains(d.domains.domains) && DistinctHosts(d.hosts.hosts)
  }

  lemma {:induction false} DistinctHostsKept(hosts: seq<Host>, keep: Host -> bool)
    requires DistinctHosts(hosts)
    ensures DistinctHosts(Filter(hosts, keep))
  {
    if hosts != [] {
      DistinctHostsKept(hosts[1..], keep);
      FilterMembers(hosts[1..], keep);
      var rest := Filter(hosts[1..], keep);
      forall k | 0 <= k < |rest|
        ensures rest[k].id != hosts[0].id
      {
        assert rest[k] in hosts[1..];
      }
    }
  }

  lemma {:induction false} DistinctDomainsKept(domains: seq<Domain>, keep: Domain -> bool)
    requires DistinctDomains(domains)
    ensures DistinctDomains(Filter(domains, keep))
  {
    if domains != [] {
      DistinctDomainsKept(domains[1..], keep);
      FilterMembers(domains[1..], keep);
      var rest := Filter(domains[1..], keep);
      forall k | 0 <= k < |rest|
        ensures rest[k].id != domains[0].id
      {
        assert rest[k] in domains[1..];
      }
    }
  }

  lemma HostIds(hosts: seq<Host>, id: Uuid)
    ensures id in Ids(HostEntities(hosts)) <==> exists h :: h in hosts && h.id == id
  {
    var entities := HostEntities(hosts);
    if h :| h in hosts && h.id == id {
      var i :| 0 <= i < |hosts| && hosts[i] == h;
      assert entities[i] in entities && entities[i].id == id;
    }
    if id in Ids(entities) {
      var e :| e in entities && e.id == id;
      var i :| 0 <= i < |entities| && entities[i] == e;
      assert hosts[i] in hosts;
    }
  }

  lemma DomainIds(domains: seq<Domain>, id: Uuid)
    ensures id in Ids(DomainEntities(domains)) <==> exists d :: d in domains && d.id == id
  {
    var entities := DomainEntities(domains);
    if d :| d in domains && d.id == id {
      var i :| 0 <= i < |domains| && domains[i] == d;
      assert entities[i] in entities && entities[i].id == id;
    }
    if id in Ids(entities) {
      var e :| e in entities && e.id == id;
      var i :| 0 <= i < |entities| && entities[i] == e;
      assert domains[i] in domains;
    }
  }

  lemma IdleIds(o: Observation, id: Uuid)
    ensures id in Ids(IdleRun(o).matching) <==> exists h :: WasIdle(h, o) && h.id == id
  {
    var idle := WantedIdle(o.services, o.now, None);
    FilterMembers(o.hosts, idle);
    HostIds(Filter(o.hosts, idle), id);
    forall h
      ensures WasIdle(h, o) <==> h in Filter(o.hosts, idle)
    {
      DefinitionsAgree(h, Domain("", "", None, None), o);
    }
    hide WasIdle, Ids, HostEntities, Filter;
  }

  lemma OrphanedDomainIds(o: Observation, id: Uuid)
    ensures id in Ids(DomainRun(o).matching) <==> exists x :: WasOrphanedDomain(x, o) && x.id == id
  {
    var domain := WantedDomain(o.hosts, None);
    FilterMembers(o.domains, domain);
    DomainIds(Filter(o.domains, domain), id);
    forall x
      ensures WasOrphanedDomain(x, o) <==> x in Filter(o.domains, domain)
    {
      DefinitionsAgree(Host("", "", "", HostLifecycle.Healthy, 0), x, o);
    }
    hide WasOrphanedDomain, Ids, DomainEntities, Filter;
  }

  lemma OrphanedHostIds(o: Observation, id: Uuid)
    ensures id in Ids(HostRun(o).matching) <==> exists h :: WasOrphanedHost(h, o) && h.id == id
  {
    var host := WantedHost(o.domains, None);
    FilterMembers(o.hosts, host);
    HostIds(Filter(o.hosts, host), id);
    forall h
      ensures WasOrphanedHost(h, o) <==> h in Filter(o.hosts, host)
    {
      DefinitionsAgree(h, Domain("", "", None, None), o);
    }
    hide WasOrphanedHost, Ids, HostEntities, Filter;
  }

  /** Each run of a day matches exactly the entities that meet its flag's definition, each of them once. */
  lemma RunsOfDay(d: Day, id: Uuid)
    requires KeysOk(d)
    ensures forall r :: r in DayRuns(d) ==> DistinctIds(r.matching)
    ensures forall r :: r in DayRuns(d) ==> (id in Ids(r.matching) <==> MatchesOn(d, id, r.flag))
  {
    DistinctRuns(d);
    IdleIds(d.idle, id);
    OrphanedDomainIds(d.domains, id);
    OrphanedHostIds(d.hosts, id);
    hide WasIdle, WasOrphanedDomain, WasOrphanedHost, Ids, IdleRun, DomainRun, HostRun;
    RunFlags(d);
  }

  lemma RunFlags(d: Day)
    ensures IdleRun(d.idle).flag == IdleHost && DomainRun(d.domains).flag == OrphanedDomain
    ensures HostRun(d.hosts).flag == OrphanedHost
  {
  }

  lemma DistinctRuns(d: Day)
    requires KeysOk(d)
    ensures forall r :: r in DayRuns(d) ==> DistinctIds(r.matching)
  {
    var idle := WantedIdle(d.idle.services, d.idle.now, None);
    DistinctHostsKept(d.idle.hosts, idle);
    var domain := WantedDomain(d.domains.hosts, None);
    DistinctDomainsKept(d.domains.domains, domain);
    var host := WantedHost(d.hosts.domains, None);
    DistinctHostsKept(d.hosts.hosts, host);
  }

  lemma {:induction false} RunsOfDays(days: seq<Day>)
    requires forall d :: d in days ==> KeysOk(d)
    ensures forall r :: r in AllRuns(days) ==> DistinctIds(r.matching)
  {
    if days != [] {
      assert days[0] in days;
      RunsOfDay(days[0], []);
      RunsOfDays(days[1..]);
    }
  }

  lemma {:induction false} EdgesOfDays(was: bool, days: seq<Day>, id: Uuid, flag: Flag)
    requires forall d :: d in days ==> KeysOk(d)
    ensures RisingEdges(was, AllRuns(days), id, flag) == DailyEdges(was, days, id, flag)
    decreases |days|
  {
    if days != [] {
      assert days[0] in days;
      var runs, rest := AllRuns(days), AllRuns(days[1..]);
      RunsOfDay(days[0], id);
      EdgesOfDays(MatchesOn(days[0], id, flag), days[1..], id, flag);
      EdgesOfThree(was, DayRuns(days[0]), rest, id, flag);
    }
  }

  lemma EdgesOfThree(was: bool, three: seq<Run>, rest: seq<Run>, id: Uuid, flag: Flag)
    requires |three| == 3
    requires three[0].flag == IdleHost && three[1].flag == OrphanedDomain && three[2].flag == OrphanedHost
    ensures var k := match flag case IdleHost => 0 case OrphanedDomain => 1 case OrphanedHost => 2;
            var matches := id in Ids(three[k].matching);
            RisingEdges(was, three + rest, id, flag)
            == (if matches && !was then 1 else 0) + RisingEdges(matches, rest, id, flag)
  {
    var all := three + rest;
    var two := all[1..];
    var one := two[1..];
    assert all[0] == three[0] && two[0] == three[1] && one[0] == three[2] && one[1..] == rest;
    var was1 := if flag == IdleHost then id in Ids(three[0].matching) else was;
    var was2 := if flag == OrphanedDomain then id in Ids(three[1].matching) else was1;
    var e0 := if flag == IdleHost && was1 && !was then 1 else 0;
    var e1 := if flag == OrphanedDomain && was2 && !was1 then 1 else 0;
    assert RisingEdges(was, all, id, flag) == e0 + RisingEdges(was1, two, id, flag);
    assert RisingEdges(was1, two, id, flag) == e1 + RisingEdges(was2, one, id, flag);
  }

  /**
    Over any sequence of days, with the tables in any state each day, an entity is alerted for a flag exactly as often
    as it came to meet the flag's definition.
   */
  lemma DailyAlertsAreRisingEdges(states: States, days: seq<Day>, id: Uuid, flag: Flag)
    requires forall d :: d in days ==> KeysOk(d)
    ensures CountFor(AlertsOf(states, AllRuns(days)), id, flag) == DailyEdges(Active(states, id, flag), days, id, flag)
  {
    RunsOfDays(days);
    AlertsAreRisingEdges(states, AllRuns(days), id, flag);
    EdgesOfDays(Active(states, id, flag), days, id, flag);
  }

  // ---------- What an alert says ----------

  /** The condition that a rule for the flag is made for, of the fixed list. */
  function RuleCondition(flag: Flag): string {
    if flag.IdleHost? then Alerts.ALERT_CONDITIONS[7] else Alerts.ALERT_CONDITIONS[8]
  }

  /** The alert is of this entity and its organisation, under the flag's condition. */
  predicate Tells(a: InsightAlert, e: Entity, flag: Flag) {
    a.entityId == e.id && a.orgId == e.orgId && a.flag == flag && a.condition == RuleCondition(flag)
  }

  lemma {:induction false} NewAlertsTell(states: States, flag: Flag, matching: seq<Entity>, a: InsightAlert)
    requires a in NewAlerts(states, flag, matching)
    ensures exists e :: e in matching && Tells(a, e, flag)
  {
    var rest := NewAlerts(states, flag, matching[1..]);
    if a in rest {
      NewAlertsTell(states, flag, matching[1..], a);
      var e :| e in matching[1..] && Tells(a, e, flag);
      assert e in matching;
    } else {
      assert Tells(a, matching[0], flag);
    }
  }

  lemma {:induction false} AlertsTell(states: States, runs: seq<Run>, a: InsightAlert)
    requires a in AlertsOf(states, runs)
    ensures exists r, e :: r in runs && e in r.matching && Tells(a, e, r.flag)
    decreases |runs|
  {
    var next := NextStates(states, runs[0].flag, runs[0].matching);
    hide NewAlerts, NextStates, Tells;
    if a in AlertsOf(next, runs[1..]) {
      AlertsTell(next, runs[1..], a);
      var r, e :| r in runs[1..] && e in r.matching && Tells(a, e, r.flag);
      assert r in runs;
    } else {
      NewAlertsTell(states, runs[0].flag, runs[0].matching, a);
      assert runs[0] in runs;
    }
  }

  /** On that day a host or domain with the alert's id and organisation met the definition of its flag. */
  ghost predicate TrueOn(d: Day, a: InsightAlert) {
    match a.flag
    case IdleHost => exists h :: WasIdle(h, d.idle) && h.id == a.entityId && h.orgId == a.orgId
    case OrphanedDomain => exists x :: WasOrphanedDomain(x, d.domains) && x.id == a.entityId && x.orgId == a.orgId
    case OrphanedHost => exists h :: WasOrphanedHost(h, d.hosts) && h.id == a.entityId && h.orgId == a.orgId
  }

  lemma {:induction false} RunOfADay(days: seq<Day>, r: Run)
    requires r in AllRuns(days)
    ensures exists d :: d in days && r in DayRuns(d)
  {
    if r !in DayRuns(days[0]) {
      RunOfADay(days[1..], r);
      var d :| d in days[1..] && r in DayRuns(d);
      assert d in days;
    }
  }

  lemma HostOfEntity(hosts: seq<Host>, keep: Host -> bool, e: Entity)
    requires e in HostEntities(Filter(hosts, keep))
    ensures exists h :: h in hosts && keep(h) && h.id == e.id && h.orgId == e.orgId
  {
    FilterMembers(hosts, keep);
    var found := Filter(hosts, keep);
    var i :| 0 <= i < |found| && HostEntities(found)[i] == e;
    assert found[i] in found;
  }

  lemma DomainOfEntity(domains: seq<Domain>, keep: Domain -> bool, e: Entity)
    requires e in DomainEntities(Filter(domains, keep))
    ensures exists x :: x in domains && keep(x) && x.id == e.id && x.orgId == e.orgId
  {
    FilterMembers(domains, keep);
    var found := Filter(domains, keep);
    var i :| 0 <= i < |found| && DomainEntities(found)[i] == e;
    assert found[i] in found;
  }

  lemma RunIsTrue(d: Day, r: Run, e: Entity, a: InsightAlert)
    requires r in DayRuns(d) && e in r.matching && Tells(a, e, r.flag)
    ensures TrueOn(d, a)
  {
    if r == IdleRun(d.idle) {
      HostOfEntity(d.idle.hosts, WantedIdle(d.idle.services, d.idle.now, None), e);
      var h :| h in d.idle.hosts && IsIdle(h, d.idle.services, d.idle.now) && h.id == e.id && h.orgId == e.orgId;
      DefinitionsAgree(h, Domain("", "", None, None), d.idle);
    } else if r == DomainRun(d.domains) {
      DomainOfEntity(d.domains.domains, WantedDomain(d.domains.hosts, None), e);
      var x :| x in d.domains.domains && IsOrphanedDomain(x, d.domains.hosts) && x.id == e.id && x.orgId == e.orgId;
      DefinitionsAgree(Host("", "", "", HostLifecycle.Healthy, 0), x, d.domains);
    } else {
      HostOfEntity(d.hosts.hosts, WantedHost(d.hosts.domains, None), e);
      var h :| h in d.hosts.hosts && IsOrphanedHost(h, d.hosts.domains) && h.id == e.id && h.orgId == e.orgId;
      DefinitionsAgree(h, Domain("", "", None, None), d.hosts);
    }
  }

  /**
    Over any days, every alert is true of some day: a host or domain of the alerted organisation met the definition
    then, and the condition is the one of the fixed list that rules for it are made for.
   */
  lemma EveryAlertIsTrue(states: States, days: seq<Day>, a: InsightAlert)
    requires a in AlertsOf(states, AllRuns(days))
    ensures exists d :: d in days && TrueOn(d, a)
    ensures a.condition == RuleCondition(a.flag)
  {
    AlertsTell(states, AllRuns(days), a);
    var r, e :| r in AllRuns(days) && e in r.matching && Tells(a, e, r.flag);
    RunOfADay(days, r);
    var d :| d in days && r in DayRuns(d);
    RunIsTrue(d, r, e, a);
    hide TrueOn;
  }
}
