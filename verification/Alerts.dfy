/**
  Alert dispatch: for each matching rule a cooldown check, a delivery and one log row, none of which may
  fail its caller. The alert log is also what the cooldown reads.
 */
module Alerts {
  import opened Wrappers

  datatype EntityType = HostEntity | DomainEntity | SslCertificate | ServiceEntity | RollbackEventEntity | SystemEntity

  datatype Rule = Rule(
    id: Uuid, orgId: Uuid, entityType: EntityType, condition: string, enabled: bool, cooldownMinutes: int)

  datatype DeliveryStatus = Sent | Failed

  datatype LogRow = LogRow(
    ruleId: Uuid, entityType: EntityType, entityId: Uuid, message: string, status: DeliveryStatus, firedAt: int)

  type Log = seq<LogRow>

  datatype Delivery = Threw | Returned(success: bool)

  /**
    What the outside does to one evaluation: whether the cooldown query answers and when it asks the clock,
    whether the channel configuration decrypts and parses, how the delivery ends, and whether and when the
    log row is stored.
   */
  datatype World = World(
    queryWorks: bool, checkedAt: int, configReadable: bool, delivery: Delivery, logWorks: bool, firedAt: int)

  /** One evaluation of one rule for one entity. */
  datatype Evaluation = Evaluation(rule: Rule, entityId: Uuid, message: string, world: World)

  const MINUTE_MS := 60_000

  predicate Concerns(row: LogRow, ruleId: Uuid, entityId: Uuid) {
    row.ruleId == ruleId && row.entityId == entityId && row.status == Sent
  }

  /** Some SENT row of this rule and entity is younger than the cooldown. */
  predicate WithinCooldown(log: Log, rule: Rule, entityId: Uuid, now: int) {
    exists row :: row in log && Concerns(row, rule.id, entityId) && row.firedAt > now - rule.cooldownMinutes * MINUTE_MS
  }

  predicate Suppressed(log: Log, e: Evaluation) {
    e.world.queryWorks && WithinCooldown(log, e.rule, e.entityId, e.world.checkedAt)
  }

  /** Whether the attempt that is not suppressed counts as sent. Any fault before or during delivery is a failure. */
  function StatusOf(w: World): DeliveryStatus {
    if w.queryWorks && w.configReadable && w.delivery == Returned(true) then Sent else Failed
  }

  function RowOf(e: Evaluation): LogRow {
    LogRow(e.rule.id, e.rule.entityType, e.entityId, e.message, StatusOf(e.world), e.world.firedAt)
  }

  /** The log rows that an evaluation tries to store: none within the cooldown, otherwise exactly one. */
  function AttemptsOf(log: Log, e: Evaluation): seq<LogRow> {
    if Suppressed(log, e) then [] else [RowOf(e)]
  }

  function LogAfter(log: Log, e: Evaluation): Log {
    if e.world.logWorks then log + AttemptsOf(log, e) else log
  }

  // ---------- A run of evaluations, one after another ----------

  function LogAfterRun(log: Log, run: seq<Evaluation>): Log
    decreases |run|
  {
    if run == [] then log else LogAfterRun(LogAfter(log, run[0]), run[1..])
  }

  function AttemptsOfRun(log: Log, run: seq<Evaluation>): seq<LogRow>
    decreases |run|
  {
    if run == [] then [] else AttemptsOf(log, run[0]) + AttemptsOfRun(LogAfter(log, run[0]), run[1..])
  }

  lemma {:induction false} RunSnoc(log: Log, run: seq<Evaluation>, e: Evaluation)
    ensures LogAfterRun(log, run + [e]) == LogAfter(LogAfterRun(log, run), e)
    ensures AttemptsOfRun(log, run + [e]) == AttemptsOfRun(log, run) + AttemptsOf(LogAfterRun(log, run), e)
    decreases |run|
  {
    if run == [] {
      assert run + [e] == [e] && [e][1..] == [];
    } else {
      RunSnoc(LogAfter(log, run[0]), run[1..], e);
      assert (run + [e])[1..] == run[1..] + [e];
    }
  }

  // ---------- The service ----------

  predicate Matches(rule: Rule, orgId: Uuid, entityType: EntityType, condition: string) {
    rule.orgId == orgId && rule.entityType == entityType && rule.condition == condition && rule.enabled
  }

  function MatchingRules(rules: seq<Rule>, orgId: Uuid, entityType: EntityType, condition: string): seq<Rule> {
    if rules == [] then []
    else
      (if Matches(rules[0], orgId, entityType, condition) then [rules[0]] else [])
      + MatchingRules(rules[1..], orgId, entityType, condition)
  }

  function Evaluations(rules: seq<Rule>, entityId: Uuid, message: string, world: Uuid -> World): (r: seq<Evaluation>)
    ensures |r| == |rules|
  {
    seq(|rules|, i requires 0 <= i < |rules| => Evaluation(rules[i], entityId, message, world(rules[i].id)))
  }

  const HOST_PREFIX := "host_status_transitioned_to:"
  const SSL_PREFIX := "ssl_status_transitioned_to:"
  const SERVICE_PREFIX := "service_status_transitioned_to:"
  const ROLLBACK_FAILED := "rollback_event:failed"

  /** The condition that a change to this status meets; None when there is none for the entity type. */
  function TransitionCondition(entityType: EntityType, newStatus: string): Option<string> {
    match entityType
    case HostEntity => Some(HOST_PREFIX + newStatus)
    case SslCertificate => Some(SSL_PREFIX + newStatus)
    case ServiceEntity => Some(SERVICE_PREFIX + newStatus)
    case RollbackEventEntity => if newStatus == "failed" then Some(ROLLBACK_FAILED) else None
    case _ => None
  }

  lemma PrefixKeepsApart(prefix: string, a: string, b: string)
    requires prefix + a == prefix + b
    ensures a == b
  {
    assert (prefix + a)[|prefix|..] == a && (prefix + b)[|prefix|..] == b;
  }

  /** Conditions never clash: a rule fires for one entity type and one status only. */
  lemma ConditionsAreDistinct(t1: EntityType, s1: string, t2: EntityType, s2: string)
    requires TransitionCondition(t1, s1).Some? && TransitionCondition(t1, s1) == TransitionCondition(t2, s2)
    ensures t1 == t2 && s1 == s2
  {
    var c1, c2 := TransitionCondition(t1, s1).value, TransitionCondition(t2, s2).value;
    assert c1[0] == c2[0] && c1[1] == c2[1];
    match t1
    case HostEntity => PrefixKeepsApart(HOST_PREFIX, s1, s2);
    case SslCertificate => PrefixKeepsApart(SSL_PREFIX, s1, s2);
    case ServiceEntity => PrefixKeepsApart(SERVICE_PREFIX, s1, s2);
    case _ =>
  }

  /** The fixed list of conditions that a rule can be made for; the last two are not status changes. */
  const ALERT_CONDITIONS: seq<string> :=
    ["host_status_transitioned_to:unreachable", "host_status_transitioned_to:degraded",
     "ssl_status_transitioned_to:expiring_soon", "ssl_status_transitioned_to:expired",
     "service_status_transitioned_to:crash_loop", "service_status_transitioned_to:unhealthy",
     "rollback_event:failed", "system:idle_host_detected", "system:orphan_detected"]

  /** The change of status that each of the others stands for. */
  function ChangeFor(k: nat): (EntityType, string)
    requires k < 7
  {
    match k
    case 0 => (HostEntity, "unreachable")
    case 1 => (HostEntity, "degraded")
    case 2 => (SslCertificate, "expiring_soon")
    case 3 => (SslCertificate, "expired")
    case 4 => (ServiceEntity, "crash_loop")
    case 5 => (ServiceEntity, "unhealthy")
    case _ => (RollbackEventEntity, "failed")
  }

  lemma ChangeMeetsCondition(k: nat)
    requires k < 7
    ensures TransitionCondition(ChangeFor(k).0, ChangeFor(k).1) == Some(ALERT_CONDITIONS[k])
  {
    match k
    case 0 => assert HOST_PREFIX + "unreachable" == "host_status_transitioned_to:unreachable";
    case 1 => assert HOST_PREFIX + "degraded" == "host_status_transitioned_to:degraded";
    case 2 => assert SSL_PREFIX + "expiring_soon" == "ssl_status_transitioned_to:expiring_soon";
    case 3 => assert SSL_PREFIX + "expired" == "ssl_status_transitioned_to:expired";
    case 4 => assert SERVICE_PREFIX + "crash_loop" == "service_status_transitioned_to:crash_loop";
    case 5 => assert SERVICE_PREFIX + "unhealthy" == "service_status_transitioned_to:unhealthy";
    case _ =>
  }

  /** Every such rule can fire: exactly one change of status meets its condition. */
  lemma EveryConditionIsMetByOneChange(k: nat, entityType: EntityType, newStatus: string)
    requires k < 7
    ensures TransitionCondition(entityType, newStatus) == Some(ALERT_CONDITIONS[k])
       <==> (entityType, newStatus) == ChangeFor(k)
  {
    ChangeMeetsCondition(k);
    if TransitionCondition(entityType, newStatus) == Some(ALERT_CONDITIONS[k]) {
      ConditionsAreDistinct(entityType, newStatus, ChangeFor(k).0, ChangeFor(k).1);
    }
    hide TransitionCondition, ALERT_CONDITIONS;
  }

  class AlertEvaluationService {
    var log: Log
    var attempts: seq<LogRow>

    constructor (log: Log)
      ensures this.log == log && attempts == []
    {
      this.log := log;
      attempts := [];
    }

    /** The cooldown query; None when it throws. */
    method IsWithinCooldown(rule: Rule, entityId: Uuid, world: World) returns (r: Option<bool>)
      ensures r == if world.queryWorks then Some(WithinCooldown(log, rule, entityId, world.checkedAt)) else None
    {
      if !world.queryWorks {
        return None;
      }
      var i := 0;
      while i < |log|
        invariant 0 <= i <= |log|
        invariant forall j :: 0 <= j < i ==>
          !(Concerns(log[j], rule.id, entityId) && log[j].firedAt > world.checkedAt - rule.cooldownMinutes * MINUTE_MS)
      {
        if Concerns(log[i], rule.id, entityId) && log[i].firedAt > world.checkedAt - rule.cooldownMinutes * MINUTE_MS {
          return Some(true);
        }
        i := i + 1;
      }
      return Some(false);
    }

    /** Tries to store one row; a failure to store it is swallowed. */
    method WriteLog(rule: Rule, entityId: Uuid, message: string, success: bool, world: World)
      modifies this
      ensures var status := if success then Sent else Failed;
              var row := LogRow(rule.id, rule.entityType, entityId, message, status, world.firedAt);
              && attempts == old(attempts) + [row]
              && log == if world.logWorks then old(log) + [row] else old(log)
    {
      var row := LogRow(rule.id, rule.entityType, entityId, message, if success then Sent else Failed, world.firedAt);
      attempts := attempts + [row];
      if world.logWorks {
        log := log + [row];
      }
    }

    /** Every fault of the guarded part ends in the one WriteLog of the handler. */
    method EvaluateRule(rule: Rule, entityId: Uuid, message: string, world: World)
      modifies this
      ensures var e := Evaluation(rule, entityId, message, world);
              && attempts == old(attempts) + AttemptsOf(old(log), e)
              && log == LogAfter(old(log), e)
    {
      var withinCooldown := IsWithinCooldown(rule, entityId, world);
      if withinCooldown == None {
        WriteLog(rule, entityId, message, false, world);
      } else if withinCooldown.value {
        return;
      } else if !world.configReadable {
        WriteLog(rule, entityId, message, false, world);
      } else {
        match world.delivery {
          case Threw => WriteLog(rule, entityId, message, false, world);
          case Returned(success) => WriteLog(rule, entityId, message, success, world);
        }
      }
    }

    /** Visits every matching rule in turn, whatever happened to the ones before. */
    method Dispatch(rules: seq<Rule>, orgId: Uuid, entityType: EntityType, entityId: Uuid, condition: string,
                    message: string,
                    world: Uuid -> World)
      modifies this
      ensures var run := Evaluations(MatchingRules(rules, orgId, entityType, condition), entityId, message, world);
              && attempts == old(attempts) + AttemptsOfRun(old(log), run)
              && log == LogAfterRun(old(log), run)
    {
      var matching := MatchingRules(rules, orgId, entityType, condition);
      ghost var run := Evaluations(matching, entityId, message, world);
      assert AttemptsOfRun(log, []) == [] && LogAfterRun(log, []) == log;
      assert run[..0] == [] && run[..|matching|] == run;
      hide AttemptsOf, LogAfter, AttemptsOfRun, LogAfterRun, MatchingRules;
      for i := 0 to |matching|
        invariant attempts == old(attempts) + AttemptsOfRun(old(log), run[..i])
        invariant log == LogAfterRun(old(log), run[..i])
      {
        RunSnoc(old(log), run[..i], run[i]);
        assert run[..i + 1] == run[..i] + [run[i]];
        EvaluateRule(matching[i], entityId, message, world(matching[i].id));
      }
    }

    /**
      Dispatches a change of status. It does nothing without a change or a condition for it, and swallows a failure
      to read the rules.
     */
    method EvaluateTransition(rules: Option<seq<Rule>>, orgId: Uuid, entityType: EntityType, entityId: Uuid,
                              previousStatus: string, newStatus: string, message: string, world: Uuid -> World)
      modifies this
      ensures var condition := TransitionCondition(entityType, newStatus);
              var run := if previousStatus == newStatus || condition.None? || rules.None? then []
                         else
                           var matching := MatchingRules(rules.value, orgId, entityType, condition.value);
                           Evaluations(matching, entityId, message, world);
              && attempts == old(attempts) + AttemptsOfRun(old(log), run)
              && log == LogAfterRun(old(log), run)
    {
      if previousStatus == newStatus {
        return;
      }
      var condition := TransitionCondition(entityType, newStatus);
      if condition.None? || rules.None? {
        return;
      }
      Dispatch(rules.value, orgId, entityType, entityId, condition.value, message, world);
    }
  }

  // ---------- Every rule gets its one attempt ----------

  function CountFor(rows: seq<LogRow>, ruleId: Uuid): nat {
    if rows == [] then 0 else (if rows[0].ruleId == ruleId then 1 else 0) + CountFor(rows[1..], ruleId)
  }

  lemma {:induction false} CountOfConcat(a: seq<LogRow>, b: seq<LogRow>, ruleId: Uuid)
    ensures CountFor(a + b, ruleId) == CountFor(a, ruleId) + CountFor(b, ruleId)
  {
    if a == [] {
      assert a + b == b;
    } else {
      CountOfConcat(a[1..], b, ruleId);
      assert (a + b)[1..] == a[1..] + b;
    }
  }

  predicate DistinctRules(run: seq<Evaluation>) {
    forall i, j :: 0 <= i < j < |run| ==> run[i].rule.id != run[j].rule.id
  }

  /** Evaluating other rules does not change whether this one is suppressed. */
  lemma OtherRuleKeepsCooldown(log: Log, other: Evaluation, e: Evaluation)
    requires other.rule.id != e.rule.id
    ensures Suppressed(LogAfter(log, other), e) == Suppressed(log, e)
  {
    var log' := LogAfter(log, other);
    assert forall row :: row in log' && Concerns(row, e.rule.id, e.entityId) ==> row in log;
    assert forall row :: row in log ==> row in log';
  }

  lemma {:induction false} NoAttemptForAbsentRule(log: Log, run: seq<Evaluation>, ruleId: Uuid)
    requires forall e :: e in run ==> e.rule.id != ruleId
    ensures CountFor(AttemptsOfRun(log, run), ruleId) == 0
    decreases |run|
  {
    if run != [] {
      assert run[0] in run;
      NoAttemptForAbsentRule(LogAfter(log, run[0]), run[1..], ruleId);
      CountOfConcat(AttemptsOf(log, run[0]), AttemptsOfRun(LogAfter(log, run[0]), run[1..]), ruleId);
    }
  }

  /**
    For any pattern of faults, each rule of a dispatch gets exactly one log attempt unless it was within its
    cooldown when the dispatch began, and then none: no rule is skipped because an earlier one went wrong.
   */
  lemma {:induction false} OneAttemptPerRule(log: Log, run: seq<Evaluation>, k: nat)
    requires DistinctRules(run) && k < |run|
    ensures CountFor(AttemptsOfRun(log, run), run[k].rule.id) == if Suppressed(log, run[k]) then 0 else 1
    decreases |run|
  {
    var next := LogAfter(log, run[0]);
    CountOfConcat(AttemptsOf(log, run[0]), AttemptsOfRun(next, run[1..]), run[k].rule.id);
    if k == 0 {
      NoAttemptForAbsentRule(next, run[1..], run[0].rule.id);
    } else {
      OtherRuleKeepsCooldown(log, run[0], run[k]);
      OneAttemptPerRule(next, run[1..], k - 1);
    }
  }

  /** Rule ids are primary keys. */
  predicate DistinctRuleIds(rules: seq<Rule>) {
    forall i, j :: 0 <= i < j < |rules| ==> rules[i].id != rules[j].id
  }

  lemma {:induction false} MatchingMembers(rules: seq<Rule>, orgId: Uuid, entityType: EntityType, condition: string)
    ensures forall r :: r in MatchingRules(rules, orgId, entityType, condition)
                   <==> r in rules && Matches(r, orgId, entityType, condition)
  {
    if rules != [] {
      MatchingMembers(rules[1..], orgId, entityType, condition);
    }
  }

  lemma {:induction false} MatchingDistinct(rules: seq<Rule>, orgId: Uuid, entityType: EntityType, condition: string)
    requires DistinctRuleIds(rules)
    ensures DistinctRuleIds(MatchingRules(rules, orgId, entityType, condition))
  {
    if rules != [] {
      MatchingDistinct(rules[1..], orgId, entityType, condition);
      MatchingMembers(rules[1..], orgId, entityType, condition);
      var rest := MatchingRules(rules[1..], orgId, entityType, condition);
      forall k | 0 <= k < |rest|
        ensures rest[k].id != rules[0].id
      {
        assert rest[k] in rules[1..];
      }
    }
  }

  /**
    A dispatch, for any rule table and any pattern of faults: exactly one attempt for each rule of the table that
    matches and was not within its cooldown when the dispatch began, and none for every other rule.
   */
  lemma DispatchAttemptsEachRuleOnce(log: Log, rules: seq<Rule>, k: nat, orgId: Uuid, entityType: EntityType,
                                     entityId: Uuid,
                                     condition: string, message: string, world: Uuid -> World)
    requires DistinctRuleIds(rules) && k < |rules|
    ensures var rule := rules[k];
            var run := Evaluations(MatchingRules(rules, orgId, entityType, condition), entityId, message, world);
            CountFor(AttemptsOfRun(log, run), rule.id)
            == if && rule.orgId == orgId && rule.entityType == entityType && rule.condition == condition && rule.enabled
                  && !(world(rule.id).queryWorks && WithinCooldown(log, rule, entityId, world(rule.id).checkedAt))
               then 1 else 0
  {
    var rule := rules[k];
    var matching := MatchingRules(rules, orgId, entityType, condition);
    var run := Evaluations(matching, entityId, message, world);
    MatchingMembers(rules, orgId, entityType, condition);
    MatchingDistinct(rules, orgId, entityType, condition);
    if Matches(rule, orgId, entityType, condition) {
      assert rule in matching;
      var i :| 0 <= i < |matching| && matching[i] == rule;
      OneAttemptPerRule(log, run, i);
    } else {
      forall e | e in run
        ensures e.rule.id != rule.id
      {
        var i :| 0 <= i < |run| && run[i] == e;
        assert matching[i] in rules;
        var j :| 0 <= j < |rules| && rules[j] == matching[i];
        assert j != k;
      }
      NoAttemptForAbsentRule(log, run, rule.id);
    }
  }

  // ---------- Failed rows never matter ----------

  function SentOnly(log: Log): Log {
    if log == [] then [] else (if log[0].status == Sent then [log[0]] else []) + SentOnly(log[1..])
  }

  lemma {:induction false} SentOnlyMembers(log: Log)
    ensures forall row :: row in SentOnly(log) <==> row in log && row.status == Sent
  {
    if log != [] {
      SentOnlyMembers(log[1..]);
    }
  }

  lemma {:induction false} SentOnlyOfConcat(a: Log, b: Log)
    ensures SentOnly(a + b) == SentOnly(a) + SentOnly(b)
  {
    if a == [] {
      assert a + b == b;
    } else {
      SentOnlyOfConcat(a[1..], b);
      assert (a + b)[1..] == a[1..] + b && (a + b)[0] == a[0];
      ConcatAssociates(if a[0].status == Sent then [a[0]] else [], SentOnly(a[1..]), SentOnly(b));
    }
  }

  lemma {:induction false} SentOnlyTwice(log: Log)
    ensures SentOnly(SentOnly(log)) == SentOnly(log)
  {
    if log != [] {
      SentOnlyTwice(log[1..]);
      SentOnlyOfConcat(if log[0].status == Sent then [log[0]] else [], SentOnly(log[1..]));
    }
  }

  /** Two logs with the same SENT rows suppress the same evaluations. */
  lemma SentRowsDecide(a: Log, b: Log, e: Evaluation)
    requires SentOnly(a) == SentOnly(b)
    ensures Suppressed(a, e) == Suppressed(b, e)
  {
    SentOnlyMembers(a);
    SentOnlyMembers(b);
    assert forall row :: Concerns(row, e.rule.id, e.entityId) ==> (row in a <==> row in SentOnly(a));
    assert forall row :: Concerns(row, e.rule.id, e.entityId) ==> (row in b <==> row in SentOnly(b));
  }

  lemma {:induction false} SameAttempts(a: Log, b: Log, run: seq<Evaluation>)
    requires SentOnly(a) == SentOnly(b)
    ensures AttemptsOfRun(a, run) == AttemptsOfRun(b, run)
    decreases |run|
  {
    if run != [] {
      SentRowsDecide(a, b, run[0]);
      SentOnlyOfConcat(a, AttemptsOf(a, run[0]));
      SentOnlyOfConcat(b, AttemptsOf(b, run[0]));
      SameAttempts(LogAfter(a, run[0]), LogAfter(b, run[0]), run[1..]);
    }
  }

  /** Erasing every FAILED row changes no later decision, over any run: a failed delivery never delays a retry. */
  lemma FailedRowsNeverMatter(log: Log, run: seq<Evaluation>)
    ensures AttemptsOfRun(SentOnly(log), run) == AttemptsOfRun(log, run)
  {
    SentOnlyTwice(log);
    SameAttempts(SentOnly(log), log, run);
  }

  // ---------- Spacing ----------

  /** When alerts of this rule for this entity went out. */
  function SentTimes(log: Log, ruleId: Uuid, entityId: Uuid): seq<int> {
    if log == [] then []
    else SentTime(log[0], ruleId, entityId) + SentTimes(log[1..], ruleId, entityId)
  }

  function SentTime(row: LogRow, ruleId: Uuid, entityId: Uuid): seq<int> {
    if Concerns(row, ruleId, entityId) then [row.firedAt] else []
  }

  lemma {:induction false} SentTimesOfConcat(a: Log, b: Log, ruleId: Uuid, entityId: Uuid)
    ensures SentTimes(a + b, ruleId, entityId) == SentTimes(a, ruleId, entityId) + SentTimes(b, ruleId, entityId)
  {
    if a == [] {
      assert a + b == b;
    } else {
      SentTimesOfConcat(a[1..], b, ruleId, entityId);
      assert (a + b)[1..] == a[1..] + b && (a + b)[0] == a[0];
      hide SentTime;
      ConcatAssociates(SentTime(a[0], ruleId, entityId), SentTimes(a[1..], ruleId, entityId),
                       SentTimes(b, ruleId, entityId));
    }
  }

  lemma {:induction false} SentTimesMembers(log: Log, ruleId: Uuid, entityId: Uuid)
    ensures forall t :: t in SentTimes(log, ruleId, entityId)
                   ==> exists row :: row in log && Concerns(row, ruleId, entityId) && row.firedAt == t
  {
    if log != [] {
      SentTimesMembers(log[1..], ruleId, entityId);
      forall t | t in SentTimes(log, ruleId, entityId)
        ensures exists row :: row in log && Concerns(row, ruleId, entityId) && row.firedAt == t
      {
        if t in SentTimes(log[1..], ruleId, entityId) {
          var row :| row in log[1..] && Concerns(row, ruleId, entityId) && row.firedAt == t;
          assert row in log;
        } else {
          assert log[0] in log;
        }
      }
    }
  }

  ghost predicate Spaced(times: seq<int>, gap: int) {
    forall i, j :: 0 <= i < j < |times| ==> times[j] - times[i] >= gap
  }

  /** Evaluations do not overlap and the clock never goes back. */
  predicate Timed(run: seq<Evaluation>, from: int)
    decreases |run|
  {
    run != [] ==>
      && from <= run[0].world.checkedAt <= run[0].world.firedAt
      && Timed(run[1..], run[0].world.firedAt)
  }

  predicate FixedCooldown(run: seq<Evaluation>, ruleId: Uuid, minutes: int) {
    forall e :: e in run && e.rule.id == ruleId ==> e.rule.cooldownMinutes == minutes
  }

  lemma OneEvaluationKeepsSpacing(log: Log, e: Evaluation, ruleId: Uuid, entityId: Uuid, minutes: int)
    requires Spaced(SentTimes(log, ruleId, entityId), minutes * MINUTE_MS)
    requires e.world.checkedAt <= e.world.firedAt
    requires e.rule.id == ruleId ==> e.rule.cooldownMinutes == minutes
    ensures Spaced(SentTimes(LogAfter(log, e), ruleId, entityId), minutes * MINUTE_MS)
  {
    var rows := AttemptsOf(log, e);
    SentTimesOfConcat(log, rows, ruleId, entityId);
    if rows == [RowOf(e)] {
      assert SentTimes(rows[1..], ruleId, entityId) == [];
      SentTimesMembers(log, ruleId, entityId);
      if Concerns(RowOf(e), ruleId, entityId) {
        var times := SentTimes(log, ruleId, entityId);
        forall i | 0 <= i < |times|
          ensures e.world.firedAt - times[i] >= minutes * MINUTE_MS
        {
          assert times[i] in times;
          var row :| row in log && Concerns(row, ruleId, entityId) && row.firedAt == times[i];
        }
      }
    }
  }

  /**
    Over any run of non-overlapping evaluations with a clock that never goes back, two stored SENT rows of one rule for
    one entity are always at least the rule's cooldown apart, whatever faults occur in between.
   */
  lemma {:induction false} AlertsAreSpaced(log: Log, run: seq<Evaluation>, from: int, ruleId: Uuid, entityId: Uuid,
                                           minutes: int)
    requires Spaced(SentTimes(log, ruleId, entityId), minutes * MINUTE_MS)
    requires Timed(run, from) && FixedCooldown(run, ruleId, minutes)
    ensures Spaced(SentTimes(LogAfterRun(log, run), ruleId, entityId), minutes * MINUTE_MS)
    decreases |run|
  {
    if run != [] {
      assert run[0] in run;
      OneEvaluationKeepsSpacing(log, run[0], ruleId, entityId, minutes);
      AlertsAreSpaced(LogAfter(log, run[0]), run[1..], run[0].world.firedAt, ruleId, entityId, minutes);
    }
  }

  function InWindow(times: seq<int>, start: int, length: int): seq<int> {
    if times == [] then []
    else (if start <= times[0] <= start + length then [times[0]] else []) + InWindow(times[1..], start, length)
  }

  lemma {:induction false} WindowMembers(times: seq<int>, start: int, length: int)
    ensures forall t :: t in InWindow(times, start, length) ==> t in times && start <= t <= start + length
  {
    if times != [] {
      WindowMembers(times[1..], start, length);
    }
  }

  lemma {:induction false} WindowKeepsSpacing(times: seq<int>, start: int, length: int, gap: int)
    requires Spaced(times, gap)
    ensures Spaced(InWindow(times, start, length), gap)
  {
    if times != [] {
      var rest := InWindow(times[1..], start, length);
      WindowKeepsSpacing(times[1..], start, length, gap);
      WindowMembers(times[1..], start, length);
      if start <= times[0] <= start + length {
        var all := [times[0]] + rest;
        forall i, j | 0 <= i < j < |all|
          ensures all[j] - all[i] >= gap
        {
          assert all[j] == rest[j - 1];
          if i == 0 {
            assert rest[j - 1] in times[1..];
            var k :| 0 <= k < |times[1..]| && times[1..][k] == rest[j - 1];
            assert times[k + 1] == rest[j - 1];
          } else {
            assert all[i] == rest[i - 1];
          }
        }
      }
    }
  }

  lemma {:induction false} SpacedSpan(times: seq<int>, gap: int)
    requires Spaced(times, gap) && times != [] && gap >= 0
    ensures times[|times| - 1] - times[0] >= (|times| - 1) * gap
  {
    var n := |times|;
    if n > 1 {
      SpacedSpan(times[..n - 1], gap);
      assert times[n - 1] - times[n - 2] >= gap;
      assert (n - 1) * gap == (n - 2) * gap + gap;
    }
  }

  lemma Distribute(a: int, b: int, c: int)
    ensures (a - b) * c == a * c - b * c
  {
  }

  lemma ProductAtLeast(d: int, gap: int)
    requires d >= 1 && gap > 0
    ensures d * gap >= gap
  {
  }

  lemma QuotientBound(k: nat, gap: int, length: int)
    requires gap > 0 && k * gap <= length
    ensures k <= length / gap
  {
    var quotient := length / gap;
    var rest := length % gap;
    assert length == quotient * gap + rest && rest < gap;
    Distribute(k, quotient, gap);
    if k - quotient >= 1 {
      ProductAtLeast(k - quotient, gap);
    }
  }

  /** At most length / gap + 1 spaced times fit into a window of `length` milliseconds. */
  lemma SpacedPerWindow(times: seq<int>, gap: int, start: int, length: nat)
    requires gap > 0 && Spaced(times, gap)
    ensures |InWindow(times, start, length)| <= length / gap + 1
  {
    var window := InWindow(times, start, length);
    WindowKeepsSpacing(times, start, length, gap);
    WindowMembers(times, start, length);
    if window != [] {
      assert window[0] in window && window[|window| - 1] in window;
      SpacedSpan(window, gap);
      QuotientBound(|window| - 1, gap, length);
    }
  }

  /** No window of `length` milliseconds holds more than length / cooldown + 1 stored SENT rows of a rule and entity. */
  lemma AlertsPerWindow(log: Log, run: seq<Evaluation>, from: int, ruleId: Uuid, entityId: Uuid, minutes: int,
                        start: int, length: nat)
    requires minutes > 0
    requires Spaced(SentTimes(log, ruleId, entityId), minutes * MINUTE_MS)
    requires Timed(run, from) && FixedCooldown(run, ruleId, minutes)
    ensures |InWindow(SentTimes(LogAfterRun(log, run), ruleId, entityId), start, length)|
         <= length / (minutes * MINUTE_MS) + 1
  {
    AlertsAreSpaced(log, run, from, ruleId, entityId, minutes);
    SpacedPerWindow(SentTimes(LogAfterRun(log, run), ruleId, entityId), minutes * MINUTE_MS, start, length);
  }

  // ---------- What is sent, said of what the outside does ----------

  lemma {:induction false} SentTimesHold(log: Log, ruleId: Uuid, entityId: Uuid, row: LogRow)
    requires row in log && Concerns(row, ruleId, entityId)
    ensures row.firedAt in SentTimes(log, ruleId, entityId)
  {
    if log[0] != row {
      assert row in log[1..];
      SentTimesHold(log[1..], ruleId, entityId, row);
    }
  }

  /** In the times alone: whether one of them is within so many minutes before now. */
  predicate IsRecent(times: seq<int>, minutes: int, now: int) {
    exists t :: t in times && t > now - minutes * 60_000
  }

  lemma RecentIff(log: Log, rule: Rule, entityId: Uuid, now: int)
    ensures WithinCooldown(log, rule, entityId, now)
       <==> IsRecent(SentTimes(log, rule.id, entityId), rule.cooldownMinutes, now)
  {
    if row :| row in log && Concerns(row, rule.id, entityId)
              && row.firedAt > now - rule.cooldownMinutes * MINUTE_MS {
      SentTimesHold(log, rule.id, entityId, row);
      assert row.firedAt in SentTimes(log, rule.id, entityId);
    }
    SentTimesMembers(log, rule.id, entityId);
  }

  /** One evaluation attempts no row, or one that says SENT exactly for a delivery that succeeded. */
  lemma AttemptIs(log: Log, e: Evaluation)
    ensures var w, times := e.world, SentTimes(log, e.rule.id, e.entityId);
            if w.queryWorks && IsRecent(times, e.rule.cooldownMinutes, w.checkedAt) then AttemptsOf(log, e) == []
            else
              && |AttemptsOf(log, e)| == 1
              && var row := AttemptsOf(log, e)[0];
                 && row.ruleId == e.rule.id && row.entityType == e.rule.entityType && row.entityId == e.entityId
                 && row.message == e.message && row.firedAt == w.firedAt
                 && (row.status == Sent <==> w.queryWorks && w.configReadable && w.delivery == Returned(true))
  {
    RecentIff(log, e.rule, e.entityId, e.world.checkedAt);
    hide WithinCooldown, IsRecent, SentTimes;
  }

  /** The evaluation delivers an alert of this rule for this entity, given when earlier ones were stored as sent. */
  predicate Delivers(times: seq<int>, e: Evaluation, ruleId: Uuid, entityId: Uuid) {
    && e.rule.id == ruleId && e.entityId == entityId
    && e.world.queryWorks && !IsRecent(times, e.rule.cooldownMinutes, e.world.checkedAt)
    && e.world.configReadable && e.world.delivery == Returned(true)
  }

  /** When a run delivers alerts of one rule for one entity, keeping nothing but the stored times of earlier ones. */
  function DeliveredTimes(times: seq<int>, run: seq<Evaluation>, ruleId: Uuid, entityId: Uuid): seq<int>
    decreases |run|
  {
    if run == [] then []
    else if Delivers(times, run[0], ruleId, entityId) then
      [run[0].world.firedAt]
      + DeliveredTimes(if run[0].world.logWorks then times + [run[0].world.firedAt] else times, run[1..], ruleId,
                       entityId)
    else DeliveredTimes(times, run[1..], ruleId, entityId)
  }

  lemma SentAttempt(log: Log, e: Evaluation, ruleId: Uuid, entityId: Uuid)
    ensures SentTimes(AttemptsOf(log, e), ruleId, entityId)
         == if Delivers(SentTimes(log, ruleId, entityId), e, ruleId, entityId) then [e.world.firedAt] else []
  {
    AttemptIs(log, e);
    var rows := AttemptsOf(log, e);
    hide AttemptsOf, IsRecent;
    if rows != [] {
      assert rows == [rows[0]] && rows[1..] == [];
    }
  }

  /**
    Over every run: what goes out for a rule and an entity, and when, is decided by the times of what was stored as
    sent, and by whether the query answers, the configuration can be read and the adapter returns success.
   */
  lemma {:induction false} SentAttemptsAreDeliveries(log: Log, run: seq<Evaluation>, ruleId: Uuid, entityId: Uuid)
    ensures SentTimes(AttemptsOfRun(log, run), ruleId, entityId)
         == DeliveredTimes(SentTimes(log, ruleId, entityId), run, ruleId, entityId)
    decreases |run|
  {
    if run != [] {
      var e, next := run[0], LogAfter(log, run[0]);
      SentAttempt(log, e, ruleId, entityId);
      OneEvaluationStores(log, e, ruleId, entityId);
      SentAttemptsAreDeliveries(next, run[1..], ruleId, entityId);
      SentTimesOfConcat(AttemptsOf(log, e), AttemptsOfRun(next, run[1..]), ruleId, entityId);
      hide SentTimes, AttemptsOf, LogAfter, Delivers;
      var before := SentTimes(log, ruleId, entityId);
      assert before + [] == before;
    }
  }

  lemma {:induction false} NothingDelivered(times: seq<int>, run: seq<Evaluation>, ruleId: Uuid, entityId: Uuid)
    requires forall e :: e in run ==> e.world.delivery != Returned(true)
    ensures DeliveredTimes(times, run, ruleId, entityId) == []
    decreases |run|
  {
    if run != [] {
      assert run[0] in run;
      NothingDelivered(times, run[1..], ruleId, entityId);
    }
  }

  lemma {:induction false} StoredTimesGrow(log: Log, run: seq<Evaluation>, ruleId: Uuid, entityId: Uuid)
    requires SentTimes(AttemptsOfRun(log, run), ruleId, entityId) == []
    ensures SentTimes(LogAfterRun(log, run), ruleId, entityId) == SentTimes(log, ruleId, entityId)
    decreases |run|
  {
    if run != [] {
      var e, next := run[0], LogAfter(log, run[0]);
      SentTimesOfConcat(AttemptsOf(log, e), AttemptsOfRun(next, run[1..]), ruleId, entityId);
      OneEvaluationStores(log, e, ruleId, entityId);
      StoredTimesGrow(next, run[1..], ruleId, entityId);
      hide SentTimes, AttemptsOf, LogAfter;
      assert SentTimes(log, ruleId, entityId) + [] == SentTimes(log, ruleId, entityId);
    }
  }

  /**
    A run in which no delivery succeeds attempts no SENT row, and suppresses no later evaluation that was not suppressed
    before it.
   */
  lemma NoSuccessStartsNoCooldown(log: Log, run: seq<Evaluation>, later: Evaluation)
    requires forall e :: e in run ==> e.world.delivery != Returned(true)
    ensures SentTimes(AttemptsOfRun(log, run), later.rule.id, later.entityId) == []
    ensures AttemptsOf(LogAfterRun(log, run), later) == [] <==> AttemptsOf(log, later) == []
  {
    var ruleId, entityId := later.rule.id, later.entityId;
    SentAttemptsAreDeliveries(log, run, ruleId, entityId);
    NothingDelivered(SentTimes(log, ruleId, entityId), run, ruleId, entityId);
    StoredTimesGrow(log, run, ruleId, entityId);
    AttemptIs(log, later);
    AttemptIs(LogAfterRun(log, run), later);
    hide SentTimes, AttemptsOf, IsRecent;
  }

  // ---------- Deliveries, stored or not ----------

  /** Whenever the run delivers an alert of this rule for this entity, it also stores the row. */
  predicate DeliveriesStored(log: Log, run: seq<Evaluation>, ruleId: Uuid, entityId: Uuid)
    decreases |run|
  {
    run != [] ==>
      && (SentTimes(AttemptsOf(log, run[0]), ruleId, entityId) != [] ==> run[0].world.logWorks)
      && DeliveriesStored(LogAfter(log, run[0]), run[1..], ruleId, entityId)
  }

  lemma OneEvaluationStores(log: Log, e: Evaluation, ruleId: Uuid, entityId: Uuid)
    ensures var before, attempts := SentTimes(log, ruleId, entityId), SentTimes(AttemptsOf(log, e), ruleId, entityId);
            SentTimes(LogAfter(log, e), ruleId, entityId) == if e.world.logWorks then before + attempts else before
  {
    SentTimesOfConcat(log, AttemptsOf(log, e), ruleId, entityId);
  }

  lemma {:induction false} NoMoreThanDelivered(log: Log, run: seq<Evaluation>, ruleId: Uuid, entityId: Uuid)
    ensures |SentTimes(LogAfterRun(log, run), ruleId, entityId)|
         <= |SentTimes(log, ruleId, entityId)| + |SentTimes(AttemptsOfRun(log, run), ruleId, entityId)|
    decreases |run|
  {
    if run != [] {
      var next := LogAfter(log, run[0]);
      OneEvaluationStores(log, run[0], ruleId, entityId);
      NoMoreThanDelivered(next, run[1..], ruleId, entityId);
      SentTimesOfConcat(AttemptsOf(log, run[0]), AttemptsOfRun(next, run[1..]), ruleId, entityId);
      hide SentTimes, AttemptsOf, LogAfter;
    }
  }

  /** The stored SENT rows are all the deliveries exactly when each delivery's row was stored. */
  lemma {:induction false} StoredIffDelivered(log: Log, run: seq<Evaluation>, ruleId: Uuid, entityId: Uuid)
    ensures SentTimes(LogAfterRun(log, run), ruleId, entityId)
              == SentTimes(log, ruleId, entityId) + SentTimes(AttemptsOfRun(log, run), ruleId, entityId)
       <==> DeliveriesStored(log, run, ruleId, entityId)
    decreases |run|
  {
    if run == [] {
      assert SentTimes(log, ruleId, entityId) + [] == SentTimes(log, ruleId, entityId);
    } else {
      var next := LogAfter(log, run[0]);
      var before, first := SentTimes(log, ruleId, entityId), SentTimes(AttemptsOf(log, run[0]), ruleId, entityId);
      var rest := SentTimes(AttemptsOfRun(next, run[1..]), ruleId, entityId);
      OneEvaluationStores(log, run[0], ruleId, entityId);
      StoredIffDelivered(next, run[1..], ruleId, entityId);
      NoMoreThanDelivered(next, run[1..], ruleId, entityId);
      SentTimesOfConcat(AttemptsOf(log, run[0]), AttemptsOfRun(next, run[1..]), ruleId, entityId);
      ConcatAssociates(before, first, rest);
      hide SentTimes, AttemptsOf, LogAfter;
      if first == [] {
        assert before + first == before && first + rest == rest;
      }
    }
  }

  /**
    When each delivery's row is stored, the deliveries themselves are spaced by the cooldown, also from those before the
    run, and no window holds more of them than its length allows.
   */
  lemma DeliveriesAreSpaced(log: Log, run: seq<Evaluation>, from: int, ruleId: Uuid, entityId: Uuid, minutes: int)
    requires Spaced(SentTimes(log, ruleId, entityId), minutes * MINUTE_MS)
    requires Timed(run, from) && FixedCooldown(run, ruleId, minutes) && DeliveriesStored(log, run, ruleId, entityId)
    ensures var deliveries := SentTimes(log, ruleId, entityId) + SentTimes(AttemptsOfRun(log, run), ruleId, entityId);
            && Spaced(deliveries, minutes * MINUTE_MS)
            && (minutes > 0 ==>
                  forall start: int, length: nat ::
                    |InWindow(deliveries, start, length)| <= length / (minutes * MINUTE_MS) + 1)
  {
    AlertsAreSpaced(log, run, from, ruleId, entityId, minutes);
    StoredIffDelivered(log, run, ruleId, entityId);
    var deliveries := SentTimes(log, ruleId, entityId) + SentTimes(AttemptsOfRun(log, run), ruleId, entityId);
    if minutes > 0 {
      forall start: int, length: nat
        ensures |InWindow(deliveries, start, length)| <= length / (minutes * MINUTE_MS) + 1
      {
        SpacedPerWindow(deliveries, minutes * MINUTE_MS, start, length);
      }
    }
  }

  /** Otherwise they need not be: an alert whose row is not stored starts no cooldown, and goes out again at once. */
  lemma UnstoredDeliveryRepeats(message: string)
    ensures var rule := Rule("r", "o", HostEntity, "c", true, 60);
            var e := Evaluation(rule, "h", message, World(true, 5, true, Returned(true), false, 5));
            && Timed([e, e], 0) && FixedCooldown([e, e], "r", 60) && !DeliveriesStored([], [e, e], "r", "h")
            && SentTimes(AttemptsOfRun([], [e, e]), "r", "h") == [5, 5]
            && LogAfterRun([], [e, e]) == []
  {
    var rule := Rule("r", "o", HostEntity, "c", true, 60);
    var e := Evaluation(rule, "h", message, World(true, 5, true, Returned(true), false, 5));
    var run := [e, e];
    assert run[1..] == [e] && [e][1..] == [];
    assert AttemptsOf([], e) == [RowOf(e)] && LogAfter([], e) == [];
    assert LogAfterRun([], [e]) == LogAfterRun([], []) == [] && LogAfterRun([], run) == LogAfterRun([], [e]);
    assert AttemptsOfRun([], [e]) == [RowOf(e)] + [] == [RowOf(e)];
    assert AttemptsOfRun([], run) == [RowOf(e)] + [RowOf(e)] == [RowOf(e), RowOf(e)];
    assert [RowOf(e), RowOf(e)][1..] == [RowOf(e)] && [RowOf(e)][1..] == [];
    assert SentTimes([RowOf(e)], "r", "h") == [5] + [] == [5];
    assert SentTimes([RowOf(e), RowOf(e)], "r", "h") == [5] + [5];
  }
}
