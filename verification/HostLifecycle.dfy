/**
  A host's status and its verification stamp: the status mapper and the health check processor together.
 */
module HostLifecycle {
  import opened Wrappers

  type Time = int

  datatype CheckStatus = CheckHealthy | CheckDegraded | CheckUnreachable | CheckPendingSetup

  datatype HostStatus = Unknown | Healthy | Degraded | Unreachable | PendingSetup

  datatype CommandResult = CommandResult(exitCode: Option<int>, dockerMissingText: bool)

  /** How a check meets the host: the key cannot be decrypted or the connection fails, or both commands give results. */
  datatype Probe =
    | NoSession(authenticationFailure: bool)
    | Session(uptime: CommandResult, dockerPs: CommandResult)

  datatype HostRow = HostRow(status: HostStatus, lastCheckedAt: Option<Time>, setupVerifiedAt: Option<Time>)

  // ---------- The mapper ----------

  function MapSshFailure(authenticationFailure: bool, setupVerifiedAt: Option<Time>): CheckStatus {
    if authenticationFailure then
      if setupVerifiedAt == None then CheckPendingSetup else CheckUnreachable
    else CheckUnreachable
  }

  predicate IsDockerMissing(r: CommandResult) {
    r.exitCode != Some(0) && r.dockerMissingText
  }

  function MapCommandResults(uptime: CommandResult, dockerPs: CommandResult): CheckStatus {
    if uptime.exitCode != Some(0) then CheckDegraded
    else if dockerPs.exitCode != Some(0) && !IsDockerMissing(dockerPs) then CheckDegraded
    else CheckHealthy
  }

  function Outcome(probe: Probe, setupVerifiedAt: Option<Time>): CheckStatus {
    match probe
    case NoSession(authenticationFailure) => MapSshFailure(authenticationFailure, setupVerifiedAt)
    case Session(uptime, dockerPs) => MapCommandResults(uptime, dockerPs)
  }

  function ToHostStatus(s: CheckStatus): HostStatus {
    match s
    case CheckHealthy => Healthy
    case CheckDegraded => Degraded
    case CheckUnreachable => Unreachable
    case CheckPendingSetup => PendingSetup
  }

  predicate IsSuccessfulConnection(s: CheckStatus) {
    s == CheckHealthy || s == CheckDegraded
  }

  // ---------- One check ----------

  /** What a check that loaded `loaded` saves, at time `now`. */
  function Checked(loaded: HostRow, probe: Probe, now: Time): HostRow {
    var outcome := Outcome(probe, loaded.setupVerifiedAt);
    HostRow(
      ToHostStatus(outcome),
      Some(now),
      if loaded.setupVerifiedAt == None && IsSuccessfulConnection(outcome) then Some(now) else loaded.setupVerifiedAt)
  }

  /** The row that creating a host stores. */
  const CREATED := HostRow(PendingSetup, None, None)

  class Host {
    var status: HostStatus
    var lastCheckedAt: Option<Time>
    var setupVerifiedAt: Option<Time>

    function Row(): HostRow
      reads this
    {
      HostRow(status, lastCheckedAt, setupVerifiedAt)
    }

    constructor ()
      ensures Row() == CREATED
    {
      status := PendingSetup;
      lastCheckedAt := None;
      setupVerifiedAt := None;
    }

    /** The body of checkHost, from loading the host to saving it; also the transition that alerting is told of. */
    method CheckHost(probe: Probe, now: Time) returns (previousStatus: HostStatus, newStatus: HostStatus)
      modifies this
      ensures Row() == Checked(old(Row()), probe, now)
      ensures previousStatus == old(status) && newStatus == status
    {
      previousStatus := status;
      var outcome := Outcome(probe, setupVerifiedAt);
      status := ToHostStatus(outcome);
      lastCheckedAt := Some(now);
      if setupVerifiedAt == None && IsSuccessfulConnection(outcome) {
        setupVerifiedAt := lastCheckedAt;
      }
      newStatus := status;
    }
  }

  // ---------- Any number of checks, one after another ----------

  datatype Check = Check(probe: Probe, at: Time)

  function AfterChecks(row: HostRow, checks: seq<Check>): HostRow
    decreases |checks|
  {
    if checks == [] then row else AfterChecks(Checked(row, checks[0].probe, checks[0].at), checks[1..])
  }

  /** The time of the first check that got a session. */
  function FirstSession(checks: seq<Check>): Option<Time> {
    if checks == [] then None
    else if checks[0].probe.Session? then Some(checks[0].at)
    else FirstSession(checks[1..])
  }

  lemma {:induction false} StampNeverChanges(row: HostRow, checks: seq<Check>)
    requires row.setupVerifiedAt.Some?
    ensures AfterChecks(row, checks).setupVerifiedAt == row.setupVerifiedAt
    ensures checks != [] ==> AfterChecks(row, checks).status != PendingSetup
    decreases |checks|
  {
    if checks != [] {
      var next := Checked(row, checks[0].probe, checks[0].at);
      StampNeverChanges(next, checks[1..]);
    }
  }

  lemma {:induction false} StampIsFirstSession(row: HostRow, checks: seq<Check>)
    requires row.setupVerifiedAt == None
    ensures AfterChecks(row, checks).setupVerifiedAt == FirstSession(checks)
    decreases |checks|
  {
    if checks != [] {
      var next := Checked(row, checks[0].probe, checks[0].at);
      if checks[0].probe.Session? {
        StampNeverChanges(next, checks[1..]);
      } else {
        StampIsFirstSession(next, checks[1..]);
      }
    }
  }

  predicate Consistent(row: HostRow) {
    && (row.status == PendingSetup ==> row.setupVerifiedAt == None)
    && (row.status == Healthy || row.status == Degraded ==> row.setupVerifiedAt.Some?)
    && row.status != Unknown
  }

  lemma {:induction false} ChecksKeepConsistent(row: HostRow, checks: seq<Check>)
    requires Consistent(row)
    ensures Consistent(AfterChecks(row, checks))
    decreases |checks|
  {
    if checks != [] {
      ChecksKeepConsistent(Checked(row, checks[0].probe, checks[0].at), checks[1..]);
    }
  }

  /**
    A created host, after any checks that do not overlap: the stamp is the time of its first session, waiting for
    setup means never verified, healthy or degraded means verified, and once verified it never waits for setup again,
    whatever later checks find.
   */
  lemma LifecycleOfCreatedHost(before: seq<Check>, after: seq<Check>)
    ensures var row := AfterChecks(CREATED, before);
            && row.setupVerifiedAt == FirstSession(before)
            && Consistent(row)
            && (row.setupVerifiedAt.Some? ==>
                  var later := AfterChecks(row, after);
                  later.setupVerifiedAt == row.setupVerifiedAt && later.status != PendingSetup)
  {
    StampIsFirstSession(CREATED, before);
    ChecksKeepConsistent(CREATED, before);
    var row := AfterChecks(CREATED, before);
    if row.setupVerifiedAt.Some? {
      StampNeverChanges(row, after);
    }
  }

  /** The final status is decided by the last check and by whether any check so far got a session. */
  lemma {:induction false} StatusIsLastOutcome(row: HostRow, checks: seq<Check>)
    requires checks != [] && row.setupVerifiedAt == None
    ensures AfterChecks(row, checks).status
         == ToHostStatus(Outcome(checks[|checks| - 1].probe, FirstSession(checks[..|checks| - 1])))
    decreases |checks|
  {
    var n := |checks| - 1;
    ChecksSnoc(row, checks[..n], checks[n]);
    assert checks == checks[..n] + [checks[n]];
    StampIsFirstSession(row, checks[..n]);
  }

  /** The i-th check is the first that got a session. */
  predicate IsFirstSession(checks: seq<Check>, i: int) {
    0 <= i < |checks| && checks[i].probe.Session? && forall j :: 0 <= j < i ==> !checks[j].probe.Session?
  }

  lemma {:induction false} FirstSessionIs(checks: seq<Check>)
    ensures FirstSession(checks).Some? ==>
              exists i :: IsFirstSession(checks, i) && checks[i].at == FirstSession(checks).value
    ensures FirstSession(checks).None? <==> forall j :: 0 <= j < |checks| ==> !checks[j].probe.Session?
  {
    if checks != [] {
      FirstSessionIs(checks[1..]);
      if checks[0].probe.Session? {
        assert IsFirstSession(checks, 0);
      } else if FirstSession(checks).Some? {
        var i :| IsFirstSession(checks[1..], i) && checks[1..][i].at == FirstSession(checks).value;
        assert IsFirstSession(checks, i + 1) && checks[i + 1].at == FirstSession(checks).value;
      } else {
        assert forall j :: 0 < j < |checks| ==> checks[j] == checks[1..][j - 1];
      }
    }
  }

  /** Both commands went well, or docker is not there at all. */
  predicate RunsWell(uptime: CommandResult, dockerPs: CommandResult) {
    uptime.exitCode == Some(0) && (dockerPs.exitCode == Some(0) || dockerPs.dockerMissingText)
  }

  /**
    In terms of what the checks of a new host met: healthy and degraded are sessions that went well or did not, pending
    setup is an authentication failure of a host that never had a session, and everything else is unreachable.
   */
  lemma StatusAfterChecks(checks: seq<Check>)
    requires checks != []
    ensures AfterChecks(CREATED, checks).lastCheckedAt == Some(checks[|checks| - 1].at)
    ensures var last, before := checks[|checks| - 1].probe, checks[..|checks| - 1];
            var status := AfterChecks(CREATED, checks).status;
            var verified := exists i :: 0 <= i < |before| && before[i].probe.Session?;
            && (status == Healthy <==> last.Session? && RunsWell(last.uptime, last.dockerPs))
            && (status == Degraded <==> last.Session? && !RunsWell(last.uptime, last.dockerPs))
            && (status == PendingSetup <==> last == NoSession(true) && !verified)
            && (status == Unreachable <==> last == NoSession(false) || (last == NoSession(true) && verified))
  {
    StatusIsLastOutcome(CREATED, checks);
    FirstSessionIs(checks[..|checks| - 1]);
    ChecksSnoc(CREATED, checks[..|checks| - 1], checks[|checks| - 1]);
    assert checks[..|checks| - 1] + [checks[|checks| - 1]] == checks;
    hide AfterChecks, FirstSession;
  }

  lemma {:induction false} ChecksSnoc(row: HostRow, checks: seq<Check>, c: Check)
    ensures AfterChecks(row, checks + [c]) == Checked(AfterChecks(row, checks), c.probe, c.at)
    decreases |checks|
  {
    if checks == [] {
      assert checks + [c] == [c] && [c][1..] == [];
    } else {
      ChecksSnoc(Checked(row, checks[0].probe, checks[0].at), checks[1..], c);
      assert (checks + [c])[1..] == checks[1..] + [c];
    }
  }

  // ---------- Why the checks must not overlap ----------

  /**
    Two checks that load the same row and save one after the other: the second saves what it computed from the
    row it loaded, so the first one's result is lost.
   */
  function AfterOverlap(row: HostRow, first: Check, second: Check): HostRow {
    Checked(row, second.probe, second.at)
  }

  /**
    Overlapping checks give what the same checks would give one after the other exactly when the row was already
    verified, or the first check got no session, or the second got one at the very same time.
   */
  lemma OverlapIsSerialIff(row: HostRow, first: Check, second: Check)
    ensures AfterOverlap(row, first, second) == AfterChecks(row, [first, second])
       <==> row.setupVerifiedAt.Some? || !first.probe.Session? || (second.probe.Session? && second.at == first.at)
  {
    TwoChecks(row, first, second);
  }

  lemma TwoChecks(row: HostRow, first: Check, second: Check)
    ensures AfterChecks(row, [first, second]) == Checked(Checked(row, first.probe, first.at), second.probe, second.at)
  {
    assert [first, second][1..] == [second] && [second][1..] == [];
    assert AfterChecks(Checked(row, first.probe, first.at), [second])
        == AfterChecks(Checked(Checked(row, first.probe, first.at), second.probe, second.at), []);
  }

  /**
    What becomes of the stamp of a host that was not verified: one after the other, it is the time of the first session
    of the two checks; overlapping, it is the second check's or nothing, whatever the first one found.
   */
  lemma OverlapStamp(row: HostRow, first: Check, second: Check)
    requires row.setupVerifiedAt == None
    ensures AfterChecks(row, [first, second]).setupVerifiedAt
         == if first.probe.Session? then Some(first.at) else AfterOverlap(row, first, second).setupVerifiedAt
    ensures AfterOverlap(row, first, second).setupVerifiedAt
         == if second.probe.Session? then Some(second.at) else None
  {
    TwoChecks(row, first, second);
  }

  /** The concrete failing run: verified at time 1 by the first check, back to waiting for setup by the second. */
  lemma OverlapLosesVerification()
    ensures var ok := CommandResult(Some(0), false);
            var first, second := Check(Session(ok, ok), 1), Check(NoSession(true), 2);
            && Checked(CREATED, first.probe, first.at) == HostRow(Healthy, Some(1), Some(1))
            && AfterOverlap(CREATED, first, second) == HostRow(PendingSetup, Some(2), None)
            && AfterChecks(CREATED, [first, second]) == HostRow(Unreachable, Some(2), Some(1))
  {
    var ok := CommandResult(Some(0), false);
    TwoChecks(CREATED, Check(Session(ok, ok), 1), Check(NoSession(true), 2));
  }
}
