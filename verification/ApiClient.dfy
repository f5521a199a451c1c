/**
  The frontend's API client: many concurrent requests, one shared token refresh. Every segment of code between two
  awaits is one atomic step, and the steps of all requests and refreshes interleave freely.
 */
module ApiClient {
  import opened Wrappers

  type RequestId = nat
  type RefreshId = nat

  const UNAUTHORIZED := 401

  /** What a refresh resolves to: a token, or nothing when the call failed. */
  type Outcome = Option<string>

  /** The refresh promise: its call is running, its call was answered, its finally handler has run. */
  datatype Refresh = Calling | Answered(outcome: Outcome) | Settled(outcome: Outcome)

  datatype Result = Response(status: int) | SessionExpired | NetworkError

  datatype Pc =
    | Sending(second: bool)          // the request's fetch is running
    | Waiting(refresh: RefreshId)    // awaiting the shared refresh
    | Finished(result: Result)

  datatype Request = Request(
    skipAuth: bool,
    pc: Pc,
    statuses: seq<int>,                        // the answers received so far
    sends: nat,                                // how often it was sent
    tokens: seq<Option<string>>,               // the access token that each send carried
    waits: nat,                                // how many refreshes it waited for
    startedRefresh: bool,                      // it is the one that started its refresh
    saw: Option<(RefreshId, Outcome)>          // the refresh that it was resumed by
  )

  datatype Client = Client(
    configured: bool,                          // tokenAccessors is set
    refreshToken: Option<string>,
    accessToken: Option<string>,
    refreshPromise: Option<RefreshId>,         // the module variable
    refreshes: seq<Refresh>,                   // every refresh ever started
    requests: map<RequestId, Request>
  )

  const INITIAL := Client(false, None, None, None, [], map[])

  // ---------- The steps ----------

  predicate Usable(token: Option<string>) {
    token.Some? && token.value != []
  }

  /** The token in the authorization header of a fetch that is sent now. */
  function Carried(configured: bool, accessToken: Option<string>, skipAuth: bool): Option<string> {
    if configured && Usable(accessToken) && !skipAuth then accessToken else None
  }

  function NewRequest(skipAuth: bool, token: Option<string>): Request {
    Request(skipAuth, Sending(false), [], 1, [token], 0, false, None)
  }

  function Start(c: Client, r: RequestId, skipAuth: bool): Client {
    c.(requests := c.requests[r := NewRequest(skipAuth, Carried(c.configured, c.accessToken, skipAuth))])
  }

  /** refreshAccessToken up to its first await: joins the refresh under way or starts one. */
  function JoinRefresh(c: Client): Client
    requires c.configured && Usable(c.refreshToken)
  {
    if c.refreshPromise.Some? then c
    else c.(refreshPromise := Some(|c.refreshes|), refreshes := c.refreshes + [Calling])
  }

  /** A request's fetch is answered. */
  function Respond(c: Client, r: RequestId, status: int): Client
    requires r in c.requests && c.requests[r].pc.Sending?
  {
    var q := c.requests[r].(statuses := c.requests[r].statuses + [status]);
    if !q.pc.second && status == UNAUTHORIZED && !q.skipAuth then
      if c.configured && Usable(c.refreshToken) then
        var joined := JoinRefresh(c);
        joined.(requests := c.requests[r := q.(pc := Waiting(joined.refreshPromise.value), waits := q.waits + 1,
                                               startedRefresh := c.refreshPromise == None)])
      else
        c.(requests := c.requests[r := q.(pc := Finished(SessionExpired))])
    else
      c.(requests := c.requests[r := q.(pc := Finished(Response(status)))])
  }

  /** A request's fetch rejects. */
  function Reject(c: Client, r: RequestId): Client
    requires r in c.requests
  {
    c.(requests := c.requests[r := c.requests[r].(pc := Finished(NetworkError))])
  }

  /** The refresh call is answered, or fails: the then and catch handlers run. */
  function Answer(c: Client, id: RefreshId, outcome: Outcome): Client
    requires id < |c.refreshes|
  {
    c.(refreshes := c.refreshes[id := Answered(outcome)],
       accessToken := if outcome.Some? && c.configured then outcome else c.accessToken)
  }

  /** The finally handler clears the module variable, and the promise resolves. */
  function Settle(c: Client, id: RefreshId): Client
    requires id < |c.refreshes| && c.refreshes[id].Answered?
  {
    c.(refreshes := c.refreshes[id := Settled(c.refreshes[id].outcome)], refreshPromise := None)
  }

  /** A waiting request is resumed: it is sent again with the new token, or its session is over. */
  function Resume(c: Client, r: RequestId): Client
    requires r in c.requests && c.requests[r].pc.Waiting?
    requires c.requests[r].pc.refresh < |c.refreshes| && c.refreshes[c.requests[r].pc.refresh].Settled?
  {
    var id := c.requests[r].pc.refresh;
    var outcome := c.refreshes[id].outcome;
    var q := c.requests[r].(saw := Some((id, outcome)));
    c.(requests := c.requests[r :=
      if Usable(outcome)
      then q.(pc := Sending(true), sends := q.sends + 1,
              tokens := q.tokens + [Carried(c.configured, c.accessToken, q.skipAuth)])
      else q.(pc := Finished(SessionExpired))])
  }

  /** Logging in and out and configuring the client may happen at any time. */
  function Reconfigure(c: Client, configured: bool, refreshToken: Option<string>, accessToken: Option<string>): Client {
    c.(configured := configured, refreshToken := refreshToken, accessToken := accessToken)
  }

  datatype Label =
    | StartStep(r: RequestId, skipAuth: bool)
    | RespondStep(r: RequestId, status: int)
    | RejectStep(r: RequestId)
    | AnswerStep(id: RefreshId, outcome: Outcome)
    | SettleStep(id: RefreshId)
    | ResumeStep(r: RequestId)
    | ReconfigureStep(configured: bool, refreshToken: Option<string>, accessToken: Option<string>)

  predicate Enabled(c: Client, step: Label) {
    match step
    case StartStep(r, _) => r !in c.requests
    case RespondStep(r, _) => r in c.requests && c.requests[r].pc.Sending?
    case RejectStep(r) => r in c.requests && c.requests[r].pc.Sending?
    case AnswerStep(id, _) => id < |c.refreshes| && c.refreshes[id].Calling?
    case SettleStep(id) => id < |c.refreshes| && c.refreshes[id].Answered?
    case ResumeStep(r) =>
      && r in c.requests && c.requests[r].pc.Waiting?
      && c.requests[r].pc.refresh < |c.refreshes| && c.refreshes[c.requests[r].pc.refresh].Settled?
    case ReconfigureStep(_, _, _) => true
  }

  function Apply(c: Client, step: Label): Client
    requires Enabled(c, step)
  {
    match step
    case StartStep(r, skipAuth) => Start(c, r, skipAuth)
    case RespondStep(r, status) => Respond(c, r, status)
    case RejectStep(r) => Reject(c, r)
    case AnswerStep(id, outcome) => Answer(c, id, outcome)
    case SettleStep(id) => Settle(c, id)
    case ResumeStep(r) => Resume(c, r)
    case ReconfigureStep(configured, refreshToken, accessToken) => Reconfigure(c, configured, refreshToken, accessToken)
  }

  /** A run from c: every step is enabled where it is taken. */
  predicate IsRun(c: Client, steps: seq<Label>)
    decreases |steps|
  {
    steps != [] ==> Enabled(c, steps[0]) && IsRun(Apply(c, steps[0]), steps[1..])
  }

  function After(c: Client, steps: seq<Label>): Client
    requires IsRun(c, steps)
    decreases |steps|
  {
    if steps == [] then c else After(Apply(c, steps[0]), steps[1..])
  }

  // ---------- The invariant ----------

  /** The module variable names the one refresh that has not settled, which is the latest. */
  predicate RefreshesOk(c: Client) {
    && (c.refreshPromise.Some? ==> |c.refreshes| > 0 && c.refreshPromise.value == |c.refreshes| - 1)
    && forall id :: 0 <= id < |c.refreshes| ==> (c.refreshes[id].Settled? <==> c.refreshPromise != Some(id))
  }

  predicate RequestOk(refreshes: seq<Refresh>, q: Request) {
    && 1 <= q.sends <= 2 && q.waits <= 1 && |q.tokens| == q.sends
    && (q.skipAuth ==> q.sends == 1 && q.waits == 0 && q.tokens == [None])
    && (q.startedRefresh ==> q.waits == 1)
    && (q.waits == 1 <==> q.pc.Waiting? || q.saw.Some?)
    && (q.waits == 1 ==> |q.statuses| >= 1 && q.statuses[0] == UNAUTHORIZED)
    && (q.saw.Some? ==> q.saw.value.0 < |refreshes| && refreshes[q.saw.value.0] == Settled(q.saw.value.1))
    && (q.sends == 2 <==> q.saw.Some? && Usable(q.saw.value.1))
    && match q.pc
       case Sending(second) => |q.statuses| == q.sends - 1 && second == (q.sends == 2) && second == q.saw.Some?
       case Waiting(id) => |q.statuses| == 1 && q.sends == 1 && id < |refreshes| && q.saw.None?
       case Finished(Response(status)) =>
         && |q.statuses| == q.sends && q.statuses[q.sends - 1] == status
         && (status == UNAUTHORIZED && !q.skipAuth ==> q.sends == 2)
       case Finished(SessionExpired) =>
         && q.statuses == [UNAUTHORIZED] && !q.skipAuth && q.sends == 1
         && (q.saw.Some? ==> !Usable(q.saw.value.1))
       case Finished(NetworkError) => |q.statuses| == q.sends - 1
  }

  function Starters(c: Client): set<RequestId> {
    set r | r in c.requests && c.requests[r].startedRefresh
  }

  ghost predicate Inv(c: Client) {
    && RefreshesOk(c)
    && (forall r :: r in c.requests ==> RequestOk(c.refreshes, c.requests[r]))
    && |Starters(c)| == |c.refreshes|
  }

  lemma OneMoreRefresh(refreshes: seq<Refresh>, q: Request)
    requires RequestOk(refreshes, q)
    ensures RequestOk(refreshes + [Calling], q)
  {
  }

  lemma JoinKeepsOk(c: Client)
    requires RefreshesOk(c) && c.configured && Usable(c.refreshToken)
    requires forall r :: r in c.requests ==> RequestOk(c.refreshes, c.requests[r])
    ensures var c' := JoinRefresh(c);
            && RefreshesOk(c') && c'.refreshPromise.Some? && c'.refreshPromise.value < |c'.refreshes|
            && c'.requests == c.requests
            && (forall r :: r in c.requests ==> RequestOk(c'.refreshes, c.requests[r]))
  {
    if c.refreshPromise == None {
      forall r | r in c.requests
        ensures RequestOk(c.refreshes + [Calling], c.requests[r])
      {
        OneMoreRefresh(c.refreshes, c.requests[r]);
      }
    }
  }

  lemma PutRequest(c: Client, r: RequestId, q: Request)
    requires RefreshesOk(c) && RequestOk(c.refreshes, q)
    requires forall x :: x in c.requests ==> RequestOk(c.refreshes, c.requests[x])
    requires q.startedRefresh ==> r !in Starters(c)
    requires r in c.requests && c.requests[r].startedRefresh ==> q.startedRefresh
    requires |Starters(c)| + (if q.startedRefresh then 1 else 0) == |c.refreshes|
    ensures Inv(c.(requests := c.requests[r := q]))
  {
    hide RequestOk;
    var c' := c.(requests := c.requests[r := q]);
    assert Starters(c') == Starters(c) + if q.startedRefresh then {r} else {};
  }

  lemma RespondKeepsInv(c: Client, r: RequestId, status: int)
    requires Inv(c) && r in c.requests && c.requests[r].pc.Sending?
    ensures Inv(Respond(c, r, status))
  {
    var p := c.requests[r];
    if !p.pc.second && status == UNAUTHORIZED && !p.skipAuth && c.configured && Usable(c.refreshToken) {
      JoiningKeepsInv(c, r);
    } else {
      FinishingKeepsOk(c, r, status);
      hide RequestOk, RefreshesOk, Usable;
      assert Starters(Respond(c, r, status)) == Starters(c);
    }
  }

  lemma FinishingKeepsOk(c: Client, r: RequestId, status: int)
    requires r in c.requests && c.requests[r].pc.Sending? && RequestOk(c.refreshes, c.requests[r])
    requires var p := c.requests[r];
             p.pc.second || status != UNAUTHORIZED || p.skipAuth || !c.configured || !Usable(c.refreshToken)
    ensures RequestOk(c.refreshes, Respond(c, r, status).requests[r])
    ensures Respond(c, r, status) == c.(requests := c.requests[r := Respond(c, r, status).requests[r]])
    ensures Respond(c, r, status).requests[r].startedRefresh == c.requests[r].startedRefresh
  {
  }

  lemma JoiningKeepsInv(c: Client, r: RequestId)
    requires Inv(c) && r in c.requests && c.requests[r].pc == Sending(false) && !c.requests[r].skipAuth
    requires c.configured && Usable(c.refreshToken)
    ensures Inv(Respond(c, r, UNAUTHORIZED))
  {
    var c' := Respond(c, r, UNAUTHORIZED);
    JoinKeepsOk(c);
    var joined := JoinRefresh(c);
    assert RequestOk(c.refreshes, c.requests[r]);
    assert Starters(joined) == Starters(c);
    assert RequestOk(joined.refreshes, c'.requests[r]);
    hide RequestOk, RefreshesOk;
    PutRequest(joined, r, c'.requests[r]);
  }

  lemma RefreshStepKeepsInv(c: Client, step: Label)
    requires Inv(c) && Enabled(c, step) && (step.AnswerStep? || step.SettleStep?)
    ensures Inv(Apply(c, step))
  {
    assert Starters(Apply(c, step)) == Starters(c);
  }

  lemma StartKeepsInv(c: Client, r: RequestId, skipAuth: bool)
    requires Inv(c) && r !in c.requests
    ensures Inv(Start(c, r, skipAuth))
  {
    var q := NewRequest(skipAuth, Carried(c.configured, c.accessToken, skipAuth));
    assert RequestOk(c.refreshes, q);
    hide RequestOk, RefreshesOk, Carried;
    PutRequest(c, r, q);
  }

  lemma ResumedOk(c: Client, r: RequestId)
    requires Enabled(c, ResumeStep(r)) && RequestOk(c.refreshes, c.requests[r])
    ensures var q := Resume(c, r).requests[r];
            RequestOk(c.refreshes, q) && q.startedRefresh == c.requests[r].startedRefresh
  {
  }

  lemma ResumeKeepsInv(c: Client, r: RequestId)
    requires Inv(c) && Enabled(c, ResumeStep(r))
    ensures Inv(Resume(c, r))
  {
    ResumedOk(c, r);
    hide RequestOk, RefreshesOk, Carried, Usable;
    assert Starters(Resume(c, r)) == Starters(c);
  }

  lemma RequestStepKeepsInv(c: Client, step: Label)
    requires Inv(c) && Enabled(c, step) && (step.RejectStep? || step.ReconfigureStep?)
    ensures Inv(Apply(c, step))
  {
    assert Starters(Apply(c, step)) == Starters(c);
  }

  lemma StepKeepsInv(c: Client, step: Label)
    requires Inv(c) && Enabled(c, step)
    ensures Inv(Apply(c, step))
  {
    if step.RespondStep? {
      RespondKeepsInv(c, step.r, step.status);
    } else if step.AnswerStep? || step.SettleStep? {
      RefreshStepKeepsInv(c, step);
    } else if step.StartStep? {
      StartKeepsInv(c, step.r, step.skipAuth);
    } else if step.ResumeStep? {
      ResumeKeepsInv(c, step.r);
    } else {
      RequestStepKeepsInv(c, step);
    }
  }

  lemma {:induction false} RunKeepsInv(c: Client, steps: seq<Label>)
    requires Inv(c) && IsRun(c, steps)
    ensures Inv(After(c, steps))
    decreases |steps|
  {
    if steps != [] {
      StepKeepsInv(c, steps[0]);
      RunKeepsInv(Apply(c, steps[0]), steps[1..]);
    }
  }

  lemma InitiallyInv()
    ensures Inv(INITIAL)
  {
    assert Starters(INITIAL) == {};
  }

  // ---------- What holds in every run ----------

  /** However requests interleave, no two refreshes are ever unsettled at the same time. */
  lemma AtMostOneRefreshInFlight(steps: seq<Label>)
    requires IsRun(INITIAL, steps)
    ensures var c := After(INITIAL, steps);
            forall i, j | 0 <= i < |c.refreshes| && 0 <= j < |c.refreshes| ::
              !c.refreshes[i].Settled? && !c.refreshes[j].Settled? ==> i == j
  {
    InitiallyInv();
    RunKeepsInv(INITIAL, steps);
  }

  /** All requests that were resumed by one refresh saw the same outcome. */
  lemma WaitersAgree(steps: seq<Label>, r1: RequestId, r2: RequestId)
    requires IsRun(INITIAL, steps)
    requires r1 in After(INITIAL, steps).requests && r2 in After(INITIAL, steps).requests
    ensures var q1, q2 := After(INITIAL, steps).requests[r1], After(INITIAL, steps).requests[r2];
            (q1.saw.Some? && q2.saw.Some? && q1.saw.value.0 == q2.saw.value.0) ==> q1.saw == q2.saw
  {
    InitiallyInv();
    RunKeepsInv(INITIAL, steps);
    var c := After(INITIAL, steps);
    assert RequestOk(c.refreshes, c.requests[r1]) && RequestOk(c.refreshes, c.requests[r2]);
  }

  /**
    Every request is sent at most twice and waits for at most one refresh, and it is sent a second time exactly when
    its first answer was 401 and the refresh it waited for gave a token. A request that opted out does neither.
   */
  lemma AtMostOneRetry(steps: seq<Label>, r: RequestId)
    requires IsRun(INITIAL, steps) && r in After(INITIAL, steps).requests
    ensures var q := After(INITIAL, steps).requests[r];
            && 1 <= q.sends <= 2 && q.waits <= 1
            && (q.skipAuth ==> q.sends == 1 && q.waits == 0)
            && (q.sends == 2 <==> q.saw.Some? && Usable(q.saw.value.1))
            && (q.sends == 2 ==> q.statuses != [] && q.statuses[0] == UNAUTHORIZED)
  {
    InitiallyInv();
    RunKeepsInv(INITIAL, steps);
    assert RequestOk(After(INITIAL, steps).refreshes, After(INITIAL, steps).requests[r]);
  }

  /** How a request ended says what it was answered: its last status, or 401 and no usable token, or nothing. */
  lemma ResultIsLastAnswer(steps: seq<Label>, r: RequestId)
    requires IsRun(INITIAL, steps) && r in After(INITIAL, steps).requests
    requires After(INITIAL, steps).requests[r].pc.Finished?
    ensures var q := After(INITIAL, steps).requests[r];
            && (q.pc.result.Response? ==>
                  && |q.statuses| == q.sends >= 1 && q.pc.result.status == q.statuses[q.sends - 1]
                  && (q.pc.result.status == 401 && !q.skipAuth ==> q.sends == 2))
            && (q.pc.result.SessionExpired? ==>
                  q.statuses == [401] && !q.skipAuth && q.sends == 1 && (q.saw.Some? ==> !Usable(q.saw.value.1)))
            && (q.pc.result.NetworkError? ==> |q.statuses| == q.sends - 1)
  {
    InitiallyInv();
    RunKeepsInv(INITIAL, steps);
    assert RequestOk(After(INITIAL, steps).refreshes, After(INITIAL, steps).requests[r]);
  }

  /** Nobody logs in, out or configures the client, and no further refresh is answered. */
  predicate LeavesToken(steps: seq<Label>) {
    forall k :: 0 <= k < |steps| ==> !steps[k].ReconfigureStep? && !steps[k].AnswerStep?
  }

  lemma StepLeavesToken(c: Client, step: Label)
    requires Enabled(c, step) && !step.ReconfigureStep? && !step.AnswerStep?
    ensures Apply(c, step).accessToken == c.accessToken && Apply(c, step).configured == c.configured
  {
  }

  lemma {:induction false} RunLeavesToken(c: Client, steps: seq<Label>)
    requires IsRun(c, steps) && LeavesToken(steps)
    ensures After(c, steps).accessToken == c.accessToken && After(c, steps).configured == c.configured
    decreases |steps|
  {
    if steps != [] {
      StepLeavesToken(c, steps[0]);
      hide Apply, Enabled;
      RunLeavesToken(Apply(c, steps[0]), steps[1..]);
    }
  }

  lemma OutcomeStays(c: Client, step: Label, id: RefreshId)
    requires Enabled(c, step) && id < |c.refreshes| && !c.refreshes[id].Calling?
    ensures id < |Apply(c, step).refreshes| && !Apply(c, step).refreshes[id].Calling?
    ensures Apply(c, step).refreshes[id].outcome == c.refreshes[id].outcome
  {
  }

  lemma {:induction false} OutcomeStaysOverRun(c: Client, steps: seq<Label>, id: RefreshId)
    requires IsRun(c, steps) && id < |c.refreshes| && !c.refreshes[id].Calling?
    ensures id < |After(c, steps).refreshes| && !After(c, steps).refreshes[id].Calling?
    ensures After(c, steps).refreshes[id].outcome == c.refreshes[id].outcome
    decreases |steps|
  {
    if steps != [] {
      OutcomeStays(c, steps[0], id);
      hide Apply, Enabled;
      OutcomeStaysOverRun(Apply(c, steps[0]), steps[1..], id);
    }
  }

  lemma AnswerSetsToken(c: Client, id: RefreshId, token: string)
    requires Enabled(c, AnswerStep(id, Some(token))) && c.configured
    ensures var c' := Apply(c, AnswerStep(id, Some(token)));
            && c'.configured && c'.accessToken == Some(token)
            && id < |c'.refreshes| && !c'.refreshes[id].Calling? && c'.refreshes[id].outcome == Some(token)
  {
  }

  lemma ResumeSendsToken(c: Client, r: RequestId, token: string)
    requires Inv(c) && Enabled(c, ResumeStep(r)) && c.configured && c.accessToken == Some(token) && token != []
    requires c.refreshes[c.requests[r].pc.refresh].outcome == Some(token)
    ensures var q := Apply(c, ResumeStep(r)).requests[r];
            q.pc == Sending(true) && |q.tokens| == 2 && q.tokens[1] == Some(token)
  {
    assert RequestOk(c.refreshes, c.requests[r]);
  }

  /**
    In every run: a refresh gives a token, and then, whatever requests and refreshes do, a request that waited for it is
    sent again with that very token, as long as nobody reconfigures the client and no later refresh is answered.
   */
  lemma RetryCarriesNewToken(first: seq<Label>, id: RefreshId, token: string, second: seq<Label>, r: RequestId)
    requires IsRun(INITIAL, first) && token != []
    requires After(INITIAL, first).configured && Enabled(After(INITIAL, first), AnswerStep(id, Some(token)))
    requires var c1 := Apply(After(INITIAL, first), AnswerStep(id, Some(token)));
             && IsRun(c1, second) && LeavesToken(second)
             && Enabled(After(c1, second), ResumeStep(r)) && After(c1, second).requests[r].pc == Waiting(id)
    ensures var c2 := After(Apply(After(INITIAL, first), AnswerStep(id, Some(token))), second);
            var q := Apply(c2, ResumeStep(r)).requests[r];
            q.pc == Sending(true) && |q.tokens| == 2 && q.tokens[1] == Some(token)
  {
    var c0 := After(INITIAL, first);
    var c1 := Apply(c0, AnswerStep(id, Some(token)));
    InitiallyInv();
    RunKeepsInv(INITIAL, first);
    StepKeepsInv(c0, AnswerStep(id, Some(token)));
    AnswerSetsToken(c0, id, token);
    RunKeepsInv(c1, second);
    RunLeavesToken(c1, second);
    OutcomeStaysOverRun(c1, second, id);
    ResumeSendsToken(After(c1, second), r, token);
  }

  /** The stored token and whether there is a store, told from the steps alone: logging in or out, and answers. */
  function Stored(configured: bool, token: Option<string>, steps: seq<Label>): (bool, Option<string>)
    decreases |steps|
  {
    if steps == [] then (configured, token)
    else
      match steps[0]
      case ReconfigureStep(connected, _, given) => Stored(connected, given, steps[1..])
      case AnswerStep(_, Some(given)) => Stored(configured, if configured then Some(given) else token, steps[1..])
      case _ => Stored(configured, token, steps[1..])
  }

  /** In every run nothing but a login, a logout or the answer of a refresh ever changes the stored token. */
  lemma {:induction false} TokenIsStored(c: Client, steps: seq<Label>)
    requires IsRun(c, steps)
    ensures (After(c, steps).configured, After(c, steps).accessToken) == Stored(c.configured, c.accessToken, steps)
    decreases |steps|
  {
    if steps != [] {
      TokenAfterStep(c, steps[0]);
      var next := Apply(c, steps[0]);
      hide Apply, Enabled;
      TokenIsStored(next, steps[1..]);
    }
  }

  lemma TokenAfterStep(c: Client, step: Label)
    requires Enabled(c, step)
    ensures (Apply(c, step).configured, Apply(c, step).accessToken)
         == match step
            case ReconfigureStep(connected, _, given) => (connected, given)
            case AnswerStep(_, Some(given)) => (c.configured, if c.configured then Some(given) else c.accessToken)
            case _ => (c.configured, c.accessToken)
  {
  }

  /** A request that opted out of authorization carries no token; any other carries the one stored when it is sent. */
  lemma FirstSendCarries(steps: seq<Label>, r: RequestId, skipAuth: bool)
    requires IsRun(INITIAL, steps) && Enabled(After(INITIAL, steps), StartStep(r, skipAuth))
    ensures var c := After(INITIAL, steps);
            Apply(c, StartStep(r, skipAuth)).requests[r].tokens
            == [if !skipAuth && c.configured && Usable(c.accessToken) then c.accessToken else None]
  {
  }

  function Rejected(c: Client): set<RequestId> {
    set r | && r in c.requests && !c.requests[r].skipAuth
            && c.requests[r].statuses != [] && c.requests[r].statuses[0] == UNAUTHORIZED
  }

  lemma SubsetSize<T>(a: set<T>, b: set<T>)
    requires a <= b
    ensures |a| <= |b|
  {
    if a != {} {
      var x :| x in a;
      SubsetSize(a - {x}, b - {x});
    }
  }

  /** Refresh calls are never more than the requests that were answered 401: nothing else starts one. */
  lemma RefreshesBounded(steps: seq<Label>)
    requires IsRun(INITIAL, steps)
    ensures var c := After(INITIAL, steps); |c.refreshes| <= |Rejected(c)|
  {
    InitiallyInv();
    RunKeepsInv(INITIAL, steps);
    var c := After(INITIAL, steps);
    forall r | r in Starters(c)
      ensures r in Rejected(c)
    {
      assert RequestOk(c.refreshes, c.requests[r]);
    }
    SubsetSize(Starters(c), Rejected(c));
  }

  /** While a refresh is under way, a request answered 401 joins it instead of starting another. */
  lemma LateComersJoin(steps: seq<Label>, r: RequestId)
    requires IsRun(INITIAL, steps)
    requires var c := After(INITIAL, steps);
             && c.refreshPromise.Some? && c.configured && Usable(c.refreshToken)
             && r in c.requests && c.requests[r].pc == Sending(false) && !c.requests[r].skipAuth
    ensures var c := After(INITIAL, steps);
            var c' := Respond(c, r, UNAUTHORIZED);
            && c'.refreshes == c.refreshes
            && c'.requests[r].pc.Waiting?
            && c'.requests[r].pc.refresh < |c.refreshes|
            && !c.refreshes[c'.requests[r].pc.refresh].Settled?
  {
    InitiallyInv();
    RunKeepsInv(INITIAL, steps);
  }

  // ---------- The client with its module variables ----------

  class ApiClient {
    var configured: bool
    var refreshToken: Option<string>
    var accessToken: Option<string>
    var refreshPromise: Option<RefreshId>
    var refreshes: seq<Refresh>
    var requests: map<RequestId, Request>

    function State(): Client
      reads this
    {
      Client(configured, refreshToken, accessToken, refreshPromise, refreshes, requests)
    }

    constructor ()
      ensures State() == INITIAL
    {
      configured := false;
      refreshToken, accessToken, refreshPromise := None, None, None;
      refreshes := [];
      requests := map[];
    }

    /** The call of refreshAccessToken: the promise to wait for, or None for a result of null. */
    method RefreshAccessToken() returns (promise: Option<RefreshId>)
      modifies this
      ensures if old(configured) && Usable(old(refreshToken))
              then State() == JoinRefresh(old(State())) && promise == refreshPromise && promise.Some?
              else State() == old(State()) && promise == None
    {
      if !configured {
        return None;
      }
      if !Usable(refreshToken) {
        return None;
      }
      if refreshPromise == None {
        refreshPromise := Some(|refreshes|);
        refreshes := refreshes + [Calling];
      }
      return refreshPromise;
    }

    method OnStart(r: RequestId, skipAuth: bool)
      requires Enabled(State(), StartStep(r, skipAuth))
      modifies this
      ensures State() == Apply(old(State()), StartStep(r, skipAuth))
    {
      requests := requests[r := NewRequest(skipAuth, Carried(configured, accessToken, skipAuth))];
    }

    /** The code of request from one fetch's answer to the next await or the end. */
    method OnResponse(r: RequestId, status: int)
      requires Enabled(State(), RespondStep(r, status))
      modifies this
      ensures State() == Apply(old(State()), RespondStep(r, status))
    {
      var q := requests[r].(statuses := requests[r].statuses + [status]);
      if !q.pc.second && status == UNAUTHORIZED && !q.skipAuth {
        var alone := refreshPromise == None;
        var promise := RefreshAccessToken();
        if promise.Some? {
          q := q.(pc := Waiting(promise.value), waits := q.waits + 1, startedRefresh := alone);
        } else {
          q := q.(pc := Finished(SessionExpired));
        }
      } else {
        q := q.(pc := Finished(Response(status)));
      }
      requests := requests[r := q];
    }

    method OnRefreshAnswered(id: RefreshId, outcome: Outcome)
      requires Enabled(State(), AnswerStep(id, outcome))
      modifies this
      ensures State() == Apply(old(State()), AnswerStep(id, outcome))
    {
      if outcome.Some? && configured {
        accessToken := outcome;
      }
      refreshes := refreshes[id := Answered(outcome)];
    }

    method OnRefreshFinally(id: RefreshId)
      requires Enabled(State(), SettleStep(id))
      modifies this
      ensures State() == Apply(old(State()), SettleStep(id))
    {
      refreshes := refreshes[id := Settled(refreshes[id].outcome)];
      refreshPromise := None;
    }

    /** The code of request after its await of the refresh. */
    method OnResume(r: RequestId)
      requires Enabled(State(), ResumeStep(r))
      modifies this
      ensures State() == Apply(old(State()), ResumeStep(r))
    {
      var id := requests[r].pc.refresh;
      var outcome := refreshes[id].outcome;
      var q := requests[r].(saw := Some((id, outcome)));
      if Usable(outcome) {
        q := q.(pc := Sending(true), sends := q.sends + 1,
                tokens := q.tokens + [Carried(configured, accessToken, q.skipAuth)]);
      } else {
        q := q.(pc := Finished(SessionExpired));
      }
      requests := requests[r := q];
    }
  }
}
