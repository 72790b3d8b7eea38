/** The browser client's access token: frontend/lib/api/token.ts and the interceptors of
    frontend/lib/api/http.ts, as an event loop in which requests, responses and refreshes interleave. */
module TokenRefresh {
  import opened Wrappers
  import opened Sums

  type Id = Schema.Id

  datatype Outcome = Refreshed(token: string) | Failed

  /** A refresh promise: on the wire, past its then or catch, past its finally. */
  datatype Phase = Fetching | Landed(out: Outcome) | Settled(out: Outcome)

  datatype Flight = Flight(sent: string, phase: Phase)

  datatype Stage = OnWire | Awaiting | Done(ok: bool)

  /** One API request, with the flight it joined after a 401. */
  datatype Call = Call(stage: Stage, sends: nat, retried: bool, header: Option<string>, flight: Option<nat>)

  datatype Reply = Success | Unauthorized | OtherError

  /** How a /refresh call ends: an error, a token, or a token that the listener at one place, or the callback after
      them, threw on. */
  datatype Landing = Rejected | Granted(token: string) | ListenerThrew(token: string, at: nat) | CallbackThrew(token: string)

  type Calls = map<Id, Call>

  /** The module variables, then the promises and requests of the event loop, then what was reported outside.
      `told` is the last token each listener was given, or could read when it subscribed; `owed` are the
      listeners that a later change has not reached, because one before them threw. `unheard` and
      `unreported` are reports made while no callbacks were installed. */
  datatype State = Snapshot(accessToken: Option<string>, refreshToken: Option<string>, refreshPromise: Option<nat>,
                            listeners: seq<nat>, configured: bool,
                            flights: seq<Flight>, calls: Calls,
                            authFailures: nat, unheard: nat, refused: nat,
                            told: map<nat, Option<string>>, owed: set<nat>,
                            reported: seq<string>, unreported: seq<string>)

  datatype Event =
    | Configure
    | Subscribe(listener: nat)
    | Unsubscribe(listener: nat)
    | SetTokens(access: Option<string>, refresh: Option<string>, threw: Option<nat>)
    | Issue(c: Id)
    | Respond(c: Id, reply: Reply)
    | Land(f: nat, landing: Landing)
    | Settle(f: nat)
    | Resume(c: Id)

  predicate Truthy(token: Option<string>) {
    token.Some? && token.value != ""
  }

  const START := Snapshot(None, None, None, [], false, [], map[], 0, 0, 0, map[], {}, [], [])

  // ---------- steps ----------

  function WithFailureReported(s: State): State {
    if s.configured then s.(authFailures := s.authFailures + 1) else s.(unheard := s.unheard + 1)
  }

  function Told(told: map<nat, Option<string>>, reached: seq<nat>, token: Option<string>): map<nat, Option<string>> {
    map l | l in told.Keys + (set x | x in reached) :: if l in reached then token else told[l]
  }

  /** The current token goes to the first `n` listeners; the others are owed it. */
  function Notified(s: State, n: nat): State
    requires n <= |s.listeners|
  {
    s.(told := Told(s.told, s.listeners[..n], s.accessToken),
       owed := s.owed - (set x | x in s.listeners[..n]) + (set x | x in s.listeners[n..]))
  }

  function WithToken(s: State, token: Option<string>, n: nat): State
    requires n <= |s.listeners|
  {
    Notified(s.(accessToken := token), n)
  }

  function WithRefreshReported(s: State, token: string): State {
    if s.configured then s.(reported := s.reported + [token]) else s.(unreported := s.unreported + [token])
  }

  /** How many listeners a change reaches when the one at `threw` throws. */
  function Reached(s: State, threw: Option<nat>): nat {
    match threw case Some(at) => at + 1 case None => |s.listeners|
  }

  function Without(listeners: seq<nat>, l: nat): seq<nat> {
    if listeners == [] then []
    else if listeners[0] == l then Without(listeners[1..], l)
    else [listeners[0]] + Without(listeners[1..], l)
  }

  function WithCall(s: State, c: Id, call: Call): State {
    s.(calls := s.calls[c := call])
  }

  /** The request interceptor writes the current token over whatever header there is. */
  function Sent(s: State, call: Call): Call {
    call.(stage := OnWire, sends := call.sends + 1,
          header := if Truthy(s.accessToken) then s.accessToken else call.header)
  }

  /** refreshAccessToken on behalf of a request: refuse, join, or start a flight. */
  function AfterRefreshFor(s: State, c: Id): State
    requires c in s.calls
  {
    var call := s.calls[c].(retried := true);
    if !Truthy(s.refreshToken) then
      WithCall(WithFailureReported(s.(refused := s.refused + 1)), c, call.(stage := Done(false)))
    else if s.refreshPromise.Some? then
      WithCall(s, c, call.(stage := Awaiting, flight := s.refreshPromise))
    else
      WithCall(s.(flights := s.flights + [Flight(s.refreshToken.value, Fetching)], refreshPromise := Some(|s.flights|)),
               c, call.(stage := Awaiting, flight := Some(|s.flights|)))
  }

  function AfterRespond(s: State, c: Id, reply: Reply): State
    requires c in s.calls
  {
    var call := s.calls[c];
    if reply == Success then WithCall(s, c, call.(stage := Done(true)))
    else if reply == Unauthorized && !call.retried then AfterRefreshFor(s, c)
    else WithCall(s, c, call.(stage := Done(false)))
  }

  function WithPhase(s: State, f: nat, phase: Phase): State
    requires f < |s.flights|
  {
    s.(flights := s.flights[f := s.flights[f].(phase := phase)])
  }

  predicate CanLand(s: State, landing: Landing) {
    match landing
    case ListenerThrew(_, at) => at < |s.listeners|
    case CallbackThrew(_) => s.configured
    case _ => true
  }

  function OutcomeOf(landing: Landing): Outcome {
    if landing.Granted? then Refreshed(landing.token) else Failed
  }

  /** The then and catch callbacks. */
  function Heard(s: State, landing: Landing): State
    requires CanLand(s, landing)
  {
    match landing
    case Rejected => WithFailureReported(s)
    case Granted(token) => WithRefreshReported(WithToken(s, Some(token), |s.listeners|), token)
    case ListenerThrew(token, at) => WithFailureReported(WithToken(s, Some(token), at + 1))
    case CallbackThrew(token) =>
      WithFailureReported(WithRefreshReported(WithToken(s, Some(token), |s.listeners|), token))
  }

  function AfterLand(s: State, f: nat, landing: Landing): State
    requires f < |s.flights| && CanLand(s, landing)
  {
    Heard(WithPhase(s, f, Landed(OutcomeOf(landing))), landing)
  }

  function AfterResume(s: State, c: Id, out: Outcome): State
    requires c in s.calls
  {
    var call := s.calls[c];
    match out
    case Refreshed(token) => WithCall(s, c, Sent(s, call.(header := Some(token))))
    case Failed => WithCall(s, c, call.(stage := Done(false)))
  }

  predicate Enabled(s: State, e: Event) {
    match e
    case Configure => true
    case Subscribe(_) => true
    case Unsubscribe(_) => true
    case SetTokens(access, _, threw) => threw.Some? ==> threw.value < |s.listeners| && access != s.accessToken
    case Issue(c) => c !in s.calls
    case Respond(c, _) => c in s.calls && s.calls[c].stage == OnWire
    case Land(f, landing) => f < |s.flights| && s.flights[f].phase == Fetching && CanLand(s, landing)
    case Settle(f) => f < |s.flights| && s.flights[f].phase.Landed?
    case Resume(c) => c in s.calls && s.calls[c].stage == Awaiting && s.calls[c].flight.Some?
                      && s.calls[c].flight.value < |s.flights| && s.flights[s.calls[c].flight.value].phase.Settled?
  }

  function After(s: State, e: Event): State
    requires Enabled(s, e)
  {
    match e
    case Configure => s.(configured := true)
    case Subscribe(l) =>
      if l in s.listeners then s
      else s.(listeners := s.listeners + [l], told := s.told[l := s.accessToken], owed := s.owed - {l})
    case Unsubscribe(l) => s.(listeners := Without(s.listeners, l))
    case SetTokens(access, refresh, threw) =>
      var t := s.(accessToken := access, refreshToken := refresh);
      if access != s.accessToken then Notified(t, Reached(s, threw)) else t
    case Issue(c) => WithCall(s, c, Sent(s, Call(OnWire, 0, false, None, None)))
    case Respond(c, reply) => AfterRespond(s, c, reply)
    case Land(f, landing) => AfterLand(s, f, landing)
    // finally clears the module variable, whichever flight it belongs to.
    case Settle(f) => WithPhase(s, f, Settled(s.flights[f].phase.out)).(refreshPromise := None)
    case Resume(c) => AfterResume(s, c, s.flights[s.calls[c].flight.value].phase.out)
  }

  predicate ValidRun(s: State, events: seq<Event>)
    decreases |events|
  {
    events == [] || (Enabled(s, events[0]) && ValidRun(After(s, events[0]), events[1..]))
  }

  function Run(s: State, events: seq<Event>): State
    requires ValidRun(s, events)
    decreases |events|
  {
    if events == [] then s else Run(After(s, events[0]), events[1..])
  }

  // ---------- what every step keeps ----------

  /** Only the flight held in the module variable is unsettled, and it is. */
  ghost predicate SingleFlight(flights: seq<Flight>, refreshPromise: Option<nat>) {
    && (forall f | 0 <= f < |flights| && !flights[f].phase.Settled? :: refreshPromise == Some(f))
    && (refreshPromise.Some? ==> refreshPromise.value < |flights| && !flights[refreshPromise.value].phase.Settled?)
  }

  /** At most two sends, and a second one exactly when the flight that was joined brought a token. */
  ghost predicate CallOk(flights: seq<Flight>, call: Call) {
    && 1 <= call.sends <= 2
    && (call.flight.Some? ==> call.retried && call.flight.value < |flights|)
    && (call.flight.None? ==> call.sends == 1)
    && (call.stage == Awaiting ==> call.flight.Some? && call.sends == 1)
    && (call.stage == OnWire ==> (call.retried <==> call.flight.Some?))
    && (call.flight.Some? && call.stage != Awaiting ==>
          && flights[call.flight.value].phase.Settled?
          && (call.sends == 2 <==> flights[call.flight.value].phase.out.Refreshed?))
    && (call.retried && call.stage in {OnWire, Done(true)} ==> call.sends == 2)
  }

  ghost predicate CallsOk(flights: seq<Flight>, calls: Calls) {
    forall c {:trigger calls[c]} | c in calls :: CallOk(flights, calls[c])
  }

  predicate FlightFailed(f: Flight) {
    !f.phase.Fetching? && f.phase.out.Failed?
  }

  function FailedSet(flights: seq<Flight>): set<nat> {
    set f: nat | f < |flights| && FlightFailed(flights[f])
  }

  function FailedFlights(flights: seq<Flight>): nat {
    |FailedSet(flights)|
  }

  /** Every failed flight, and every call without a refresh token, was reported exactly once. */
  ghost predicate FailuresReported(s: State) {
    s.authFailures + s.unheard == FailedFlights(s.flights) + s.refused
  }

  /** Every listener knows the token in use, but for those that are owed it. */
  ghost predicate ListenersCurrent(s: State) {
    forall l | l in s.listeners :: l in s.told && (l in s.owed || s.told[l] == s.accessToken)
  }

  /** Every token that a request may be sent again with was passed to onTokenRefreshed. */
  ghost predicate RefreshesReported(flights: seq<Flight>, reported: seq<string>) {
    forall f | 0 <= f < |flights| && !flights[f].phase.Fetching? && flights[f].phase.out.Refreshed? ::
      flights[f].phase.out.token in reported
  }

  ghost predicate Inv(s: State) {
    && SingleFlight(s.flights, s.refreshPromise)
    && CallsOk(s.flights, s.calls)
    && FailuresReported(s)
    && ListenersCurrent(s)
    && RefreshesReported(s.flights, s.reported + s.unreported)
  }

  lemma FailedFlightsUpdate(flights: seq<Flight>, f: nat, g: Flight)
    requires f < |flights|
    ensures FailedFlights(flights[f := g]) ==
            FailedFlights(flights) - (if FlightFailed(flights[f]) then 1 else 0) + (if FlightFailed(g) then 1 else 0)
  {
    var rest := FailedSet(flights) - {f};
    assert FailedSet(flights[f := g]) == if FlightFailed(g) then rest + {f} else rest;
  }

  lemma FailedFlightsStart(flights: seq<Flight>, g: Flight)
    requires g.phase == Fetching
    ensures FailedFlights(flights + [g]) == FailedFlights(flights)
  {
    assert FailedSet(flights + [g]) == FailedSet(flights);
  }

  /** Flights only move forward, and a settled one never changes. */
  ghost predicate Advances(flights: seq<Flight>, flights': seq<Flight>) {
    && |flights| <= |flights'|
    && forall f | 0 <= f < |flights| :: flights[f].phase.Settled? ==> flights'[f].phase == flights[f].phase
  }

  lemma CallsFollow(flights: seq<Flight>, flights': seq<Flight>, calls: Calls)
    requires CallsOk(flights, calls) && Advances(flights, flights')
    ensures CallsOk(flights', calls)
  {
    forall c | c in calls
      ensures CallOk(flights', calls[c])
    {
      assert CallOk(flights, calls[c]);
    }
  }

  lemma CallPut(flights: seq<Flight>, calls: Calls, c: Id, call: Call)
    requires CallsOk(flights, calls) && CallOk(flights, call)
    ensures CallsOk(flights, calls[c := call])
  {
    var calls' := calls[c := call];
    forall d | d in calls'
      ensures CallOk(flights, calls'[d])
    {
      assert d != c ==> CallOk(flights, calls[d]);
    }
  }

  lemma FlightStarts(flights: seq<Flight>, calls: Calls, c: Id, call: Call, g: Flight)
    requires SingleFlight(flights, None) && CallsOk(flights, calls) && g.phase == Fetching
    requires call.retried && call.sends == 1 && call.stage == Awaiting && call.flight == Some(|flights|)
    ensures SingleFlight(flights + [g], Some(|flights|)) && CallsOk(flights + [g], calls[c := call])
    ensures FailedFlights(flights + [g]) == FailedFlights(flights)
  {
    FailedFlightsStart(flights, g);
    CallsFollow(flights, flights + [g], calls);
    CallPut(flights + [g], calls, c, call);
  }

  lemma {:induction false} WithoutOthers(listeners: seq<nat>, l: nat)
    ensures forall x :: x in Without(listeners, l) <==> x in listeners && x != l
  {
    if listeners != [] {
      WithoutOthers(listeners[1..], l);
      assert listeners == [listeners[0]] + listeners[1..];
    }
  }

  lemma NotifiedCurrent(s: State, n: nat)
    requires n <= |s.listeners| && forall l | l in s.listeners :: l in s.told
    ensures ListenersCurrent(Notified(s, n))
  {
    assert s.listeners == s.listeners[..n] + s.listeners[n..];
  }

  lemma SetTokensKeeps(s: State, access: Option<string>, refresh: Option<string>, threw: Option<nat>)
    requires Inv(s) && Enabled(s, SetTokens(access, refresh, threw))
    ensures Inv(After(s, SetTokens(access, refresh, threw)))
  {
    var t := s.(accessToken := access, refreshToken := refresh);
    if access != s.accessToken { NotifiedCurrent(t, Reached(s, threw)); }
  }

  lemma RefreshForKeeps(s: State, c: Id)
    requires Inv(s) && Enabled(s, Respond(c, Unauthorized)) && !s.calls[c].retried
    ensures Inv(AfterRefreshFor(s, c))
  {
    var call := s.calls[c].(retried := true);
    assert CallOk(s.flights, s.calls[c]);
    if !Truthy(s.refreshToken) {
      CallPut(s.flights, s.calls, c, call.(stage := Done(false)));
    } else if s.refreshPromise.Some? {
      CallPut(s.flights, s.calls, c, call.(stage := Awaiting, flight := s.refreshPromise));
    } else {
      StartKeeps(s, c, call.(stage := Awaiting, flight := Some(|s.flights|)), Flight(s.refreshToken.value, Fetching));
    }
  }

  lemma StartKeeps(s: State, c: Id, call: Call, g: Flight)
    requires Inv(s) && s.refreshPromise.None? && g.phase == Fetching
    requires call.retried && call.sends == 1 && call.stage == Awaiting && call.flight == Some(|s.flights|)
    ensures Inv(WithCall(s.(flights := s.flights + [g], refreshPromise := Some(|s.flights|)), c, call))
  {
    FlightStarts(s.flights, s.calls, c, call, g);
    forall f | 0 <= f < |s.flights + [g]| && !(s.flights + [g])[f].phase.Fetching?
      ensures f < |s.flights| && (s.flights + [g])[f] == s.flights[f]
    {
    }
  }

  lemma RespondKeeps(s: State, c: Id, reply: Reply)
    requires Inv(s) && Enabled(s, Respond(c, reply))
    ensures Inv(AfterRespond(s, c, reply))
  {
    if reply == Unauthorized && !s.calls[c].retried {
      RefreshForKeeps(s, c);
    } else {
      assert CallOk(s.flights, s.calls[c]);
      CallPut(s.flights, s.calls, c, AfterRespond(s, c, reply).calls[c]);
    }
  }

  lemma LandKeeps(s: State, f: nat, landing: Landing)
    requires Inv(s) && Enabled(s, Land(f, landing))
    ensures Inv(AfterLand(s, f, landing))
  {
    var t := AfterLand(s, f, landing);
    FailedFlightsUpdate(s.flights, f, t.flights[f]);
    CallsFollow(s.flights, t.flights, s.calls);
    LandTells(s, f, landing);
    LandReports(s, f, landing);
  }

  lemma LandTells(s: State, f: nat, landing: Landing)
    requires ListenersCurrent(s) && Enabled(s, Land(f, landing))
    ensures ListenersCurrent(AfterLand(s, f, landing))
  {
    match landing
    case Rejected =>
    case Granted(token) => NotifiedCurrent(s.(accessToken := Some(token)), |s.listeners|);
    case ListenerThrew(token, at) => NotifiedCurrent(s.(accessToken := Some(token)), at + 1);
    case CallbackThrew(token) => NotifiedCurrent(s.(accessToken := Some(token)), |s.listeners|);
  }

  lemma LandReports(s: State, f: nat, landing: Landing)
    requires RefreshesReported(s.flights, s.reported + s.unreported) && Enabled(s, Land(f, landing))
    ensures var t := AfterLand(s, f, landing); RefreshesReported(t.flights, t.reported + t.unreported)
  {
    var t := AfterLand(s, f, landing);
    forall token | token in s.reported + s.unreported
      ensures token in t.reported + t.unreported
    {
    }
    if landing.Granted? { assert landing.token in t.reported + t.unreported; }
  }

  lemma SettleKeeps(s: State, f: nat)
    requires Inv(s) && Enabled(s, Settle(f))
    ensures Inv(After(s, Settle(f)))
  {
    var t := After(s, Settle(f));
    FailedFlightsUpdate(s.flights, f, t.flights[f]);
    CallsFollow(s.flights, t.flights, s.calls);
  }

  lemma ResumeKeeps(s: State, c: Id)
    requires Inv(s) && Enabled(s, Resume(c))
    ensures Inv(After(s, Resume(c)))
  {
    assert CallOk(s.flights, s.calls[c]);
  }

  lemma StepKeeps(s: State, e: Event)
    requires Inv(s) && Enabled(s, e)
    ensures Inv(After(s, e))
  {
    match e
    case Configure =>
    case Subscribe(_) =>
    case Unsubscribe(l) => WithoutOthers(s.listeners, l);
    case SetTokens(access, refresh, threw) => SetTokensKeeps(s, access, refresh, threw);
    case Issue(c) =>
    case Respond(c, reply) => RespondKeeps(s, c, reply);
    case Land(f, landing) => LandKeeps(s, f, landing);
    case Settle(f) => SettleKeeps(s, f);
    case Resume(c) => ResumeKeeps(s, c);
  }

  lemma {:induction false} RunKeeps(s: State, events: seq<Event>)
    requires Inv(s) && ValidRun(s, events)
    ensures Inv(Run(s, events))
    decreases |events|
  {
    if events != [] {
      StepKeeps(s, events[0]);
      RunKeeps(After(s, events[0]), events[1..]);
    }
  }

  // ---------- the promises ----------

  /** However requests and 401s interleave, at most one /refresh call is outstanding. */
  lemma AtMostOneRefresh(events: seq<Event>, f: nat, g: nat)
    requires ValidRun(START, events)
    requires var s := Run(START, events);
             f < |s.flights| && g < |s.flights| && s.flights[f].phase == Fetching && s.flights[g].phase == Fetching
    ensures f == g
  {
    RunKeeps(START, events);
  }

  /** Requests that joined the same refresh and have moved on were all sent again, or all given up. */
  lemma JoinersAgree(events: seq<Event>, c: Id, d: Id)
    requires ValidRun(START, events)
    requires var calls := Run(START, events).calls;
             && c in calls && d in calls && calls[c].flight.Some? && calls[c].flight == calls[d].flight
             && calls[c].stage != Awaiting && calls[d].stage != Awaiting
    ensures Run(START, events).calls[c].sends == Run(START, events).calls[d].sends
  {
    RunKeeps(START, events);
    var s := Run(START, events);
    assert CallOk(s.flights, s.calls[c]) && CallOk(s.flights, s.calls[d]);
  }

  /** No request goes out more than twice, and one that went out twice had joined a refresh that succeeded. */
  lemma AtMostTwoSends(events: seq<Event>, c: Id)
    requires ValidRun(START, events) && c in Run(START, events).calls
    ensures var s := Run(START, events); var call := s.calls[c];
            && 1 <= call.sends <= 2
            && (call.sends == 2 ==> call.flight.Some? && call.flight.value < |s.flights|
                                    && s.flights[call.flight.value].phase.Settled?
                                    && s.flights[call.flight.value].phase.out.Refreshed?)
  {
    RunKeeps(START, events);
    var s := Run(START, events);
    assert CallOk(s.flights, s.calls[c]);
  }

  /** What the application does before its first request is answered: set tokens, subscribe, send. */
  predicate SetsUp(events: seq<Event>) {
    events == [] || (!events[0].Respond? && !events[0].Land? && SetsUp(events[1..]))
  }

  lemma {:induction false} SetUpRefreshesNothing(s: State, events: seq<Event>)
    requires ValidRun(s, events) && SetsUp(events) && s.flights == [] && s.refused == 0
    ensures Run(s, events).flights == [] && Run(s, events).refused == 0
    decreases |events|
  {
    if events != [] {
      SetUpRefreshesNothing(After(s, events[0]), events[1..]);
    }
  }

  lemma {:induction false} NoneUnheard(s: State, events: seq<Event>)
    requires ValidRun(s, events) && s.configured
    ensures Run(s, events).configured && Run(s, events).unheard == s.unheard
    decreases |events|
  {
    if events != [] {
      NoneUnheard(After(s, events[0]), events[1..]);
    }
  }

  /** Failed refreshes, however many requests were waiting for each, and 401s met without a refresh token. */
  function Failures(s: State): nat {
    FailedFlights(s.flights) + s.refused
  }

  lemma FailuresHeard(u: State, events: seq<Event>)
    requires Inv(u) && ValidRun(After(u, Configure), events)
    ensures var s := Run(After(u, Configure), events); s.authFailures - u.authFailures == Failures(s) - Failures(u)
  {
    RunKeeps(After(u, Configure), events);
    NoneUnheard(After(u, Configure), events);
  }

  lemma SetUpThenFailures(s: State, before: seq<Event>, events: seq<Event>)
    requires Inv(s) && s.flights == [] && s.refused == 0
    requires ValidRun(s, before) && SetsUp(before) && ValidRun(After(Run(s, before), Configure), events)
    ensures var t := Run(After(Run(s, before), Configure), events); t.authFailures == Failures(t)
  {
    RunKeeps(s, before);
    SetUpRefreshesNothing(s, before);
    FailuresHeard(Run(s, before), events);
    assert FailedSet([]) == {};
  }

  /** The client once the callbacks are installed, after a first run `before`. */
  function Configured(before: seq<Event>): State
    requires ValidRun(START, before)
  {
    After(Run(START, before), Configure)
  }

  /** From then on the auth-failure callback runs once for each. */
  lemma LaterFailuresReported(before: seq<Event>, events: seq<Event>)
    requires ValidRun(START, before) && ValidRun(Configured(before), events)
    ensures var u, s := Run(START, before), Run(Configured(before), events);
            s.authFailures - u.authFailures == Failures(s) - Failures(u)
  {
    RunKeeps(START, before);
    FailuresHeard(Run(START, before), events);
  }

  /** So in the application, which sets tokens, subscribes and may send requests first, it has run once per failed
      refresh, however many requests were waiting for it, and once per 401 met without a refresh token. */
  lemma FailureReportedOnce(before: seq<Event>, events: seq<Event>)
    requires ValidRun(START, before) && SetsUp(before) && ValidRun(Configured(before), events)
    ensures var s := Run(Configured(before), events); s.authFailures == Failures(s)
  {
    SetUpThenFailures(START, before, events);
  }

  /** Flights that had landed when the callbacks were installed; all others report their tokens. */
  ghost predicate ReportedBut(landed: set<nat>, flights: seq<Flight>, reported: seq<string>) {
    forall f | 0 <= f < |flights| && f !in landed && !flights[f].phase.Fetching? && flights[f].phase.out.Refreshed? ::
      flights[f].phase.out.token in reported
  }

  lemma StepReports(s: State, e: Event, landed: set<nat>)
    requires Enabled(s, e) && s.configured && ReportedBut(landed, s.flights, s.reported)
    ensures After(s, e).configured && ReportedBut(landed, After(s, e).flights, After(s, e).reported)
  {
    var t := After(s, e);
    forall token | token in s.reported ensures token in t.reported {}
    if e.Land? && e.landing.Granted? { assert e.landing.token in t.reported; }
  }

  lemma {:induction false} RunReports(s: State, events: seq<Event>, landed: set<nat>)
    requires ValidRun(s, events) && s.configured && ReportedBut(landed, s.flights, s.reported)
    ensures ReportedBut(landed, Run(s, events).flights, Run(s, events).reported)
    decreases |events|
  {
    if events != [] {
      StepReports(s, events[0], landed);
      RunReports(After(s, events[0]), events[1..], landed);
    }
  }

  ghost predicate HasLanded(s: State, f: nat) {
    f < |s.flights| && !s.flights[f].phase.Fetching?
  }

  lemma SetUpLandsNothing(before: seq<Event>, f: nat)
    requires ValidRun(START, before) && SetsUp(before)
    ensures !HasLanded(Run(START, before), f)
  {
    SetUpRefreshesNothing(START, before);
  }

  /** And every token that a refresh brought, so that requests go out again with it, was passed to the callback,
      unless it had come before the callback was installed. */
  lemma EveryRefreshReported(before: seq<Event>, events: seq<Event>, f: nat)
    requires ValidRun(START, before) && ValidRun(Configured(before), events)
    requires var s := Run(Configured(before), events); HasLanded(s, f) && s.flights[f].phase.out.Refreshed?
    ensures var u, s := Run(START, before), Run(Configured(before), events);
            && (HasLanded(u, f) || s.flights[f].phase.out.token in s.reported)
            && (SetsUp(before) ==> s.flights[f].phase.out.token in s.reported)
  {
    var u := Configured(before);
    RunReports(u, events, set g | 0 <= g < |u.flights| && !u.flights[g].phase.Fetching?);
    if SetsUp(before) { SetUpLandsNothing(before, f); }
  }

  predicate Throws(e: Event) {
    (e.SetTokens? && e.threw.Some?) || (e.Land? && e.landing.ListenerThrew?)
  }

  lemma QuietOwesNothing(s: State, e: Event)
    requires Enabled(s, e) && s.owed == {} && !Throws(e)
    ensures After(s, e).owed == {}
  {
    assert s.listeners[|s.listeners|..] == [];
  }

  lemma {:induction false} NobodyOwed(s: State, events: seq<Event>)
    requires ValidRun(s, events) && s.owed == {} && forall e | e in events :: !Throws(e)
    ensures Run(s, events).owed == {}
    decreases |events|
  {
    if events != [] {
      assert events == [events[0]] + events[1..];
      QuietOwesNothing(s, events[0]);
      NobodyOwed(After(s, events[0]), events[1..]);
    }
  }

  /** As long as no listener throws, every listener was last told the token in use. */
  lemma ListenersToldCurrent(events: seq<Event>, l: nat)
    requires ValidRun(START, events) && l in Run(START, events).listeners && forall e | e in events :: !Throws(e)
    ensures l in Run(START, events).told && Run(START, events).told[l] == Run(START, events).accessToken
  {
    RunKeeps(START, events);
    NobodyOwed(START, events);
  }

  // ---------- signing out ----------

  ghost predicate NoneFetching(flights: seq<Flight>) {
    forall f | 0 <= f < |flights| :: flights[f].phase != Fetching
  }

  predicate Quiet(events: seq<Event>) {
    forall e | e in events :: !e.SetTokens?
  }

  lemma {:induction false} StaysSignedOut(s: State, events: seq<Event>)
    requires ValidRun(s, events) && Quiet(events)
    requires s.accessToken == None && !Truthy(s.refreshToken) && NoneFetching(s.flights)
    ensures Run(s, events).accessToken == None
    decreases |events|
  {
    if events != [] {
      assert events == [events[0]] + events[1..];
      StaysSignedOut(After(s, events[0]), events[1..]);
    }
  }

  lemma LateRefreshSignsIn(s: State, f: nat)
    requires f < |s.flights| && s.flights[f].phase == Fetching
    ensures var events := [Land(f, Granted("t"))];
            ValidRun(s, events) && Quiet(events) && Run(s, events).accessToken == Some("t")
  {
    var events := [Land(f, Granted("t"))];
    var none: seq<Event> := [];
    assert events[1..] == none && Run(After(s, events[0]), none) == After(s, events[0]);
  }

  /** A client whose tokens were cleared stays without an access token, whatever happens until tokens are set again,
      exactly when no refresh was on the wire at that moment. */
  lemma SignedOutStaysIff(s: State)
    requires s.accessToken == None && !Truthy(s.refreshToken)
    ensures NoneFetching(s.flights) <==>
            forall events :: ValidRun(s, events) && Quiet(events) ==> Run(s, events).accessToken == None
  {
    if NoneFetching(s.flights) {
      forall events | ValidRun(s, events) && Quiet(events)
        ensures Run(s, events).accessToken == None
      {
        StaysSignedOut(s, events);
      }
    } else {
      var f :| 0 <= f < |s.flights| && s.flights[f].phase == Fetching;
      LateRefreshSignsIn(s, f);
    }
  }

  // ---------- whose token is in use ----------

  /** The flight that brought the token in use, or `from` if that came before; none after setTokens. */
  function TokenFlight(events: seq<Event>, from: Option<nat>): Option<nat>
    decreases |events|
  {
    if events == [] then from else TokenFlight(events[1..], NextFlight(events[0], from))
  }

  function NextFlight(e: Event, from: Option<nat>): Option<nat> {
    match e
    case SetTokens(_, _, _) => None
    case Land(f, landing) => if landing.Rejected? then from else Some(f)
    case _ => from
  }

  /** The token that setTokens or that flight put into use. */
  function TokenInUse(events: seq<Event>, token: Option<string>): Option<string>
    decreases |events|
  {
    if events == [] then token else TokenInUse(events[1..], NextToken(events[0], token))
  }

  function NextToken(e: Event, token: Option<string>): Option<string> {
    match e
    case SetTokens(access, _, _) => access
    case Land(_, landing) => if landing.Rejected? then token else Some(landing.token)
    case _ => token
  }

  lemma {:induction false} AccessTokenIsLast(s: State, events: seq<Event>)
    requires ValidRun(s, events)
    ensures Run(s, events).accessToken == TokenInUse(events, s.accessToken)
    decreases |events|
  {
    if events != [] { AccessTokenIsLast(After(s, events[0]), events[1..]); }
  }

  /** The flight asked for a token with the refresh token `refresh`. */
  predicate SentWith(flights: seq<Flight>, refresh: Option<string>, f: nat) {
    f < |flights| && Some(flights[f].sent) == refresh
  }

  ghost predicate OnlyOwnFetching(s: State) {
    forall f | 0 <= f < |s.flights| && s.flights[f].phase == Fetching :: SentWith(s.flights, s.refreshToken, f)
  }

  lemma {:induction false} OwnTokensStay(s: State, events: seq<Event>, from: Option<nat>)
    requires ValidRun(s, events) && Quiet(events) && OnlyOwnFetching(s)
    requires from.Some? ==> SentWith(s.flights, s.refreshToken, from.value)
    ensures var f := TokenFlight(events, from); f.Some? ==> SentWith(Run(s, events).flights, s.refreshToken, f.value)
    decreases |events|
  {
    if events != [] {
      var e, rest := events[0], events[1..];
      assert events == [e] + rest;
      StepKeepsOwn(s, e);
      OwnTokensStay(After(s, e), rest, NextFlight(e, from));
    }
  }

  /** Flights keep what they sent, and a new one sends `refresh`. */
  ghost predicate SendsKept(flights: seq<Flight>, flights': seq<Flight>, refresh: Option<string>) {
    && |flights| <= |flights'|
    && (forall f | 0 <= f < |flights| :: flights'[f].sent == flights[f].sent
                                         && (flights'[f].phase == Fetching ==> flights[f].phase == Fetching))
    && (forall f | |flights| <= f < |flights'| :: Some(flights'[f].sent) == refresh)
  }

  lemma StepKeepsSends(s: State, e: Event)
    requires Enabled(s, e) && !e.SetTokens?
    ensures After(s, e).refreshToken == s.refreshToken && SendsKept(s.flights, After(s, e).flights, s.refreshToken)
  {
    if e.Respond? {
      RespondKeepsSends(s, e.c, e.reply);
    } else if e.Land? {
      LandKeepsSends(s, e.f, e.landing);
    }
  }

  lemma RespondKeepsSends(s: State, c: Id, reply: Reply)
    requires c in s.calls
    ensures var t := AfterRespond(s, c, reply);
            t.refreshToken == s.refreshToken && SendsKept(s.flights, t.flights, s.refreshToken)
  {
  }

  lemma LandKeepsSends(s: State, f: nat, landing: Landing)
    requires f < |s.flights| && CanLand(s, landing)
    ensures var t := AfterLand(s, f, landing);
            t.refreshToken == s.refreshToken && SendsKept(s.flights, t.flights, s.refreshToken)
  {
  }

  lemma StepKeepsOwn(s: State, e: Event)
    requires Enabled(s, e) && !e.SetTokens? && OnlyOwnFetching(s)
    ensures After(s, e).refreshToken == s.refreshToken && OnlyOwnFetching(After(s, e))
    ensures forall f: nat | SentWith(s.flights, s.refreshToken, f) :: SentWith(After(s, e).flights, s.refreshToken, f)
  {
    StepKeepsSends(s, e);
    OwnByKept(s, After(s, e));
  }

  lemma OwnByKept(s: State, t: State)
    requires t.refreshToken == s.refreshToken && SendsKept(s.flights, t.flights, s.refreshToken) && OnlyOwnFetching(s)
    ensures OnlyOwnFetching(t)
    ensures forall f: nat | SentWith(s.flights, s.refreshToken, f) :: SentWith(t.flights, s.refreshToken, f)
  {
  }

  ghost predicate OwnTokens(s: State, events: seq<Event>)
    requires ValidRun(s, events)
  {
    var f := TokenFlight(events, None);
    f.Some? ==> SentWith(Run(s, events).flights, s.refreshToken, f.value)
  }

  /** From a state on, and until tokens are set again, every token that a refresh puts into use was asked for with
      the refresh token of that state, exactly when every refresh on the wire at that moment was. So after
      setTokens with another account's tokens, a refresh still on the wire brings the former account back. */
  lemma OwnTokensIff(s: State)
    ensures OnlyOwnFetching(s) <==> forall events :: ValidRun(s, events) && Quiet(events) ==> OwnTokens(s, events)
  {
    if OnlyOwnFetching(s) {
      forall events | ValidRun(s, events) && Quiet(events)
        ensures OwnTokens(s, events)
      {
        OwnTokensStay(s, events, None);
      }
    } else {
      var f :| 0 <= f < |s.flights| && s.flights[f].phase == Fetching && !SentWith(s.flights, s.refreshToken, f);
      LateRefreshSignsIn(s, f);
      var events := [Land(f, Granted("t"))];
      assert events[1..] == [] && TokenFlight(events, None) == Some(f);
      assert !SentWith(Run(s, events).flights, s.refreshToken, f) by {
        assert Run(s, events) == After(s, events[0]);
      }
      assert !OwnTokens(s, events);
    }
  }

  /** A request meets a 401, and while its refresh is on the wire the tokens are replaced. */
  function Replacing(c: Id, access: string, refresh: string, nextAccess: Option<string>, nextRefresh: Option<string>): seq<Event> {
    [SetTokens(Some(access), Some(refresh), None)]
    + ([Issue(c)] + ([Respond(c, Unauthorized)] + [SetTokens(nextAccess, nextRefresh, None)]))
  }

  /** Both failing cases can be reached: the client is signed out, or has other tokens, and the old refresh token is
      still on the wire. */
  lemma ReplacedWhileFetching(c: Id, access: string, refresh: string, nextAccess: Option<string>, nextRefresh: Option<string>)
    requires refresh != "" && nextRefresh != Some(refresh)
    ensures var events := Replacing(c, access, refresh, nextAccess, nextRefresh);
            && ValidRun(START, events)
            && var s := Run(START, events);
               && s.accessToken == nextAccess && s.refreshToken == nextRefresh
               && !NoneFetching(s.flights) && !OnlyOwnFetching(s)
  {
    var e1, e2, e3, e4 := SetTokens(Some(access), Some(refresh), None), Issue(c), Respond(c, Unauthorized),
                          SetTokens(nextAccess, nextRefresh, None);
    var s1 := After(START, e1);
    var s2 := After(s1, e2);
    var s3 := After(s2, e3);
    var s4 := After(s3, e4);
    assert s4.flights == [Flight(refresh, Fetching)];
    assert !SentWith(s4.flights, nextRefresh, 0);
    StepThen(s3, e4, []);
    StepThen(s2, e3, [e4]);
    StepThen(s1, e2, [e3] + [e4]);
    StepThen(START, e1, [e2] + ([e3] + [e4]));
  }

  lemma StepThen(s: State, e: Event, rest: seq<Event>)
    requires Enabled(s, e) && ValidRun(After(s, e), rest)
    ensures ValidRun(s, [e] + rest) && Run(s, [e] + rest) == Run(After(s, e), rest)
  {
    assert ([e] + rest)[1..] == rest;
  }

  // ---------- every request settles ----------

  function Rank(call: Call): nat {
    match call.stage
    case OnWire => if call.retried then 1 else 5
    case Awaiting => 2
    case Done(_) => 0
  }

  function Ranks(calls: Calls): map<Id, int> {
    map c | c in calls :: Rank(calls[c])
  }

  function FlightWork(flights: seq<Flight>, refreshPromise: Option<nat>): nat {
    if refreshPromise.None? || refreshPromise.value >= |flights| then 0
    else match flights[refreshPromise.value].phase
         case Fetching => 2
         case Landed(_) => 1
         case Settled(_) => 0
  }

  /** Work left: what the open requests can still cause, and the refresh in progress. */
  ghost function Work(s: State): int {
    Sum(Ranks(s.calls)) + FlightWork(s.flights, s.refreshPromise)
  }

  lemma RankChanged(calls: Calls, c: Id, call: Call)
    requires c in calls
    ensures Sum(Ranks(calls[c := call])) == Sum(Ranks(calls)) - Rank(calls[c]) + Rank(call)
  {
    SumChanged(Ranks(calls), c, Rank(call));
    assert Ranks(calls[c := call]) == Ranks(calls)[c := Rank(call)];
  }

  lemma RespondShrinks(s: State, c: Id, reply: Reply)
    requires Inv(s) && Enabled(s, Respond(c, reply))
    ensures Work(AfterRespond(s, c, reply)) < Work(s)
  {
    if reply == Unauthorized && !s.calls[c].retried {
      RefreshForShrinks(s, c);
    } else {
      RankChanged(s.calls, c, AfterRespond(s, c, reply).calls[c]);
    }
  }

  /** The request's rank falls by more than a new refresh costs. */
  lemma RefreshForShrinks(s: State, c: Id)
    requires SingleFlight(s.flights, s.refreshPromise) && c in s.calls && s.calls[c].stage == OnWire && !s.calls[c].retried
    ensures Work(AfterRefreshFor(s, c)) < Work(s)
  {
    RankChanged(s.calls, c, AfterRefreshFor(s, c).calls[c]);
  }

  lemma ResumeShrinks(s: State, c: Id)
    requires Inv(s) && Enabled(s, Resume(c))
    ensures Work(After(s, Resume(c))) < Work(s)
  {
    assert CallOk(s.flights, s.calls[c]);
    RankChanged(s.calls, c, After(s, Resume(c)).calls[c]);
  }

  /** What answers bring about: everything but a new request, new tokens, and listeners and callbacks. */
  predicate Settling(e: Event) {
    e.Respond? || e.Land? || e.Settle? || e.Resume?
  }

  /** Each such step uses work up. */
  lemma WorkShrinks(s: State, e: Event)
    requires Inv(s) && Enabled(s, e) && Settling(e)
    ensures Work(After(s, e)) < Work(s)
  {
    match e {
      case Respond(c, reply) => RespondShrinks(s, c, reply);
      case Resume(c) => ResumeShrinks(s, c);
      case Land(f, landing) => LandShrinks(s, f, landing);
      case Settle(_) =>
    }
  }

  lemma LandShrinks(s: State, f: nat, landing: Landing)
    requires SingleFlight(s.flights, s.refreshPromise) && Enabled(s, Land(f, landing))
    ensures Work(AfterLand(s, f, landing)) < Work(s)
  {
    assert AfterLand(s, f, landing).calls == s.calls;
  }

  lemma WorkIsNonNegative(s: State)
    ensures 0 <= Work(s)
  {
    SumNonNegative(Ranks(s.calls));
  }

  /** So without new requests, tokens or listeners, only boundedly many steps can follow. */
  lemma {:induction false} SettlingEnds(s: State, events: seq<Event>)
    requires Inv(s) && ValidRun(s, events) && forall e | e in events :: Settling(e)
    ensures |events| + Work(Run(s, events)) <= Work(s) && |events| <= Work(s)
    decreases |events|
  {
    WorkIsNonNegative(Run(s, events));
    if events != [] {
      assert events == [events[0]] + events[1..];
      StepKeeps(s, events[0]);
      WorkShrinks(s, events[0]);
      SettlingEnds(After(s, events[0]), events[1..]);
    }
  }

  /** While a request is open, one of those steps is possible: nothing waits for ever on a refresh that is over. */
  lemma OpenCallCanMove(s: State, c: Id) returns (e: Event)
    requires Inv(s) && c in s.calls && !s.calls[c].stage.Done?
    ensures Enabled(s, e) && Settling(e)
  {
    assert CallOk(s.flights, s.calls[c]);
    if s.calls[c].stage == OnWire { return Respond(c, OtherError); }
    var f := s.calls[c].flight.value;
    match s.flights[f].phase {
      case Fetching => return Land(f, Rejected);
      case Landed(_) => return Settle(f);
      case Settled(_) => return Resume(c);
    }
  }

  ghost predicate AllDone(s: State) {
    forall c | c in s.calls :: s.calls[c].stage.Done?
  }

  /** Hence every way of answering ends with all requests settled: a run of such steps that can not be continued
      leaves none open. */
  lemma StuckMeansDone(s: State, events: seq<Event>)
    requires Inv(s) && ValidRun(s, events)
    requires forall e | Settling(e) :: !Enabled(Run(s, events), e)
    ensures AllDone(Run(s, events))
  {
    RunKeeps(s, events);
    var t := Run(s, events);
    forall c | c in t.calls
      ensures t.calls[c].stage.Done?
    {
      if !t.calls[c].stage.Done? { var e := OpenCallCanMove(t, c); }
    }
  }

  // ---------- the module itself ----------

  /** The module variables of token.ts, with the requests and promises that the event loop is holding. */
  class Client {
    var accessToken: Option<string>
    var refreshToken: Option<string>
    var refreshPromise: Option<nat>
    var listeners: seq<nat>
    var configured: bool
    var flights: seq<Flight>
    var calls: Calls
    var authFailures: nat
    ghost var unheard: nat
    ghost var refused: nat
    var told: map<nat, Option<string>>
    ghost var owed: set<nat>
    var reported: seq<string>
    ghost var unreported: seq<string>

    ghost function State(): State
      reads this
    {
      Snapshot(accessToken, refreshToken, refreshPromise, listeners, configured, flights, calls,
               authFailures, unheard, refused, told, owed, reported, unreported)
    }

    constructor ()
      ensures State() == START && Inv(State())
    {
      accessToken, refreshToken, refreshPromise := None, None, None;
      listeners, configured, flights, calls := [], false, [], map[];
      authFailures, unheard, refused := 0, 0, 0;
      told, owed, reported, unreported := map[], {}, [], [];
    }

    method ConfigureApiClient()
      modifies this
      ensures State() == After(old(State()), Configure)
    {
      configured := true;
    }

    method SubscribeAccessToken(l: nat)
      modifies this
      ensures State() == After(old(State()), Subscribe(l))
    {
      if l !in listeners {
        listeners := listeners + [l];
        told := told[l := accessToken];
        owed := owed - {l};
      }
    }

    /** What subscribing returned. */
    method Unsubscribe(l: nat)
      modifies this`listeners
      ensures State() == After(old(State()), Event.Unsubscribe(l))
    {
      listeners := Without(listeners, l);
    }

    /** listeners.forEach: in order, up to and including the one that throws. */
    method NotifyListeners(threw: Option<nat>)
      requires threw.Some? ==> threw.value < |listeners|
      modifies this`told, this`owed
      ensures State() == Notified(old(State()), Reached(old(State()), threw))
    {
      var n := match threw case Some(at) => at + 1 case None => |listeners|;
      for i := 0 to n
        invariant told == Told(old(told), listeners[..i], accessToken)
        invariant owed == old(owed)
      {
        assert listeners[..i + 1] == listeners[..i] + [listeners[i]];
        told := told[listeners[i] := accessToken];
      }
      owed := owed - (set x | x in listeners[..n]) + (set x | x in listeners[n..]);
    }

    method SetTokens(access: Option<string>, refresh: Option<string>, threw: Option<nat>)
      requires Enabled(State(), Event.SetTokens(access, refresh, threw))
      modifies this
      ensures State() == After(old(State()), Event.SetTokens(access, refresh, threw))
    {
      var changed := accessToken != access;
      accessToken := access;
      refreshToken := refresh;
      if changed { NotifyListeners(threw); }
    }

    method OnTokenRefreshed(token: string)
      modifies this`reported, this`unreported
      ensures State() == WithRefreshReported(old(State()), token)
    {
      if configured { reported := reported + [token]; } else { unreported := unreported + [token]; }
    }

    method OnAuthFailure()
      modifies this`authFailures, this`unheard
      ensures State() == WithFailureReported(old(State()))
    {
      if configured { authFailures := authFailures + 1; } else { unheard := unheard + 1; }
    }

    /** The promise to wait for, or none when there is no refresh token. */
    method RefreshAccessToken() returns (promise: Option<nat>)
      modifies this`flights, this`refreshPromise, this`authFailures, this`unheard, this`refused
      ensures promise.Some? <==> Truthy(old(refreshToken))
      ensures promise.None? ==> State() == WithFailureReported(old(State()).(refused := old(refused) + 1))
      ensures promise.Some? ==>
                && promise == refreshPromise
                && (old(refreshPromise).Some? ==> State() == old(State()))
                && (old(refreshPromise).None? && refreshToken.Some? ==>
                      State() == old(State()).(flights := old(flights) + [Flight(refreshToken.value, Fetching)],
                                               refreshPromise := Some(|old(flights)|)))
    {
      if refreshToken.None? || refreshToken.value == "" {
        refused := refused + 1;
        OnAuthFailure();
        return None;
      }
      if refreshPromise.None? {
        refreshPromise := Some(|flights|);
        flights := flights + [Flight(refreshToken.value, Fetching)];
      }
      return refreshPromise;
    }

    /** The request interceptor, and the send. */
    method Send(c: Id, call: Call)
      modifies this`calls
      ensures State() == WithCall(old(State()), c, Sent(old(State()), call))
    {
      var header := call.header;
      if accessToken.Some? && accessToken.value != "" { header := accessToken; }
      calls := calls[c := call.(stage := OnWire, sends := call.sends + 1, header := header)];
    }

    method Request(c: Id)
      requires c !in calls
      modifies this
      ensures State() == After(old(State()), Issue(c))
    {
      Send(c, Call(OnWire, 0, false, None, None));
    }

    /** The response interceptor up to its await. */
    method OnResponse(c: Id, reply: Reply)
      requires Enabled(State(), Respond(c, reply))
      modifies this
      ensures State() == After(old(State()), Respond(c, reply))
    {
      var call := calls[c];
      if reply == Success {
        calls := calls[c := call.(stage := Done(true))];
        return;
      }
      if reply == Unauthorized && !call.retried {
        call := call.(retried := true);
        var promise := RefreshAccessToken();
        if promise.Some? {
          calls := calls[c := call.(stage := Awaiting, flight := promise)];
          return;
        }
      }
      calls := calls[c := call.(stage := Done(false))];
    }

    /** The rest of the response interceptor, once the promise it awaited has settled. */
    method OnRefreshSettled(c: Id)
      requires Enabled(State(), Resume(c))
      modifies this
      ensures State() == After(old(State()), Resume(c))
    {
      var call := calls[c];
      match flights[call.flight.value].phase.out {
        case Refreshed(token) => Send(c, call.(header := Some(token)));
        case Failed => calls := calls[c := call.(stage := Done(false))];
      }
    }

    /** The then and catch callbacks of a refresh. */
    method OnLanded(f: nat, landing: Landing)
      requires Enabled(State(), Land(f, landing))
      modifies this
      ensures State() == After(old(State()), Land(f, landing))
    {
      flights := flights[f := flights[f].(phase := Landed(OutcomeOf(landing)))];
      OnHeard(landing);
    }

    method OnHeard(landing: Landing)
      requires CanLand(State(), landing)
      modifies this`accessToken, this`told, this`owed, this`authFailures, this`unheard, this`reported, this`unreported
      ensures State() == Heard(old(State()), landing)
    {
      match landing {
        case Rejected => OnAuthFailure();
        case Granted(token) => TakeRefreshed(token);
        case ListenerThrew(token, at) => TakeUntilThrow(token, at);
        case CallbackThrew(token) => TakeThenThrow(token);
      }
    }

    method TakeUntilThrow(token: string, at: nat)
      requires CanLand(State(), ListenerThrew(token, at))
      modifies this`accessToken, this`told, this`owed, this`authFailures, this`unheard
      ensures State() == Heard(old(State()), ListenerThrew(token, at))
    {
      TakeToken(token, Some(at));
      OnAuthFailure();
    }

    method TakeThenThrow(token: string)
      requires CanLand(State(), CallbackThrew(token))
      modifies this`accessToken, this`told, this`owed, this`authFailures, this`unheard, this`reported, this`unreported
      ensures State() == Heard(old(State()), CallbackThrew(token))
    {
      TakeRefreshed(token);
      OnAuthFailure();
    }

    method TakeRefreshed(token: string)
      modifies this`accessToken, this`told, this`owed, this`reported, this`unreported
      ensures State() == Heard(old(State()), Granted(token))
    {
      TakeToken(token, None);
      OnTokenRefreshed(token);
    }

    method TakeToken(token: string, threw: Option<nat>)
      requires threw.Some? ==> threw.value < |listeners|
      modifies this`accessToken, this`told, this`owed
      ensures State() == WithToken(old(State()), Some(token), Reached(old(State()), threw))
    {
      accessToken := Some(token);
      NotifyListeners(threw);
    }

    /** The finally callback. */
    method OnFinally(f: nat)
      requires Enabled(State(), Settle(f))
      modifies this
      ensures State() == After(old(State()), Settle(f))
    {
      refreshPromise := None;
      flights := flights[f := flights[f].(phase := Settled(flights[f].phase.out))];
    }
  }
}
