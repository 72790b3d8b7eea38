/** What the browser client's requests carry and how they are answered, over every run of its event loop. */
module RequestHistory {
  import opened Wrappers
  import opened TokenRefresh

  // ---------- what a request carries ----------

  /** Step `e` puts request `c` on the wire: for the first time, or again after the refresh it waited for. */
  predicate Sends(s: State, e: Event, c: Id) {
    Enabled(s, e) && (e == Issue(c) || (e == Resume(c) && s.flights[s.calls[c].flight.value].phase.out.Refreshed?))
  }

  /** The token that such a request has to carry when `token` is in use: that one, and without one nothing, or again
      the token its refresh brought. */
  function Due(s: State, e: Event, c: Id, token: Option<string>): Option<string>
    requires Sends(s, e, c)
  {
    if Truthy(token) then token
    else if e.Issue? then None
    else Some(s.flights[s.calls[c].flight.value].phase.out.token)
  }

  lemma SendCarries(s: State, e: Event, c: Id)
    requires Inv(s) && Sends(s, e, c)
    ensures var t := After(s, e);
            && c in t.calls && t.calls[c].stage == OnWire && t.calls[c].header == Due(s, e, c, s.accessToken)
            && t.calls[c].sends == if e.Issue? then 1 else 2
  {
    if e.Resume? { assert CallOk(s.flights, s.calls[c]); }
  }

  lemma StepKeepsHeader(s: State, e: Event, c: Id)
    requires Enabled(s, e) && c in s.calls
    ensures var t := After(s, e);
            && c in t.calls && s.calls[c].sends <= t.calls[c].sends
            && (t.calls[c].sends == s.calls[c].sends ==> t.calls[c].header == s.calls[c].header)
            && (t.calls[c].sends > s.calls[c].sends <==> Sends(s, e, c))
  {
    match e
    case Respond(d, reply) => RespondKeepsHeader(s, d, reply, c);
    case Land(f, landing) => assert AfterLand(s, f, landing).calls == s.calls;
    case _ =>
  }

  lemma RespondKeepsHeader(s: State, d: Id, reply: Reply, c: Id)
    requires d in s.calls && c in s.calls
    ensures var t := AfterRespond(s, d, reply);
            c in t.calls && t.calls[c].header == s.calls[c].header && t.calls[c].sends == s.calls[c].sends
  {
  }

  /** Between two sends a request's header stays as it is. */
  lemma {:induction false} HeaderKept(s: State, events: seq<Event>, c: Id)
    requires ValidRun(s, events) && c in s.calls
    ensures var t := Run(s, events);
            && c in t.calls && s.calls[c].sends <= t.calls[c].sends
            && (t.calls[c].sends == s.calls[c].sends ==> t.calls[c].header == s.calls[c].header)
    decreases |events|
  {
    if events != [] {
      StepKeepsHeader(s, events[0], c);
      HeaderKept(After(s, events[0]), events[1..], c);
    }
  }

  /** Whatever has happened: a request goes out with the token in use at that moment, which is the one that setTokens or
      a refresh gave last, and carries it until it is sent again. Without a token in use the first send carries none,
      and the second the token of its own refresh. */
  lemma CarriesTokenInUse(before: seq<Event>, e: Event, after: seq<Event>, c: Id)
    requires ValidRun(START, before) && Sends(Run(START, before), e, c) && ValidRun(After(Run(START, before), e), after)
    ensures var s := Run(START, before);
            var t := Run(After(s, e), after);
            && c in After(s, e).calls && c in t.calls && After(s, e).calls[c].sends == (if e.Issue? then 1 else 2)
            && (t.calls[c].sends == After(s, e).calls[c].sends ==>
                  t.calls[c].header == Due(s, e, c, TokenInUse(before, None)))
  {
    RunKeeps(START, before);
    AccessTokenIsLast(START, before);
    SendCarries(Run(START, before), e, c);
    HeaderKept(After(Run(START, before), e), after, c);
  }

  // ---------- how a request ends ----------

  /** The last reply to request `c`. */
  function LastReply(events: seq<Event>, c: Id, last: Option<Reply>): Option<Reply>
    decreases |events|
  {
    if events == [] then last else LastReply(events[1..], c, NextReply(events[0], c, last))
  }

  function NextReply(e: Event, c: Id, last: Option<Reply>): Option<Reply> {
    match e
    case Issue(d) => if d == c then None else last
    case Respond(d, reply) => if d == c then Some(reply) else last
    case _ => last
  }

  /** A request is done well exactly when the last reply to it was a success. It waits only after a 401, and is given
      up after any other error at once, and after a 401 when it was its second, when there was no refresh token, or
      when the refresh failed. */
  predicate AnsweredBy(call: Call, flights: seq<Flight>, last: Option<Reply>) {
    match call.stage
    case OnWire => last == if call.sends == 1 then None else Some(Unauthorized)
    case Awaiting => last == Some(Unauthorized)
    case Done(ok) =>
      && (ok <==> last == Some(Success)) && last.Some?
      && (last == Some(Unauthorized) && call.sends == 1 && call.flight.Some? ==>
            call.flight.value < |flights| && FlightFailed(flights[call.flight.value]))
  }

  ghost predicate Answered(s: State, c: Id, last: Option<Reply>) {
    c in s.calls ==> AnsweredBy(s.calls[c], s.flights, last)
  }

  lemma RespondAnswers(s: State, d: Id, reply: Reply, c: Id, last: Option<Reply>)
    requires Inv(s) && Enabled(s, Respond(d, reply)) && Answered(s, c, last)
    ensures Answered(AfterRespond(s, d, reply), c, if d == c then Some(reply) else last)
  {
    if c in s.calls { assert CallOk(s.flights, s.calls[c]); }
    if c != d { OtherAnswer(s, d, reply, c); }
  }

  lemma OtherAnswer(s: State, d: Id, reply: Reply, c: Id)
    requires d in s.calls && c != d
    ensures var t := AfterRespond(s, d, reply);
            && (c in t.calls <==> c in s.calls) && (c in s.calls ==> t.calls[c] == s.calls[c])
            && s.flights <= t.flights
  {
  }

  lemma FlightMoves(s: State, t: State, f: nat, phase: Phase, c: Id, last: Option<Reply>)
    requires Answered(s, c, last) && f < |s.flights| && t.calls == s.calls
    requires t.flights == s.flights[f := s.flights[f].(phase := phase)] && (FlightFailed(s.flights[f]) ==> FlightFailed(t.flights[f]))
    ensures Answered(t, c, last)
  {
  }

  lemma StepAnswers(s: State, e: Event, c: Id, last: Option<Reply>)
    requires Inv(s) && Enabled(s, e) && Answered(s, c, last)
    ensures Answered(After(s, e), c, NextReply(e, c, last))
  {
    match e
    case Respond(d, reply) => RespondAnswers(s, d, reply, c, last);
    case Resume(d) => ResumeAnswers(s, d, c, last);
    case Land(f, landing) => FlightMoves(s, After(s, e), f, Landed(OutcomeOf(landing)), c, last);
    case Settle(f) => FlightMoves(s, After(s, e), f, Settled(s.flights[f].phase.out), c, last);
    case _ => assert After(s, e).flights == s.flights;
  }

  lemma ResumeAnswers(s: State, d: Id, c: Id, last: Option<Reply>)
    requires Inv(s) && Enabled(s, Resume(d)) && Answered(s, c, last)
    ensures Answered(After(s, Resume(d)), c, last)
  {
    if c in s.calls { assert CallOk(s.flights, s.calls[c]); }
  }

  lemma {:induction false} RunAnswers(s: State, events: seq<Event>, c: Id, last: Option<Reply>)
    requires Inv(s) && ValidRun(s, events) && Answered(s, c, last)
    ensures Answered(Run(s, events), c, LastReply(events, c, last))
    decreases |events|
  {
    if events != [] {
      StepKeeps(s, events[0]);
      StepAnswers(s, events[0], c, last);
      RunAnswers(After(s, events[0]), events[1..], c, NextReply(events[0], c, last));
    }
  }

  /** Over every run, where a request stands is what the replies to it call for. */
  lemma EndsAsAnswered(events: seq<Event>, c: Id)
    requires ValidRun(START, events) && c in Run(START, events).calls
    ensures AnsweredBy(Run(START, events).calls[c], Run(START, events).flights, LastReply(events, c, None))
  {
    RunAnswers(START, events, c, None);
  }

  /** The first 401 of a request makes it wait exactly when there is a refresh token: for the refresh under way, or for a
      new one with that token. */
  lemma FirstUnauthorizedWaits(s: State, c: Id)
    requires Inv(s) && Enabled(s, Respond(c, Unauthorized)) && s.calls[c].sends == 1
    ensures var t := After(s, Respond(c, Unauthorized));
            && c in t.calls && (t.calls[c].stage == Awaiting <==> Truthy(s.refreshToken))
            && (t.calls[c].stage != Awaiting ==> t.calls[c].stage == Done(false) && t.flights == s.flights && Failures(t) == Failures(s) + 1)
            && (t.calls[c].stage == Awaiting ==>
                  && t.calls[c].flight == t.refreshPromise && t.refreshPromise.Some? && t.refreshPromise.value < |t.flights|
                  && t.flights == (if s.refreshPromise.Some? then s.flights else s.flights + [Flight(s.refreshToken.value, Fetching)]))
  {
    assert CallOk(s.flights, s.calls[c]);
  }

  // ---------- tokens and listeners ----------

  function LastRefreshToken(events: seq<Event>, token: Option<string>): Option<string>
    decreases |events|
  {
    if events == [] then token
    else LastRefreshToken(events[1..], if events[0].SetTokens? then events[0].refresh else token)
  }

  /** The refresh token is the one that setTokens gave last; a refresh does not replace it. */
  lemma {:induction false} RefreshTokenIsLast(s: State, events: seq<Event>)
    requires ValidRun(s, events)
    ensures Run(s, events).refreshToken == LastRefreshToken(events, s.refreshToken)
    decreases |events|
  {
    if events != [] {
      if !events[0].SetTokens? { StepKeepsSends(s, events[0]); }
      RefreshTokenIsLast(After(s, events[0]), events[1..]);
    }
  }

  /** Whether the last of subscribing and unsubscribing `l` was subscribing. */
  function LastSubscribed(events: seq<Event>, l: nat, listening: bool): bool
    decreases |events|
  {
    if events == [] then listening
    else LastSubscribed(events[1..], l, if events[0] == Subscribe(l) then true
                                        else if events[0] == Unsubscribe(l) then false else listening)
  }

  lemma StepListeners(s: State, e: Event, l: nat)
    requires Enabled(s, e)
    ensures l in After(s, e).listeners <==>
            if e == Subscribe(l) then true else if e == Unsubscribe(l) then false else l in s.listeners
  {
    match e
    case Unsubscribe(x) => WithoutOthers(s.listeners, x);
    case Respond(c, reply) => RespondListeners(s, c, reply);
    case _ =>
  }

  lemma RespondListeners(s: State, c: Id, reply: Reply)
    requires c in s.calls
    ensures AfterRespond(s, c, reply).listeners == s.listeners
  {
  }

  /** Listeners are exactly those that subscribed and have not unsubscribed since. */
  lemma {:induction false} ListeningIff(s: State, events: seq<Event>, l: nat)
    requires ValidRun(s, events)
    ensures l in Run(s, events).listeners <==> LastSubscribed(events, l, l in s.listeners)
    decreases |events|
  {
    if events != [] {
      StepListeners(s, events[0], l);
      ListeningIff(After(s, events[0]), events[1..], l);
    }
  }

  predicate DistinctListeners(listeners: seq<nat>) {
    forall i, j | 0 <= i < j < |listeners| :: listeners[i] != listeners[j]
  }

  lemma {:induction false} WithoutKeepsDistinct(listeners: seq<nat>, l: nat)
    requires DistinctListeners(listeners)
    ensures DistinctListeners(Without(listeners, l))
  {
    if listeners != [] {
      WithoutKeepsDistinct(listeners[1..], l);
      WithoutOthers(listeners[1..], l);
      var rest := Without(listeners[1..], l);
      forall i | 0 <= i < |rest| ensures rest[i] != listeners[0] { assert rest[i] in listeners[1..]; }
    }
  }

  lemma {:induction false} ListenersDistinct(s: State, events: seq<Event>)
    requires ValidRun(s, events) && DistinctListeners(s.listeners)
    ensures DistinctListeners(Run(s, events).listeners)
    decreases |events|
  {
    if events != [] {
      match events[0] {
        case Unsubscribe(l) => WithoutKeepsDistinct(s.listeners, l);
        case Respond(c, reply) => RespondListeners(s, c, reply);
        case _ =>
      }
      ListenersDistinct(After(s, events[0]), events[1..]);
    }
  }

  /** The step changes the token, and the listener at place `at` throws. */
  predicate ThrowsAt(s: State, e: Event, at: nat, token: Option<string>) {
    && Enabled(s, e) && at < |s.listeners|
    && match e
       case SetTokens(access, _, threw) => access != s.accessToken && threw == Some(at) && access == token
       case Land(_, landing) => landing.ListenerThrew? && landing.at == at && Some(landing.token) == token
       case _ => false
  }

  /** In any reachable state: when a listener throws, those before it and it itself have been told the new token, and
      those after it know what they knew. */
  lemma ThrowStopsTelling(before: seq<Event>, e: Event, at: nat, token: Option<string>, i: nat)
    requires ValidRun(START, before) && ThrowsAt(Run(START, before), e, at, token) && i < |Run(START, before).listeners|
    ensures var s, t := Run(START, before), After(Run(START, before), e);
            var l := s.listeners[i];
            && t.listeners == s.listeners && l in s.told && l in t.told
            && t.told[l] == if i <= at then token else s.told[l]
  {
    RunKeeps(START, before);
    ListenersDistinct(START, before);
    TellsUpTo(Run(START, before), e, at, token, i);
  }

  lemma TellsUpTo(s: State, e: Event, at: nat, token: Option<string>, i: nat)
    requires Inv(s) && DistinctListeners(s.listeners) && ThrowsAt(s, e, at, token) && i < |s.listeners|
    ensures var t, l := After(s, e), s.listeners[i];
            && t.listeners == s.listeners && l in s.told && l in t.told
            && t.told[l] == if i <= at then token else s.told[l]
  {
    var l, reached := s.listeners[i], s.listeners[..at + 1];
    assert l in s.listeners;
    if i <= at { assert reached[i] == l; } else { forall k | 0 <= k < |reached| ensures reached[k] != l {} }
    assert l in reached <==> i <= at;
  }
}
