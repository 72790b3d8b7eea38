/** The reconnecting browser socket of frontend/lib/api/ws.ts, with the browser's sockets and timers around it.
    Any call is allowed at any time; which ones keep the connection single is part of what is proved. */
module NotificationSocket {
  import opened Wrappers

  datatype Phase = Connecting | Open | Closing | Closed

  datatype Timer = Timer(delay: nat, armed: bool)

  /** The object's fields, then every WebSocket and every timer it has ever created; `tokens` are those in the
      sockets' URLs. */
  datatype State = Snapshot(socket: Option<nat>, token: string, reconnectAttempt: nat, reconnectTimer: Option<nat>,
                            closedByCaller: bool, connected: bool, sockets: seq<Phase>, tokens: seq<string>,
                            timers: seq<Timer>)

  datatype Event =
    | Connect(token: string)
    | Opened(i: nat)
    | Dropped(i: nat)
    | Errored(i: nat)
    | Fired(t: nat)
    | ReconnectWithToken(token: string)
    | Close

  const MAX_BACKOFF_MS := 30_000

  const START := Snapshot(None, "", 0, None, false, false, [], [], [])

  function Pow2(n: nat): nat {
    if n == 0 then 1 else 2 * Pow2(n - 1)
  }

  function Backoff(attempt: nat): nat {
    if 1000 * Pow2(attempt) < MAX_BACKOFF_MS then 1000 * Pow2(attempt) else MAX_BACKOFF_MS
  }

  lemma {:induction false} Pow2Grows(n: nat)
    requires n >= 5
    ensures Pow2(n) >= 32
  {
    if n > 5 { Pow2Grows(n - 1); }
  }

  /** 1, 2, 4, 8 and 16 seconds, then every 30 seconds. */
  lemma BackoffSchedule(n: nat)
    ensures Backoff(n) == if n < 5 then [1000, 2000, 4000, 8000, 16000][n] else 30_000
  {
    if n >= 5 { Pow2Grows(n); }
    assert Pow2(1) == 2 && Pow2(2) == 4 && Pow2(3) == 8 && Pow2(4) == 16;
  }

  // ---------- steps ----------

  /** clearTimeout on the remembered timer. */
  function TimerCleared(s: State): State {
    if s.reconnectTimer.None? then s
    else if s.reconnectTimer.value < |s.timers| then
      s.(timers := s.timers[s.reconnectTimer.value := s.timers[s.reconnectTimer.value].(armed := false)],
         reconnectTimer := None)
    else s.(reconnectTimer := None)
  }

  function AfterOpen(s: State): State {
    if s.token == "" then s
    else
      var t := TimerCleared(s);
      t.(sockets := t.sockets + [Connecting], tokens := t.tokens + [t.token], socket := Some(|t.sockets|))
  }

  function CloseRequested(p: Phase): Phase {
    if p == Closed then Closed else Closing
  }

  /** this.socket?.close(). */
  function CurrentClosing(s: State): State {
    if s.socket.Some? && s.socket.value < |s.sockets| then
      s.(sockets := s.sockets[s.socket.value := CloseRequested(s.sockets[s.socket.value])])
    else s
  }

  function Rescheduled(s: State): State {
    s.(timers := s.timers + [Timer(Backoff(s.reconnectAttempt), true)],
       reconnectTimer := Some(|s.timers|), reconnectAttempt := s.reconnectAttempt + 1)
  }

  /** Callers may call what they like; the browser reports only what can happen to a socket or timer. */
  predicate Enabled(s: State, e: Event) {
    match e
    case Connect(_) => true
    case Opened(i) => i < |s.sockets| && s.sockets[i] == Connecting
    case Dropped(i) => i < |s.sockets| && s.sockets[i] != Closed
    case Errored(i) => i < |s.sockets| && s.sockets[i] != Closed
    case Fired(t) => t < |s.timers| && s.timers[t].armed
    case ReconnectWithToken(_) => true
    case Close => true
  }

  function After(s: State, e: Event): State {
    match e
    case Connect(token) =>
      AfterOpen(s.(token := token, closedByCaller := false, reconnectAttempt := 0, connected := true))
    case Opened(i) =>
      if i < |s.sockets| then s.(sockets := s.sockets[i := Open], reconnectAttempt := 0) else s
    case Dropped(i) =>
      if i >= |s.sockets| then s
      else
        var t := s.(sockets := s.sockets[i := Closed]);
        if s.closedByCaller then t else Rescheduled(t)
    case Errored(_) => CurrentClosing(s)
    case Fired(k) =>
      if k < |s.timers| then AfterOpen(s.(timers := s.timers[k := s.timers[k].(armed := false)])) else s
    case ReconnectWithToken(token) =>
      if s.closedByCaller then s.(token := token) else CurrentClosing(s.(token := token))
    case Close => CurrentClosing(TimerCleared(s.(closedByCaller := true))).(socket := None)
  }

  predicate ValidRun(s: State, events: seq<Event>)
    decreases |events|
  {
    events == [] || (Enabled(s, events[0]) && ValidRun(After(s, events[0]), events[1..]))
  }

  function Run(s: State, events: seq<Event>): State
    decreases |events|
  {
    if events == [] then s else Run(After(s, events[0]), events[1..])
  }

  // ---------- what every step keeps ----------

  /** Nothing but the newest socket can still be alive. */
  ghost predicate OldSocketsClosed(sockets: seq<Phase>) {
    forall i | 0 <= i < |sockets| - 1 :: sockets[i] == Closed
  }

  /** The remembered timer is the only armed one, and it is armed. */
  ghost predicate OnlyArmed(timers: seq<Timer>, reconnectTimer: Option<nat>) {
    && (forall t | 0 <= t < |timers| && timers[t].armed :: reconnectTimer == Some(t))
    && (reconnectTimer.Some? ==> reconnectTimer.value < |timers| && timers[reconnectTimer.value].armed)
  }

  predicate Alive(sockets: seq<Phase>) {
    sockets != [] && sockets[|sockets| - 1] != Closed
  }

  predicate IsDown(p: Phase) {
    p == Closing || p == Closed
  }

  ghost predicate AllDown(sockets: seq<Phase>) {
    forall i | 0 <= i < |sockets| :: IsDown(sockets[i])
  }

  /** A socket that is connecting or open was opened with the token handed over last. */
  ghost predicate UsesToken(sockets: seq<Phase>, tokens: seq<string>, token: string) {
    |tokens| == |sockets| && forall i | 0 <= i < |sockets| && !IsDown(sockets[i]) :: tokens[i] == token
  }

  ghost predicate Inv(s: State) {
    && OldSocketsClosed(s.sockets)
    && OnlyArmed(s.timers, s.reconnectTimer)
    && (s.connected && !s.closedByCaller ==>
          && s.token != ""
          && s.sockets != [] && s.socket == Some(|s.sockets| - 1)
          && (Alive(s.sockets) <==> s.reconnectTimer.None?))
    && (!s.connected ==> s.sockets == [] && s.timers == [])
    && (s.closedByCaller ==> s.reconnectTimer.None? && s.socket.None? && AllDown(s.sockets))
    && UsesToken(s.sockets, s.tokens, s.token)
    && (s.socket.Some? ==> s.socket.value < |s.sockets|)
  }

  /** Connected, and not closed since. */
  predicate Wanted(s: State) {
    s.connected && !s.closedByCaller
  }

  /** What a caller has to respect: connect with a token and only while no socket is alive, and never replace the
      token of a live connection by an empty one. The hook does, by making a new instance for every connect
      and by passing on only real tokens. */
  predicate Respects(s: State, e: Event) {
    match e
    case Connect(token) => token != "" && !Alive(s.sockets)
    case ReconnectWithToken(token) => token != "" || !Wanted(s)
    case _ => true
  }

  /** Exactly those calls keep the invariant; what the browser does always does. */
  lemma StepKeepsIff(s: State, e: Event)
    requires Inv(s) && Enabled(s, e)
    ensures Inv(After(s, e)) <==> Respects(s, e)
  {
    if e.Connect? { ConnectKeepsIff(s, e.token); } else { OtherKeepsIff(s, e); }
  }

  lemma ConnectKeepsIff(s: State, token: string)
    requires Inv(s)
    ensures Inv(After(s, Connect(token))) <==> Respects(s, Connect(token))
  {
    var t := After(s, Connect(token));
    if token != "" && Alive(s.sockets) {
      assert t.sockets[|s.sockets| - 1] != Closed && |t.sockets| == |s.sockets| + 1;
    }
  }

  lemma OtherKeepsIff(s: State, e: Event)
    requires Inv(s) && Enabled(s, e) && !e.Connect?
    ensures Inv(After(s, e)) <==> Respects(s, e)
  {
    match e
    case Opened(i) =>
    case Dropped(i) => DropKeeps(s, i);
    case Errored(_) => ClosingKeeps(s);
    case Fired(k) => FireKeeps(s, k);
    case ReconnectWithToken(token) => ReconnectKeepsIff(s, token);
    case Close =>
  }

  lemma DropKeeps(s: State, i: nat)
    requires Inv(s) && Enabled(s, Dropped(i))
    ensures Inv(After(s, Dropped(i)))
  {
  }

  lemma ClosingKeeps(s: State)
    requires Inv(s)
    ensures Inv(CurrentClosing(s))
  {
  }

  lemma FireKeeps(s: State, k: nat)
    requires Inv(s) && Enabled(s, Fired(k))
    ensures Inv(After(s, Fired(k)))
  {
  }

  lemma ReconnectKeepsIff(s: State, token: string)
    requires Inv(s)
    ensures Inv(After(s, ReconnectWithToken(token))) <==> Respects(s, ReconnectWithToken(token))
  {
  }

  ghost predicate Respectful(s: State, events: seq<Event>)
    decreases |events|
  {
    events == [] || (Respects(s, events[0]) && Respectful(After(s, events[0]), events[1..]))
  }

  lemma {:induction false} RunKeeps(s: State, events: seq<Event>)
    requires Inv(s) && ValidRun(s, events) && Respectful(s, events)
    ensures Inv(Run(s, events))
    decreases |events|
  {
    if events != [] {
      StepKeepsIff(s, events[0]);
      RunKeeps(After(s, events[0]), events[1..]);
    }
  }

  lemma {:induction false} RunThen(s: State, a: seq<Event>, b: seq<Event>)
    ensures Run(s, a + b) == Run(Run(s, a), b)
    ensures ValidRun(s, a + b) <==> ValidRun(s, a) && ValidRun(Run(s, a), b)
    ensures Respectful(s, a + b) <==> Respectful(s, a) && Respectful(Run(s, a), b)
    decreases |a|
  {
    if a == [] {
      assert a + b == b;
    } else {
      var t := After(s, a[0]);
      assert (a + b)[0] == a[0] && (a + b)[1..] == a[1..] + b;
      assert Run(s, a + b) == Run(t, a[1..] + b) && Run(s, a) == Run(t, a[1..]);
      RunThen(t, a[1..], b);
    }
  }

  // ---------- the promises ----------

  /** Whether the last of connect and close was a connect; `wanted` tells how things stood before. */
  function StillWanted(wanted: bool, events: seq<Event>): bool
    decreases |events|
  {
    if events == [] then wanted
    else StillWanted(match events[0] { case Connect(_) => true case Close => false case _ => wanted }, events[1..])
  }

  lemma {:induction false} WantedTellsHistory(s: State, events: seq<Event>)
    ensures Wanted(Run(s, events)) <==> StillWanted(Wanted(s), events)
    decreases |events|
  {
    if events != [] {
      WantedTellsHistory(After(s, events[0]), events[1..]);
    }
  }

  ghost function Unclosed(s: State): set<nat> {
    set i | 0 <= i < |s.sockets| && s.sockets[i] != Closed
  }

  ghost function Armed(s: State): set<nat> {
    set t | 0 <= t < |s.timers| && s.timers[t].armed
  }

  lemma OneWhileWanted(s: State)
    requires Inv(s) && Wanted(s)
    ensures |Unclosed(s)| + |Armed(s)| == 1
  {
    if Alive(s.sockets) {
      assert Unclosed(s) == {|s.sockets| - 1} && Armed(s) == {};
    } else {
      assert Unclosed(s) == {} && Armed(s) == {s.reconnectTimer.value};
    }
  }

  /** From connect until close, whatever the browser does: one socket that is not closed, or one pending timer,
      and never both. So the connection is always on its way back, and is never doubled. */
  lemma ExactlyOne(events: seq<Event>)
    requires ValidRun(START, events) && Respectful(START, events) && StillWanted(false, events)
    ensures |Unclosed(Run(START, events))| + |Armed(Run(START, events))| == 1
  {
    RunKeeps(START, events);
    WantedTellsHistory(START, events);
    OneWhileWanted(Run(START, events));
  }

  /** A further connect on the same instance keeps to one exactly when no socket is alive at that moment. */
  lemma ConnectKeepsOneIff(s: State, token: string)
    requires Inv(s) && token != ""
    ensures var t := After(s, Connect(token)); |Unclosed(t)| + |Armed(t)| == 1 <==> Unclosed(s) == {}
  {
    ConnectArmsNothing(s, token);
    ConnectOpensOne(s, token);
    assert |Unclosed(After(s, Connect(token)))| == |Unclosed(s)| + 1;
    if Unclosed(s) != {} { assert |Unclosed(s)| > 0; }
  }

  lemma ConnectArmsNothing(s: State, token: string)
    requires OnlyArmed(s.timers, s.reconnectTimer) && token != ""
    ensures Armed(After(s, Connect(token))) == {}
  {
  }

  lemma ConnectOpensOne(s: State, token: string)
    requires token != ""
    ensures Unclosed(After(s, Connect(token))) == Unclosed(s) + {|s.sockets|} && |s.sockets| !in Unclosed(s)
  {
    assert After(s, Connect(token)).sockets == s.sockets + [Connecting];
  }

  function LastToken(token: string, events: seq<Event>): string
    decreases |events|
  {
    if events == [] then token else LastToken(NextToken(token, events[0]), events[1..])
  }

  lemma {:induction false} TokenIsLast(s: State, events: seq<Event>)
    requires ValidRun(s, events)
    ensures Run(s, events).token == LastToken(s.token, events)
    decreases |events|
  {
    if events != [] {
      StepOpensIff(s, events[0]);
      TokenIsLast(After(s, events[0]), events[1..]);
    }
  }

  /** Whatever the browser does, a socket that is connecting or open was opened with the token that connect or
      reconnectWithToken handed over last; a stale one is closing or closed. */
  lemma UsableSocketIsCurrent(events: seq<Event>, i: nat)
    requires ValidRun(START, events) && Respectful(START, events)
    requires i < |Run(START, events).sockets| && !IsDown(Run(START, events).sockets[i])
    ensures var s := Run(START, events); |s.tokens| == |s.sockets| && s.tokens[i] == LastToken("", events)
  {
    RunKeeps(START, events);
    TokenIsLast(START, events);
  }

  /** Reconnecting with a token, and an error on a socket, take the living socket down, or there is none and the
      next one is already due. Either way a socket with the last token is on its way. */
  lemma ComesBack(events: seq<Event>, e: Event)
    requires ValidRun(START, events + [e]) && Respectful(START, events + [e]) && StillWanted(false, events)
    requires e.ReconnectWithToken? || e.Errored?
    ensures var s := Run(START, events + [e]);
            && AllDown(s.sockets) && s.token == LastToken("", events + [e]) && s.token != ""
            && if Unclosed(s) == {} then |Armed(s)| == 1 else Armed(s) == {}
  {
    RunThen(START, events, [e]);
    RunKeeps(START, events);
    WantedTellsHistory(START, events);
    TokenIsLast(START, events + [e]);
    var s := Run(START, events);
    assert Run(s, [e]) == After(s, e) by { assert Run(s, [e]) == Run(After(s, e), []); }
    StepKeepsIff(s, e);
    TakenDown(s, e);
    OneWhileWanted(After(s, e));
    if Unclosed(After(s, e)) != {} { assert |Unclosed(After(s, e))| > 0; }
  }

  lemma TakenDown(s: State, e: Event)
    requires Inv(s) && Wanted(s) && Enabled(s, e) && (e.ReconnectWithToken? || e.Errored?)
    ensures AllDown(After(s, e).sockets) && Wanted(After(s, e))
  {
  }

  predicate HasConnect(events: seq<Event>) {
    exists k | 0 <= k < |events| :: events[k].Connect?
  }

  lemma {:induction false} SocketsOnlyGrow(s: State, events: seq<Event>)
    ensures |s.sockets| <= |Run(s, events).sockets|
    decreases |events|
  {
    if events != [] { SocketsOnlyGrow(After(s, events[0]), events[1..]); }
  }

  /** Some connect hands over a token, or a timer fires while the last token handed over is not empty; `token` is
      the one before these events. */
  predicate Opens(token: string, events: seq<Event>)
    decreases |events|
  {
    events != [] && (OpensNow(token, events[0]) || Opens(NextToken(token, events[0]), events[1..]))
  }

  predicate OpensNow(token: string, e: Event) {
    (e.Connect? && e.token != "") || (e.Fired? && token != "")
  }

  function NextToken(token: string, e: Event): string {
    if e.Connect? || e.ReconnectWithToken? then e.token else token
  }

  /** From any state, and whatever is called: a socket is opened in exactly these cases. */
  lemma {:induction false} SocketOpenedIff(s: State, events: seq<Event>)
    requires ValidRun(s, events)
    ensures |Run(s, events).sockets| == |s.sockets| <==> !Opens(s.token, events)
    decreases |events|
  {
    if events != [] {
      StepOpensIff(s, events[0]);
      SocketsOnlyGrow(After(s, events[0]), events[1..]);
      SocketOpenedIff(After(s, events[0]), events[1..]);
    }
  }

  lemma StepOpensIff(s: State, e: Event)
    requires Enabled(s, e)
    ensures |After(s, e).sockets| == |s.sockets| + (if OpensNow(s.token, e) then 1 else 0)
    ensures After(s, e).token == NextToken(s.token, e)
    ensures After(s, e).tokens == s.tokens + if OpensNow(s.token, e) then [NextToken(s.token, e)] else []
  {
  }

  /** The tokens of the sockets that are opened, in order. */
  function OpenedTokens(token: string, events: seq<Event>): seq<string>
    decreases |events|
  {
    if events == [] then []
    else (if OpensNow(token, events[0]) then [NextToken(token, events[0])] else [])
         + OpenedTokens(NextToken(token, events[0]), events[1..])
  }

  /** So every socket was opened with the token that had been handed over last at that time, and keeps it. */
  lemma {:induction false} SocketTokens(s: State, events: seq<Event>)
    requires ValidRun(s, events)
    ensures Run(s, events).tokens == s.tokens + OpenedTokens(s.token, events)
    decreases |events|
  {
    if events != [] {
      StepOpensIff(s, events[0]);
      SocketTokens(After(s, events[0]), events[1..]);
    }
  }

  /** The first connect hands over a token, if there is one. */
  predicate FirstHasToken(events: seq<Event>) {
    events == [] || if events[0].Connect? then events[0].token != "" else FirstHasToken(events[1..])
  }

  /** Of a closed connection: nothing opens until somebody connects again, and then something does. */
  lemma {:induction false} ReopensIff(s: State, events: seq<Event>)
    requires Inv(s) && s.closedByCaller && ValidRun(s, events) && FirstHasToken(events)
    ensures |Run(s, events).sockets| == |s.sockets| <==> !HasConnect(events)
    ensures !HasConnect(events) ==> Armed(Run(s, events)) == {} && AllDown(Run(s, events).sockets)
    decreases |events|
  {
    if events != [] {
      var e, rest := events[0], events[1..];
      assert events == [e] + rest;
      HasConnectFirst(e, rest);
      if e.Connect? {
        SocketsOnlyGrow(After(s, e), rest);
      } else {
        StepKeepsIff(s, e);
        ReopensIff(After(s, e), rest);
      }
    }
  }

  lemma HasConnectFirst(e: Event, rest: seq<Event>)
    ensures HasConnect([e] + rest) <==> e.Connect? || HasConnect(rest)
  {
    var events := [e] + rest;
    if e.Connect? { assert events[0].Connect?; }
    if HasConnect(rest) {
      var k :| 0 <= k < |rest| && rest[k].Connect?;
      assert events[k + 1].Connect?;
    }
  }

  /** After close every socket is closing or closed, none is opened and no timer is pending for as long as nobody connects
      again. The next connect
      opens one if it hands over a token; after one with an empty token a timer may still do so later. */
  lemma ClosedUntilConnectIff(before: seq<Event>, after: seq<Event>)
    requires ValidRun(START, before + [Close] + after) && Respectful(START, before)
    ensures var s, t := Run(START, before), Run(START, before + [Close] + after);
            && (|t.sockets| == |s.sockets| <==> !Opens(s.token, after))
            && (!HasConnect(after) ==> AllDown(t.sockets) && Armed(t) == {} && |t.sockets| == |s.sockets|)
            && (FirstHasToken(after) ==> (|t.sockets| == |s.sockets| <==> !HasConnect(after)))
  {
    RunThen(START, before + [Close], after);
    RunThen(START, before, [Close]);
    RunKeeps(START, before);
    var s, closed := Run(START, before), Run(START, before + [Close]);
    assert closed == After(s, Close) by {
      assert Run(s, [Close]) == Run(After(s, Close), []);
    }
    StepKeepsIff(s, Close);
    SocketOpenedIff(closed, after);
    if !HasConnect(after) { NoConnectNoToken(after); }
    if FirstHasToken(after) { ReopensIff(closed, after); }
  }

  lemma {:induction false} NoConnectNoToken(events: seq<Event>)
    requires !HasConnect(events)
    ensures FirstHasToken(events)
  {
    if events != [] {
      HasConnectFirst(events[0], events[1..]);
      assert events == [events[0]] + events[1..];
      NoConnectNoToken(events[1..]);
    }
  }

  /** Drops since the last connect or successful open, not counting those after a close; `n` and `closed` tell
      how things stood before. */
  function Retries(n: nat, closed: bool, events: seq<Event>): nat
    decreases |events|
  {
    if events == [] then n
    else Retries(NextRetry(n, closed, events[0]), ClosedBy(closed, events[0]), events[1..])
  }

  function NextRetry(n: nat, closed: bool, e: Event): nat {
    if e.Connect? || e.Opened? then 0 else if e.Dropped? && !closed then n + 1 else n
  }

  function ClosedBy(closed: bool, e: Event): bool {
    if e.Connect? then false else if e == Close then true else closed
  }

  lemma StepCounts(s: State, e: Event)
    requires Enabled(s, e)
    ensures After(s, e).reconnectAttempt == NextRetry(s.reconnectAttempt, s.closedByCaller, e)
    ensures After(s, e).closedByCaller == ClosedBy(s.closedByCaller, e)
  {
  }

  lemma {:induction false} AttemptsCountDrops(s: State, events: seq<Event>)
    requires ValidRun(s, events)
    ensures Run(s, events).reconnectAttempt == Retries(s.reconnectAttempt, s.closedByCaller, events)
    decreases |events|
  {
    if events != [] {
      StepCounts(s, events[0]);
      AttemptsCountDrops(After(s, events[0]), events[1..]);
    }
  }

  /** A drop before close arms one timer, and the n-th retry since the last successful open waits
      min(1000 * 2^n, 30000) milliseconds. */
  lemma DropWaits(events: seq<Event>, i: nat)
    requires ValidRun(START, events + [Dropped(i)]) && Respectful(START, events) && StillWanted(false, events)
    ensures var s := Run(START, events + [Dropped(i)]);
            Armed(s) == {|s.timers| - 1} && s.timers[|s.timers| - 1].delay == Backoff(Retries(0, false, events))
  {
    RunThen(START, events, [Dropped(i)]);
    RunKeeps(START, events);
    WantedTellsHistory(START, events);
    AttemptsCountDrops(START, events);
    var s, t := Run(START, events), Run(START, events + [Dropped(i)]);
    assert t == After(s, Dropped(i)) by {
      assert Run(s, [Dropped(i)]) == Run(After(s, Dropped(i)), []);
    }
    StepKeepsIff(s, Dropped(i));
    DropArms(s, i);
  }

  lemma DropArms(s: State, i: nat)
    requires Inv(s) && Wanted(s) && Enabled(s, Dropped(i)) && Inv(After(s, Dropped(i)))
    ensures var t := After(s, Dropped(i));
            Armed(t) == {|t.timers| - 1} && t.timers[|t.timers| - 1].delay == Backoff(s.reconnectAttempt)
  {
  }

  // ---------- the class itself ----------

  class Socket {
    var socket: Option<nat>
    var token: string
    var reconnectAttempt: nat
    var reconnectTimer: Option<nat>
    var closedByCaller: bool
    ghost var connected: bool
    // The browser's side: what became of each WebSocket and timer this object created.
    var sockets: seq<Phase>
    var tokens: seq<string>
    var timers: seq<Timer>

    ghost function State(): State
      reads this
    {
      Snapshot(socket, token, reconnectAttempt, reconnectTimer, closedByCaller, connected, sockets, tokens, timers)
    }

    /** Remembered handles point at sockets and timers that exist. */
    ghost predicate Valid()
      reads this
    {
      && (reconnectTimer.Some? ==> reconnectTimer.value < |timers|)
      && (socket.Some? ==> socket.value < |sockets|)
    }

    constructor ()
      ensures Valid() && State() == START && Inv(State())
    {
      socket, token, reconnectAttempt, reconnectTimer := None, "", 0, None;
      closedByCaller, connected, sockets, tokens, timers := false, false, [], [], [];
    }

    method ClearReconnectTimer()
      requires reconnectTimer.Some? ==> reconnectTimer.value < |timers|
      modifies this`timers, this`reconnectTimer
      ensures State() == TimerCleared(old(State()))
    {
      if reconnectTimer.Some? {
        var t := reconnectTimer.value;
        timers := timers[t := timers[t].(armed := false)];
        reconnectTimer := None;
      }
    }

    /** The private open(): a new WebSocket, unless there is no token. */
    method OpenSocket()
      requires reconnectTimer.Some? ==> reconnectTimer.value < |timers|
      modifies this`timers, this`reconnectTimer, this`sockets, this`tokens, this`socket
      ensures State() == AfterOpen(old(State()))
    {
      if token == "" { return; }
      ClearReconnectTimer();
      sockets, tokens := sockets + [Connecting], tokens + [token];
      socket := Some(|sockets| - 1);
    }

    method CloseCurrent()
      requires socket.Some? ==> socket.value < |sockets|
      modifies this`sockets
      ensures State() == CurrentClosing(old(State()))
    {
      if socket.Some? && sockets[socket.value] != Closed {
        sockets := sockets[socket.value := Closing];
      }
    }

    method ScheduleReconnect()
      modifies this`timers, this`reconnectTimer, this`reconnectAttempt
      ensures State() == Rescheduled(old(State()))
    {
      var delay := Backoff(reconnectAttempt);
      reconnectAttempt := reconnectAttempt + 1;
      timers := timers + [Timer(delay, true)];
      reconnectTimer := Some(|timers| - 1);
    }

    method Connect(newToken: string)
      requires Valid()
      modifies this
      ensures Valid() && State() == After(old(State()), Event.Connect(newToken))
      ensures old(Inv(State())) ==> (Inv(State()) <==> Respects(old(State()), Event.Connect(newToken)))
    {
      ghost var was := State();
      if Inv(was) { StepKeepsIff(was, Event.Connect(newToken)); }
      token := newToken;
      closedByCaller := false;
      reconnectAttempt := 0;
      connected := true;
      OpenSocket();
    }

    method OnOpen(i: nat)
      requires Valid() && Enabled(State(), Opened(i))
      modifies this
      ensures Valid() && State() == After(old(State()), Opened(i))
      ensures old(Inv(State())) ==> Inv(State())
    {
      ghost var was := State();
      if Inv(was) { StepKeepsIff(was, Opened(i)); }
      sockets := sockets[i := Open];
      reconnectAttempt := 0;
    }

    method OnClose(i: nat)
      requires Valid() && Enabled(State(), Dropped(i))
      modifies this
      ensures Valid() && State() == After(old(State()), Dropped(i))
      ensures old(Inv(State())) ==> Inv(State())
    {
      ghost var was := State();
      if Inv(was) { StepKeepsIff(was, Dropped(i)); }
      sockets := sockets[i := Closed];
      if !closedByCaller { ScheduleReconnect(); }
    }

    /** onerror closes whichever socket is current. */
    method OnError(i: nat)
      requires Valid() && Enabled(State(), Errored(i))
      modifies this
      ensures Valid() && State() == After(old(State()), Errored(i))
      ensures old(Inv(State())) ==> Inv(State())
    {
      ghost var was := State();
      if Inv(was) { StepKeepsIff(was, Errored(i)); }
      CloseCurrent();
    }

    method OnTimer(t: nat)
      requires Valid() && Enabled(State(), Fired(t))
      modifies this
      ensures Valid() && State() == After(old(State()), Fired(t))
      ensures old(Inv(State())) ==> Inv(State())
    {
      ghost var was := State();
      if Inv(was) { StepKeepsIff(was, Fired(t)); }
      timers := timers[t := timers[t].(armed := false)];
      OpenSocket();
    }

    method ReconnectWithToken(newToken: string)
      requires Valid()
      modifies this
      ensures Valid() && State() == After(old(State()), Event.ReconnectWithToken(newToken))
      ensures old(Inv(State())) ==> (Inv(State()) <==> Respects(old(State()), Event.ReconnectWithToken(newToken)))
    {
      ghost var was := State();
      if Inv(was) { StepKeepsIff(was, Event.ReconnectWithToken(newToken)); }
      token := newToken;
      if closedByCaller { return; }
      CloseCurrent();
    }

    method Close()
      requires Valid()
      modifies this
      ensures Valid() && State() == After(old(State()), Event.Close)
      ensures old(Inv(State())) ==> Inv(State())
    {
      ghost var was := State();
      if Inv(was) { StepKeepsIff(was, Event.Close); }
      closedByCaller := true;
      ClearReconnectTimer();
      CloseCurrent();
      socket := None;
    }
  }
}
