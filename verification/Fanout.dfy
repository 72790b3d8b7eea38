/** Fan-out over any number of notify-svc replicas that read one shared, ordered channel:
    every replica runs the hub of backend/cmd/notify-svc/hub.go, and the steps of
    publishers, replicas and sockets interleave freely. */
module Fanout {
  import opened Wrappers
  import opened Schema
  import opened NotifyHub

  /** Every accepted handshake is a new connection. */
  type Conn = nat

  /** `taken` counts the messages a replica has taken off the channel; `writing` is what is left of
      the snapshot it made for the last one. A replica that has stopped does not come back under its number. */
  datatype Replica = Replica(up: bool, conns: map<Id, set<Conn>>, taken: nat, writing: set<Conn>)

  /** A connection's life: registered on one replica after `since` messages, unregistered, or stopped with its
      replica, after `ended`. `intact` until its socket breaks, or its replica stops with a note in flight to it. */
  datatype Session = Session(replica: nat, user: Id, since: nat, ended: Option<nat>, intact: bool, received: seq<Note>)

  datatype System = System(log: seq<Payload>, replicas: seq<Replica>, sessions: map<Conn, Session>)

  datatype Event =
    | Publish(p: Payload)
    | Join
    | Stop(r: nat)
    | Register(r: nat, user: Id, c: Conn)
    | Unregister(c: Conn)
    | Break(c: Conn)
    | Take(r: nat)
    | Write(r: nat, c: Conn)

  ghost predicate Enabled(s: System, e: Event) {
    match e
    case Publish(_) => true
    case Join => true
    case Stop(r) => r < |s.replicas| && s.replicas[r].up
    case Register(r, _, c) => r < |s.replicas| && s.replicas[r].up && c !in s.sessions
    case Unregister(c) => c in s.sessions && s.sessions[c].ended.None? && s.sessions[c].replica < |s.replicas|
    case Break(c) => c in s.sessions
    case Take(r) => r < |s.replicas| && s.replicas[r].up && s.replicas[r].writing == {} && s.replicas[r].taken < |s.log|
    case Write(r, c) => r < |s.replicas| && s.replicas[r].up && c in s.replicas[r].writing && s.replicas[r].taken <= |s.log|
                        && s.replicas[r].taken > 0 && c in s.sessions
  }

  function Recipients(rep: Replica, p: Payload): set<Conn> {
    if p.Envelope? then Holding(rep.conns, p.user) else {}
  }

  function AfterTake(rep: Replica, p: Payload): Replica {
    rep.(taken := rep.taken + 1, writing := Recipients(rep, p))
  }

  /** The process ends: its table and its snapshot are lost, and so are its sockets. */
  function AfterStop(rep: Replica): Replica {
    Replica(false, map[], rep.taken, {})
  }

  function Stopped(c: Conn, ses: Session, rep: Replica): Session {
    ses.(ended := Some(ses.ended.GetOr(rep.taken)), intact := ses.intact && c !in rep.writing)
  }

  function AfterStops(sessions: map<Conn, Session>, r: nat, rep: Replica): map<Conn, Session> {
    map c | c in sessions :: if sessions[c].replica == r then Stopped(c, sessions[c], rep) else sessions[c]
  }

  function AfterWrite(ses: Session, p: Payload): Session {
    if ses.intact && p.Envelope? then ses.(received := ses.received + [p.note]) else ses
  }

  ghost function After(s: System, e: Event): System
    requires Enabled(s, e)
  {
    match e
    case Publish(p) => s.(log := s.log + [p])
    // A subscription starts at the end of the channel: there is no history to read.
    case Join => s.(replicas := s.replicas + [Replica(true, map[], |s.log|, {})])
    case Stop(r) =>
      s.(replicas := s.replicas[r := AfterStop(s.replicas[r])], sessions := AfterStops(s.sessions, r, s.replicas[r]))
    case Register(r, user, c) =>
      var rep := s.replicas[r];
      s.(replicas := s.replicas[r := rep.(conns := Registered(rep.conns, user, c))],
         sessions := s.sessions[c := Session(r, user, rep.taken, None, true, [])])
    case Unregister(c) =>
      var ses := s.sessions[c];
      var rep := s.replicas[ses.replica];
      s.(replicas := s.replicas[ses.replica := rep.(conns := Unregistered(rep.conns, ses.user, c))],
         sessions := s.sessions[c := ses.(ended := Some(rep.taken))])
    case Break(c) => s.(sessions := s.sessions[c := s.sessions[c].(intact := false)])
    case Take(r) => s.(replicas := s.replicas[r := AfterTake(s.replicas[r], s.log[s.replicas[r].taken])])
    case Write(r, c) =>
      var rep := s.replicas[r];
      s.(replicas := s.replicas[r := rep.(writing := rep.writing - {c})],
         sessions := s.sessions[c := AfterWrite(s.sessions[c], s.log[rep.taken - 1])])
  }

  ghost predicate ValidRun(s: System, events: seq<Event>)
    decreases |events|
  {
    events == [] || (Enabled(s, events[0]) && ValidRun(After(s, events[0]), events[1..]))
  }

  ghost function Run(s: System, events: seq<Event>): System
    requires ValidRun(s, events)
    decreases |events|
  {
    if events == [] then s else Run(After(s, events[0]), events[1..])
  }

  const START := System([], [], map[])

  // ---------- what every step keeps ----------

  /** How far along the channel a connection's share reaches. */
  function Reach(ses: Session, rep: Replica): nat {
    ses.ended.GetOr(rep.taken)
  }

  /** The note a connection is about to be sent, if it is still in its replica's snapshot. */
  function InFlight(log: seq<Payload>, rep: Replica, c: Conn): seq<Note>
    requires rep.taken <= |log|
  {
    if c in rep.writing && rep.taken > 0 && log[rep.taken - 1].Envelope? then [log[rep.taken - 1].note] else []
  }

  /** The table of replica `k` lists exactly the connections that are live on it. */
  ghost predicate ListsLive(k: nat, conns: map<Id, set<Conn>>, sessions: map<Conn, Session>) {
    && Tidy(conns)
    && forall u, c {:trigger c in Holding(conns, u)} :: c in Holding(conns, u) <==>
         c in sessions && sessions[c].ended.None? && sessions[c].replica == k && sessions[c].user == u
  }

  /** A connection still to be written was live when the message was taken, and the message is its user's. */
  ghost predicate WritingOk(k: nat, rep: Replica, log: seq<Payload>, sessions: map<Conn, Session>) {
    forall c | c in rep.writing ::
      && c in sessions && sessions[c].replica == k
      && 0 < rep.taken <= |log|
      && log[rep.taken - 1].Envelope? && log[rep.taken - 1].user == sessions[c].user
      && sessions[c].since < rep.taken == Reach(sessions[c], rep)
  }

  ghost predicate ReplicaOk(k: nat, rep: Replica, log: seq<Payload>, sessions: map<Conn, Session>) {
    && rep.taken <= |log| && ListsLive(k, rep.conns, sessions) && WritingOk(k, rep, log, sessions)
    && (!rep.up ==> rep.conns == map[] && rep.writing == {})
  }

  /** What a connection has received, together with what is in flight to it, is its user's share of the
      channel; a broken one is short by some suffix. */
  ghost predicate SessionOk(c: Conn, ses: Session, rep: Replica, log: seq<Payload>) {
    && rep.taken <= |log|
    && ses.since <= Reach(ses, rep) <= rep.taken
    && var due := Notes(log, ses.since, Reach(ses, rep), ses.user);
       && (ses.intact ==> ses.received + InFlight(log, rep, c) == due)
       && ses.received <= due
  }

  ghost predicate SystemOk(s: System) {
    && (forall k {:trigger s.replicas[k]} | 0 <= k < |s.replicas| :: ReplicaOk(k, s.replicas[k], s.log, s.sessions))
    && (forall c {:trigger s.sessions[c]} | c in s.sessions ::
          s.sessions[c].replica < |s.replicas| && SessionOk(c, s.sessions[c], s.replicas[s.sessions[c].replica], s.log))
  }

  lemma SessionFrame(c: Conn, ses: Session, rep: Replica, rep': Replica, log: seq<Payload>)
    requires SessionOk(c, ses, rep, log) && rep'.taken == rep.taken && (c in rep'.writing <==> c in rep.writing)
    ensures SessionOk(c, ses, rep', log)
  {
    assert InFlight(log, rep', c) == InFlight(log, rep, c);
  }

  lemma SessionEnds(c: Conn, ses: Session, rep: Replica, log: seq<Payload>)
    requires SessionOk(c, ses, rep, log) && ses.ended.None?
    ensures SessionOk(c, ses.(ended := Some(rep.taken)), rep, log)
  {
  }

  lemma SessionWritten(c: Conn, ses: Session, rep: Replica, log: seq<Payload>)
    requires SessionOk(c, ses, rep, log) && c in rep.writing && rep.taken > 0 && log[rep.taken - 1].Envelope?
    ensures SessionOk(c, AfterWrite(ses, log[rep.taken - 1]), rep.(writing := rep.writing - {c}), log)
  {
    var due := Notes(log, ses.since, Reach(ses, rep), ses.user);
    assert ses.intact ==> AfterWrite(ses, log[rep.taken - 1]).received == ses.received + InFlight(log, rep, c);
  }

  /** The new snapshot holds a connection exactly when the message belongs to its share. */
  lemma SessionTaken(c: Conn, ses: Session, rep: Replica, log: seq<Payload>)
    requires SessionOk(c, ses, rep, log) && rep.writing == {} && rep.taken < |log|
    requires c in Recipients(rep, log[rep.taken]) <==>
               ses.ended.None? && log[rep.taken].Envelope? && log[rep.taken].user == ses.user
    ensures SessionOk(c, ses, AfterTake(rep, log[rep.taken]), log)
  {
    var rep' := AfterTake(rep, log[rep.taken]);
    assert InFlight(log, rep, c) == [];
    if ses.ended.None? {
      assert InFlight(log, rep', c) == For(log[rep.taken], ses.user);
      assert Notes(log, ses.since, rep'.taken, ses.user) ==
             Notes(log, ses.since, rep.taken, ses.user) + For(log[rep.taken], ses.user);
    } else {
      assert InFlight(log, rep', c) == [];
    }
  }

  lemma PublishKeeps(s: System, p: Payload)
    requires SystemOk(s)
    ensures SystemOk(After(s, Publish(p)))
  {
    var t := After(s, Publish(p));
    forall k | 0 <= k < |t.replicas|
      ensures ReplicaOk(k, t.replicas[k], t.log, t.sessions)
    {
      assert ReplicaOk(k, s.replicas[k], s.log, s.sessions);
    }
    forall c | c in t.sessions
      ensures t.sessions[c].replica < |t.replicas| && SessionOk(c, t.sessions[c], t.replicas[t.sessions[c].replica], t.log)
    {
      var ses := s.sessions[c];
      var rep := s.replicas[ses.replica];
      assert SessionOk(c, ses, rep, s.log);
      NotesPublish(s.log, p, ses.since, Reach(ses, rep), ses.user);
    }
  }

  lemma JoinKeeps(s: System)
    requires SystemOk(s)
    ensures SystemOk(After(s, Join))
  {
    var t := After(s, Join);
    forall k | 0 <= k < |t.replicas|
      ensures ReplicaOk(k, t.replicas[k], t.log, t.sessions)
    {
      if k < |s.replicas| {
        assert ReplicaOk(k, s.replicas[k], s.log, s.sessions);
      } else {
        forall c | c in s.sessions
          ensures s.sessions[c].replica != k
        {
        }
      }
    }
    forall c | c in t.sessions
      ensures t.sessions[c].replica < |t.replicas| && SessionOk(c, t.sessions[c], t.replicas[t.sessions[c].replica], t.log)
    {
      assert SessionOk(c, s.sessions[c], s.replicas[s.sessions[c].replica], s.log);
    }
  }

  lemma StopReplica(k: nat, r: nat, s: System)
    requires SystemOk(s) && Enabled(s, Stop(r)) && k < |s.replicas|
    ensures var t := After(s, Stop(r)); ReplicaOk(k, t.replicas[k], t.log, t.sessions)
  {
    var rep, sessions := s.replicas[k], AfterStops(s.sessions, r, s.replicas[r]);
    assert ReplicaOk(k, rep, s.log, s.sessions);
    if k != r {
      assert WritingOk(k, rep, s.log, sessions);
      assert ListsLive(k, rep.conns, sessions);
    }
  }

  lemma SessionStopped(c: Conn, ses: Session, rep: Replica, log: seq<Payload>)
    requires SessionOk(c, ses, rep, log)
    ensures SessionOk(c, Stopped(c, ses, rep), AfterStop(rep), log)
  {
    assert c !in rep.writing ==> InFlight(log, rep, c) == [];
    assert InFlight(log, AfterStop(rep), c) == [];
  }

  lemma StopKeeps(s: System, r: nat)
    requires SystemOk(s) && Enabled(s, Stop(r))
    ensures SystemOk(After(s, Stop(r)))
  {
    var t := After(s, Stop(r));
    forall k | 0 <= k < |t.replicas|
      ensures ReplicaOk(k, t.replicas[k], t.log, t.sessions)
    {
      StopReplica(k, r, s);
    }
    forall c | c in t.sessions
      ensures t.sessions[c].replica < |t.replicas| && SessionOk(c, t.sessions[c], t.replicas[t.sessions[c].replica], t.log)
    {
      var rep := s.replicas[s.sessions[c].replica];
      assert SessionOk(c, s.sessions[c], rep, s.log);
      SessionStopped(c, s.sessions[c], rep, s.log);
    }
  }

  lemma ListsOneMore(k: nat, conns: map<Id, set<Conn>>, sessions: map<Conn, Session>, c: Conn, ses: Session)
    requires ListsLive(k, conns, sessions) && c !in sessions && ses.ended.None?
    ensures ListsLive(k, if ses.replica == k then Registered(conns, ses.user, c) else conns, sessions[c := ses])
  {
    var conns' := if ses.replica == k then Registered(conns, ses.user, c) else conns;
    forall u, d
      ensures d in Holding(conns', u) <==>
              d in sessions[c := ses] && sessions[c := ses][d].ended.None? && sessions[c := ses][d].replica == k
              && sessions[c := ses][d].user == u
    {
      TableChanges(conns, ses.user, c, u);
      assert d in Holding(conns, u) ==> d in sessions;
    }
  }

  lemma ListsOneLess(k: nat, conns: map<Id, set<Conn>>, sessions: map<Conn, Session>, c: Conn, ses: Session)
    requires ListsLive(k, conns, sessions) && c in sessions && ses.ended.Some?
    requires sessions[c].ended.None? && sessions[c].replica == ses.replica && sessions[c].user == ses.user
    ensures ListsLive(k, if ses.replica == k then Unregistered(conns, ses.user, c) else conns, sessions[c := ses])
  {
    var conns' := if ses.replica == k then Unregistered(conns, ses.user, c) else conns;
    forall u, d
      ensures d in Holding(conns', u) <==>
              d in sessions[c := ses] && sessions[c := ses][d].ended.None? && sessions[c := ses][d].replica == k
              && sessions[c := ses][d].user == u
    {
      TableChanges(conns, ses.user, c, u);
      assert d in Holding(conns, u) ==> d in sessions;
    }
  }

  lemma RegisterReplica(k: nat, r: nat, s: System, user: Id, c: Conn)
    requires SystemOk(s) && Enabled(s, Register(r, user, c)) && k < |s.replicas|
    ensures var t := After(s, Register(r, user, c)); ReplicaOk(k, t.replicas[k], t.log, t.sessions)
  {
    assert ReplicaOk(k, s.replicas[k], s.log, s.sessions);
    ListsOneMore(k, s.replicas[k].conns, s.sessions, c, Session(r, user, s.replicas[r].taken, None, true, []));
  }

  lemma RegisterKeeps(s: System, r: nat, user: Id, c: Conn)
    requires SystemOk(s) && Enabled(s, Register(r, user, c))
    ensures SystemOk(After(s, Register(r, user, c)))
  {
    var t := After(s, Register(r, user, c));
    forall k | 0 <= k < |t.replicas|
      ensures ReplicaOk(k, t.replicas[k], t.log, t.sessions)
    {
      RegisterReplica(k, r, s, user, c);
    }
    forall d | d in t.sessions
      ensures t.sessions[d].replica < |t.replicas| && SessionOk(d, t.sessions[d], t.replicas[t.sessions[d].replica], t.log)
    {
      assert ReplicaOk(r, s.replicas[r], s.log, s.sessions);
      if d != c {
        assert SessionOk(d, s.sessions[d], s.replicas[s.sessions[d].replica], s.log);
      }
    }
  }

  lemma UnregisterReplica(k: nat, s: System, c: Conn)
    requires SystemOk(s) && Enabled(s, Unregister(c)) && k < |s.replicas|
    ensures var t := After(s, Unregister(c)); ReplicaOk(k, t.replicas[k], t.log, t.sessions)
  {
    var ses := s.sessions[c].(ended := Some(s.replicas[s.sessions[c].replica].taken));
    var rep, rep' := s.replicas[k], After(s, Unregister(c)).replicas[k];
    assert ReplicaOk(k, rep, s.log, s.sessions);
    ListsOneLess(k, rep.conns, s.sessions, c, ses);
    WritingAfterEnd(k, rep, rep', s.log, s.sessions, c, ses);
  }

  lemma WritingAfterEnd(k: nat, rep: Replica, rep': Replica, log: seq<Payload>, sessions: map<Conn, Session>, c: Conn, ses: Session)
    requires WritingOk(k, rep, log, sessions) && rep'.writing == rep.writing && rep'.taken == rep.taken
    requires c in sessions && ses.replica == sessions[c].replica && ses.user == sessions[c].user && ses.since == sessions[c].since
    requires ses.replica == k ==> Reach(ses, rep) == Reach(sessions[c], rep)
    ensures WritingOk(k, rep', log, sessions[c := ses])
  {
  }

  lemma UnregisterKeeps(s: System, c: Conn)
    requires SystemOk(s) && Enabled(s, Unregister(c))
    ensures SystemOk(After(s, Unregister(c)))
  {
    var t := After(s, Unregister(c));
    forall k | 0 <= k < |t.replicas|
      ensures ReplicaOk(k, t.replicas[k], t.log, t.sessions)
    {
      UnregisterReplica(k, s, c);
    }
    forall d | d in t.sessions
      ensures t.sessions[d].replica < |t.replicas| && SessionOk(d, t.sessions[d], t.replicas[t.sessions[d].replica], t.log)
    {
      var rep := s.replicas[s.sessions[d].replica];
      if d == c { SessionEnds(c, s.sessions[c], rep, s.log); }
      SessionFrame(d, t.sessions[d], rep, t.replicas[s.sessions[d].replica], s.log);
    }
  }

  lemma BreakKeeps(s: System, c: Conn)
    requires SystemOk(s) && Enabled(s, Break(c))
    ensures SystemOk(After(s, Break(c)))
  {
    var t := After(s, Break(c));
    forall k | 0 <= k < |t.replicas|
      ensures ReplicaOk(k, t.replicas[k], t.log, t.sessions)
    {
      assert ReplicaOk(k, s.replicas[k], s.log, s.sessions);
    }
    forall d | d in t.sessions
      ensures t.sessions[d].replica < |t.replicas| && SessionOk(d, t.sessions[d], t.replicas[t.sessions[d].replica], t.log)
    {
      assert SessionOk(d, s.sessions[d], s.replicas[s.sessions[d].replica], s.log);
    }
  }

  lemma TakeKeeps(s: System, r: nat)
    requires SystemOk(s) && Enabled(s, Take(r))
    ensures SystemOk(After(s, Take(r)))
  {
    var t := After(s, Take(r));
    forall k | 0 <= k < |t.replicas|
      ensures ReplicaOk(k, t.replicas[k], t.log, t.sessions)
    {
      assert ReplicaOk(k, s.replicas[k], s.log, s.sessions);
      if k == r { TakeReplica(s, r); }
    }
    forall d | d in t.sessions
      ensures t.sessions[d].replica < |t.replicas| && SessionOk(d, t.sessions[d], t.replicas[t.sessions[d].replica], t.log)
    {
      assert SessionOk(d, s.sessions[d], s.replicas[s.sessions[d].replica], s.log);
      if s.sessions[d].replica == r { TakeSession(s, r, d); }
    }
  }

  lemma TakeReplica(s: System, r: nat)
    requires SystemOk(s) && Enabled(s, Take(r))
    ensures ReplicaOk(r, AfterTake(s.replicas[r], s.log[s.replicas[r].taken]), s.log, s.sessions)
  {
    var rep := s.replicas[r];
    var p := s.log[rep.taken];
    assert ReplicaOk(r, rep, s.log, s.sessions);
    forall c | c in Recipients(rep, p)
      ensures c in s.sessions && s.sessions[c].replica == r && s.sessions[c].ended.None?
      ensures p.Envelope? && p.user == s.sessions[c].user && s.sessions[c].since <= rep.taken
    {
      assert c in Holding(rep.conns, p.user);
      assert SessionOk(c, s.sessions[c], s.replicas[s.sessions[c].replica], s.log);
    }
  }

  lemma TakeSession(s: System, r: nat, d: Conn)
    requires SystemOk(s) && Enabled(s, Take(r)) && d in s.sessions && s.sessions[d].replica == r
    ensures SessionOk(d, s.sessions[d], AfterTake(s.replicas[r], s.log[s.replicas[r].taken]), s.log)
  {
    var rep, ses := s.replicas[r], s.sessions[d];
    var p := s.log[rep.taken];
    assert ReplicaOk(r, rep, s.log, s.sessions);
    if p.Envelope? {
      assert d in Holding(rep.conns, p.user) <==> ses.ended.None? && ses.user == p.user;
    }
    SessionTaken(d, ses, rep, s.log);
  }

  lemma WriteReplica(k: nat, s: System, r: nat, c: Conn)
    requires SystemOk(s) && Enabled(s, Write(r, c)) && k < |s.replicas|
    ensures var t := After(s, Write(r, c)); ReplicaOk(k, t.replicas[k], t.log, t.sessions)
  {
    assert ReplicaOk(k, s.replicas[k], s.log, s.sessions);
  }

  lemma WriteKeeps(s: System, r: nat, c: Conn)
    requires SystemOk(s) && Enabled(s, Write(r, c))
    ensures SystemOk(After(s, Write(r, c)))
  {
    var t := After(s, Write(r, c));
    forall k | 0 <= k < |t.replicas|
      ensures ReplicaOk(k, t.replicas[k], t.log, t.sessions)
    {
      WriteReplica(k, s, r, c);
    }
    forall d | d in t.sessions
      ensures t.sessions[d].replica < |t.replicas| && SessionOk(d, t.sessions[d], t.replicas[t.sessions[d].replica], t.log)
    {
      WriteSession(d, s, r, c);
    }
  }

  lemma WriteSession(d: Conn, s: System, r: nat, c: Conn)
    requires SystemOk(s) && Enabled(s, Write(r, c)) && d in s.sessions
    ensures var t := After(s, Write(r, c));
            && d in t.sessions && t.sessions[d].replica < |t.replicas|
            && SessionOk(d, t.sessions[d], t.replicas[t.sessions[d].replica], t.log)
  {
    var t, rep := After(s, Write(r, c)), s.replicas[s.sessions[d].replica];
    assert ReplicaOk(r, s.replicas[r], s.log, s.sessions);
    if d == c {
      SessionWritten(c, s.sessions[c], rep, s.log);
    } else {
      SessionFrame(d, s.sessions[d], rep, t.replicas[s.sessions[d].replica], s.log);
    }
  }

  lemma StepKeeps(s: System, e: Event)
    requires SystemOk(s) && Enabled(s, e)
    ensures SystemOk(After(s, e))
  {
    match e
    case Publish(p) => PublishKeeps(s, p);
    case Join => JoinKeeps(s);
    case Stop(r) => StopKeeps(s, r);
    case Register(r, user, c) => RegisterKeeps(s, r, user, c);
    case Unregister(c) => UnregisterKeeps(s, c);
    case Break(c) => BreakKeeps(s, c);
    case Take(r) => TakeKeeps(s, r);
    case Write(r, c) => WriteKeeps(s, r, c);
  }

  lemma {:induction false} RunKeeps(s: System, events: seq<Event>)
    requires SystemOk(s) && ValidRun(s, events)
    ensures SystemOk(Run(s, events))
    decreases |events|
  {
    if events != [] {
      StepKeeps(s, events[0]);
      RunKeeps(After(s, events[0]), events[1..]);
    }
  }

  // ---------- what a connection sees ----------

  /** Whatever the number of replicas and the interleaving, a working connection with nothing in flight has
      received exactly its user's notifications from the span in which it was registered: in publish order,
      once each. A broken one has received a prefix of them. */
  lemma ReceivesItsSpan(events: seq<Event>, c: Conn)
    requires ValidRun(START, events) && c in Run(START, events).sessions
    ensures var s := Run(START, events);
            var ses := s.sessions[c];
            && ses.replica < |s.replicas|
            && var rep := s.replicas[ses.replica];
            && Reach(ses, rep) <= |s.log|
            && var due := Notes(s.log, ses.since, Reach(ses, rep), ses.user);
            && ses.received <= due
            && (ses.intact && c !in rep.writing ==> ses.received == due)
            && (ses.intact ==> |due| <= |ses.received| + 1)
  {
    RunKeeps(START, events);
    var s := Run(START, events);
    assert SessionOk(c, s.sessions[c], s.replicas[s.sessions[c].replica], s.log);
  }

  ghost predicate Delivered(s: System, c: Conn) {
    && c in s.sessions && s.sessions[c].intact && s.sessions[c].replica < |s.replicas|
    && c !in s.replicas[s.sessions[c].replica].writing
  }

  /** Which replica holds a connection makes no difference: over the same span of the channel two of one
      user's connections receive the same, as they would from a single hub. */
  lemma ReplicaMakesNoDifference(events: seq<Event>, c: Conn, d: Conn)
    requires ValidRun(START, events)
    requires var s := Run(START, events); Delivered(s, c) && Delivered(s, d)
    requires var s := Run(START, events);
             var x, y := s.sessions[c], s.sessions[d];
             x.user == y.user && x.since == y.since && Reach(x, s.replicas[x.replica]) == Reach(y, s.replicas[y.replica])
    ensures Run(START, events).sessions[c].received == Run(START, events).sessions[d].received
  {
    ReceivesItsSpan(events, c);
    ReceivesItsSpan(events, d);
  }

  /** Once no replica has anything left to take or write, every live working connection has everything
      published for its user since it arrived. */
  lemma SettledDelivers(events: seq<Event>, c: Conn)
    requires ValidRun(START, events)
    requires var s := Run(START, events);
             && c in s.sessions && s.sessions[c].ended.None? && s.sessions[c].intact
             && (forall r: nat :: !Enabled(s, Take(r))) && (forall r: nat, d :: !Enabled(s, Write(r, d)))
    ensures var s := Run(START, events);
            && s.sessions[c].since <= |s.log|
            && s.sessions[c].received == Notes(s.log, s.sessions[c].since, |s.log|, s.sessions[c].user)
  {
    RunKeeps(START, events);
    NothingLeft(Run(START, events), c);
  }

  lemma NothingLeft(s: System, c: Conn)
    requires SystemOk(s) && c in s.sessions && s.sessions[c].ended.None? && s.sessions[c].intact
    requires (forall r: nat :: !Enabled(s, Take(r))) && (forall r: nat, d :: !Enabled(s, Write(r, d)))
    ensures s.sessions[c].since <= |s.log|
    ensures s.sessions[c].received == Notes(s.log, s.sessions[c].since, |s.log|, s.sessions[c].user)
  {
    var r := s.sessions[c].replica;
    var rep := s.replicas[r];
    assert SessionOk(c, s.sessions[c], rep, s.log);
    assert ReplicaOk(r, rep, s.log, s.sessions);
    assert c in Holding(rep.conns, s.sessions[c].user);
    forall d
      ensures d !in rep.writing
    {
      assert !Enabled(s, Write(r, d));
    }
    assert !Enabled(s, Take(r));
  }

  // ---------- when a replica stops ----------

  /** A connection whose replica stops has had everything the replica took for it, but for the one note that may
      be in flight; and it gets nothing any more, whatever happens next. */
  lemma StopCutsOff(before: seq<Event>, r: nat, after: seq<Event>, c: Conn)
    requires ValidRun(START, before) && Enabled(Run(START, before), Stop(r))
    requires ValidRun(After(Run(START, before), Stop(r)), after)
    requires var s := Run(START, before);
             c in s.sessions && s.sessions[c].replica == r && s.sessions[c].ended.None? && s.sessions[c].intact
    ensures var s, t := Run(START, before), Run(After(Run(START, before), Stop(r)), after);
            var ses, rep := s.sessions[c], s.replicas[r];
            && rep.taken <= |s.log|
            && c in t.sessions && t.sessions[c].ended == Some(rep.taken) && t.sessions[c].received == ses.received
            && ses.received + InFlight(s.log, rep, c) == Notes(s.log, ses.since, rep.taken, ses.user)
            && (ses.received == Notes(s.log, ses.since, rep.taken, ses.user) <==> c !in rep.writing)
  {
    RunKeeps(START, before);
    var s := Run(START, before);
    CutOff(s, r, c);
    StopKeeps(s, r);
    EndedStays(After(s, Stop(r)), after, c);
  }

  lemma CutOff(s: System, r: nat, c: Conn)
    requires SystemOk(s) && Enabled(s, Stop(r))
    requires c in s.sessions && s.sessions[c].replica == r && s.sessions[c].ended.None? && s.sessions[c].intact
    ensures var ses, rep, t := s.sessions[c], s.replicas[r], After(s, Stop(r));
            && rep.taken <= |s.log|
            && Ended(t, c) && t.sessions[c].ended == Some(rep.taken) && t.sessions[c].received == ses.received
            && ses.received + InFlight(s.log, rep, c) == Notes(s.log, ses.since, rep.taken, ses.user)
            && (ses.received == Notes(s.log, ses.since, rep.taken, ses.user) <==> c !in rep.writing)
  {
    var ses, rep := s.sessions[c], s.replicas[r];
    assert ReplicaOk(r, rep, s.log, s.sessions) && SessionOk(c, ses, rep, s.log);
    assert |ses.received + InFlight(s.log, rep, c)| == |ses.received| + |InFlight(s.log, rep, c)|;
    forall k | 0 <= k < |s.replicas| && k != r
      ensures c !in s.replicas[k].writing
    {
      assert ReplicaOk(k, s.replicas[k], s.log, s.sessions);
    }
  }

  ghost predicate Ended(s: System, c: Conn) {
    && c in s.sessions && s.sessions[c].ended.Some?
    && forall k | 0 <= k < |s.replicas| :: c !in s.replicas[k].writing
  }

  lemma EndedStep(s: System, e: Event, c: Conn)
    requires SystemOk(s) && Enabled(s, e) && Ended(s, c)
    ensures var t := After(s, e);
            Ended(t, c) && t.sessions[c].ended == s.sessions[c].ended && t.sessions[c].received == s.sessions[c].received
  {
    if e.Take? {
      assert ReplicaOk(e.r, s.replicas[e.r], s.log, s.sessions);
      var p := s.log[s.replicas[e.r].taken];
      assert p.Envelope? ==> c !in Holding(s.replicas[e.r].conns, p.user);
    }
  }

  lemma {:induction false} EndedStays(s: System, events: seq<Event>, c: Conn)
    requires SystemOk(s) && ValidRun(s, events) && Ended(s, c)
    ensures var t := Run(s, events);
            c in t.sessions && t.sessions[c].ended == s.sessions[c].ended && t.sessions[c].received == s.sessions[c].received
    decreases |events|
  {
    if events != [] {
      StepKeeps(s, events[0]);
      EndedStep(s, events[0], c);
      EndedStays(After(s, events[0]), events[1..], c);
    }
  }

  lemma {:induction false} NotesSplit(log: seq<Payload>, lo: nat, mid: nat, hi: nat, user: Id)
    requires lo <= mid <= hi <= |log|
    ensures Notes(log, lo, hi, user) == Notes(log, lo, mid, user) + Notes(log, mid, hi, user)
    decreases hi
  {
    if mid < hi { NotesSplit(log, lo, mid, hi - 1, user); }
  }

  /** A client that reconnects, to any replica, has in its two connections together all notifications since the first
      began, but for exactly those published between them. */
  lemma ReconnectMisses(events: seq<Event>, c: Conn, d: Conn)
    requires ValidRun(START, events)
    requires var s := Run(START, events); Delivered(s, c) && Delivered(s, d)
    requires var s := Run(START, events);
             s.sessions[c].user == s.sessions[d].user && s.sessions[c].ended.Some?
             && s.sessions[c].ended.value <= s.sessions[d].since
    ensures var s := Run(START, events);
            var x, y := s.sessions[c], s.sessions[d];
            && x.since <= x.ended.value <= y.since <= Reach(y, s.replicas[y.replica]) <= |s.log|
            && Notes(s.log, x.since, Reach(y, s.replicas[y.replica]), x.user) ==
               x.received + Notes(s.log, x.ended.value, y.since, x.user) + y.received
  {
    ReceivesItsSpan(events, c);
    ReceivesItsSpan(events, d);
    var s := Run(START, events);
    var x, y := s.sessions[c], s.sessions[d];
    var end := Reach(y, s.replicas[y.replica]);
    SpanOrder(events, c);
    SpanOrder(events, d);
    NotesSplit(s.log, x.since, x.ended.value, end, x.user);
    NotesSplit(s.log, x.ended.value, y.since, end, x.user);
  }

  lemma SpanOrder(events: seq<Event>, c: Conn)
    requires ValidRun(START, events) && c in Run(START, events).sessions
    ensures var s := Run(START, events);
            var ses := s.sessions[c];
            ses.replica < |s.replicas| && ses.since <= Reach(ses, s.replicas[ses.replica]) <= |s.log|
  {
    RunKeeps(START, events);
    var s := Run(START, events);
    assert SessionOk(c, s.sessions[c], s.replicas[s.sessions[c].replica], s.log);
  }

  // ---------- every replica catches up ----------

  /** Work left on replica `k`: messages to take, then sockets to write; none once it has stopped. */
  function Backlog(s: System, k: nat): (nat, nat)
    requires k < |s.replicas|
  {
    if !s.replicas[k].up then (0, 0) else
    (if s.replicas[k].taken < |s.log| then |s.log| - s.replicas[k].taken else 0, |s.replicas[k].writing|)
  }

  /** Each take or write makes its replica's backlog lexicographically smaller and leaves the others' alone. */
  lemma BacklogShrinks(s: System, e: Event, k: nat)
    requires Enabled(s, e) && (e.Take? || e.Write?) && k < |s.replicas|
    ensures var before, after := Backlog(s, k), Backlog(After(s, e), k);
            if k == e.r then after.0 < before.0 || (after.0 == before.0 && after.1 < before.1) else after == before
  {
  }

  /** And a replica that has any backlog can always take or write, so it never stops short. */
  lemma BacklogCanMove(s: System, k: nat) returns (e: Event)
    requires SystemOk(s) && k < |s.replicas| && Backlog(s, k) != (0, 0)
    ensures Enabled(s, e) && (e.Take? || e.Write?) && e.r == k
  {
    var rep := s.replicas[k];
    assert ReplicaOk(k, rep, s.log, s.sessions);
    if rep.writing == {} { return Take(k); }
    var c :| c in rep.writing;
    return Write(k, c);
  }
}
