/** One process's table of live notification sockets, after backend/cmd/notify-svc/hub.go. */
module NotifyHub {
  import opened Schema

  datatype Note = Note(title: string, message: string)

  /** What travels on the shared channel: an envelope, or bytes that do not decode as one. */
  datatype Payload = Envelope(user: Id, note: Note) | Undecodable

  function For(p: Payload, user: Id): seq<Note> {
    if p.Envelope? && p.user == user then [p.note] else []
  }

  /** The notifications for `user` published at positions `lo` up to `hi`, in publish order. */
  function Notes(log: seq<Payload>, lo: nat, hi: nat, user: Id): seq<Note>
    requires hi <= |log|
    decreases hi
  {
    if hi <= lo then [] else Notes(log, lo, hi - 1, user) + For(log[hi - 1], user)
  }

  lemma NotesNext(had: seq<Note>, log: seq<Payload>, i: nat, user: Id)
    requires i < |log|
    ensures had + Notes(log, 0, i, user) + For(log[i], user) == had + Notes(log, 0, i + 1, user)
  {
  }

  lemma {:induction false} NotesPublish(log: seq<Payload>, p: Payload, lo: nat, hi: nat, user: Id)
    requires hi <= |log|
    ensures Notes(log + [p], lo, hi, user) == Notes(log, lo, hi, user)
    decreases hi
  {
    if lo < hi {
      NotesPublish(log, p, lo, hi - 1, user);
    }
  }

  // ---------- the table of connections ----------

  function Holding<C>(conns: map<Id, set<C>>, user: Id): set<C> {
    if user in conns then conns[user] else {}
  }

  /** No user keeps an empty set of connections. */
  ghost predicate Tidy<C(!new)>(conns: map<Id, set<C>>) {
    forall user | user in conns :: conns[user] != {}
  }

  function Registered<C(==)>(conns: map<Id, set<C>>, user: Id, c: C): map<Id, set<C>> {
    conns[user := Holding(conns, user) + {c}]
  }

  function Unregistered<C(==)>(conns: map<Id, set<C>>, user: Id, c: C): map<Id, set<C>> {
    var left := Holding(conns, user) - {c};
    if left == {} then conns - {user} else conns[user := left]
  }

  lemma TableChanges<C>(conns: map<Id, set<C>>, user: Id, c: C, v: Id)
    ensures Holding(Registered(conns, user, c), v) == if v == user then Holding(conns, v) + {c} else Holding(conns, v)
    ensures Holding(Unregistered(conns, user, c), v) == if v == user then Holding(conns, v) - {c} else Holding(conns, v)
  {
  }

  /** A tidy table is determined by who holds what. */
  lemma SameHoldings<C(!new)>(a: map<Id, set<C>>, b: map<Id, set<C>>)
    requires Tidy(a) && Tidy(b) && forall v :: Holding(a, v) == Holding(b, v)
    ensures a == b
  {
    forall v
      ensures v in a <==> v in b
      ensures v in a && v in b ==> a[v] == b[v]
    {
      assert Holding(a, v) == Holding(b, v);
    }
  }

  /** Leaving undoes arriving, to the last entry, exactly when the connection was not there before. */
  lemma UnregisterUndoesIff<C(!new)>(conns: map<Id, set<C>>, user: Id, c: C)
    requires Tidy(conns)
    ensures Unregistered(Registered(conns, user, c), user, c) == conns <==> c !in Holding(conns, user)
  {
    var back := Unregistered(Registered(conns, user, c), user, c);
    forall v
      ensures Holding(back, v) == if v == user then Holding(conns, v) - {c} else Holding(conns, v)
    {
      TableChanges(conns, user, c, v);
      TableChanges(Registered(conns, user, c), user, c, v);
      assert Holding(conns, user) + {c} - {c} == Holding(conns, user) - {c};
    }
    if c !in Holding(conns, user) {
      assert Holding(conns, user) - {c} == Holding(conns, user);
      SameHoldings(back, conns);
    }
  }

  // ---------- the hub ----------

  class Socket {
    const user: Id
    var received: seq<Note>
    var broken: bool

    constructor (user: Id)
      ensures this.user == user && received == [] && !broken
    {
      this.user := user;
      received := [];
      broken := false;
    }

    method Write(n: Note) returns (ok: bool)
      modifies this`received
      ensures ok == !broken
      ensures received == if ok then old(received) + [n] else old(received)
    {
      ok := !broken;
      if ok { received := received + [n]; }
    }
  }

  class Hub {
    var conns: map<Id, set<Socket>>
    ghost var held: set<Socket>

    /** Nobody is listed with an empty set, every socket is listed under its own user, and `held` is all of them. */
    ghost predicate Valid()
      reads this
    {
      && (forall user | user in conns :: conns[user] != {})
      && (forall user, c | user in conns && c in conns[user] :: c.user == user && c in held)
      && (forall c | c in held :: c.user in conns && c in conns[c.user])
    }

    constructor ()
      ensures Valid() && held == {}
    {
      conns := map[];
      held := {};
    }

    method Register(c: Socket)
      requires Valid()
      modifies this
      ensures Valid() && conns == Registered(old(conns), c.user, c)
      ensures held == old(held) + {c}
    {
      if c.user !in conns {
        conns := conns[c.user := {}];
      }
      conns := conns[c.user := conns[c.user] + {c}];
      held := held + {c};
    }

    method Unregister(c: Socket)
      requires Valid()
      modifies this
      ensures Valid() && conns == Unregistered(old(conns), c.user, c)
      ensures held == old(held) - {c}
    {
      if c.user in conns {
        conns := conns[c.user := conns[c.user] - {c}];
      }
      if c.user !in conns || conns[c.user] == {} {
        conns := conns - {c.user};
      }
      held := held - {c};
    }

    /** Writes the note to every socket held for the user when it starts, and to no other. */
    method DeliverLocal(user: Id, n: Note)
      requires Valid()
      modifies Holding(conns, user)`received
      ensures forall c | c in Holding(conns, user) ::
                c.received == if c.broken then old(c.received) else old(c.received) + [n]
    {
      var snapshot := Holding(conns, user);
      var todo := snapshot;
      while todo != {}
        invariant todo <= snapshot
        invariant forall c | c in todo :: c.received == old(c.received)
        invariant forall c | c in snapshot - todo ::
                    c.received == if c.broken then old(c.received) else old(c.received) + [n]
        decreases |todo|
      {
        var c :| c in todo;
        var ok := c.Write(n);
        todo := todo - {c};
      }
    }

    /** One message off the channel. */
    method Receive(p: Payload)
      requires Valid()
      modifies held`received
      ensures forall c | c in held ::
                c.received == if c.broken then old(c.received) else old(c.received) + For(p, c.user)
    {
      match p {
        case Envelope(user, n) =>
          assert forall c | c in held :: c in Holding(conns, user) <==> c.user == user;
          DeliverLocal(user, n);
        case Undecodable =>
      }
    }

    /** What the sockets had in `base`, and since then their users' part of the first `i` messages. */
    ghost predicate Heard(base: map<Socket, seq<Note>>, log: seq<Payload>, i: nat)
      requires i <= |log|
      reads this, held
    {
      && base.Keys == held
      && forall c | c in base ::
           c.received == if c.broken then base[c] else base[c] + Notes(log, 0, i, c.user)
    }

    method ReceiveNext(log: seq<Payload>, i: nat, ghost base: map<Socket, seq<Note>>)
      requires Valid() && i < |log| && Heard(base, log, i)
      modifies held`received
      ensures Valid() && Heard(base, log, i + 1)
    {
      ghost var before := map c | c in held :: c.received;
      Receive(log[i]);
      forall c | c in base
        ensures c.received == if c.broken then base[c] else base[c] + Notes(log, 0, i + 1, c.user)
      {
        assert before[c] == if c.broken then base[c] else base[c] + Notes(log, 0, i, c.user);
        NotesNext(base[c], log, i, c.user);
      }
    }

    /** Reading the channel to its end gives every working socket its user's notifications,
        in order and once each. */
    method SubscribeLoop(log: seq<Payload>)
      requires Valid()
      modifies held`received
      ensures forall c | c in held ::
                c.received == if c.broken then old(c.received) else old(c.received) + Notes(log, 0, |log|, c.user)
    {
      ghost var base := map c | c in held :: c.received;
      var i := 0;
      while i < |log|
        invariant 0 <= i <= |log|
        invariant Valid() && Heard(base, log, i)
      {
        ReceiveNext(log, i, base);
        i := i + 1;
      }
    }
  }
}
