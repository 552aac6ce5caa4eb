/** Terminal sessions per connection (terminal_handler.go, and their part of handleDisconnect in init.go). */
module Terminals {
  import opened Options

  type Conn = nat
  type Session = int

  /**
   * `terminals` maps a connection and a terminal id to a session; `serverOf` is each session's server id, `done` the
   * sessions that have ended, `closes` counts the calls of Close on each session; `live` are the connections whose read
   * loop runs, `seen` all connections so far.
   */
  datatype Server = Server(
    terminals: map<Conn, Sessions>,
    serverOf: map<Session, string>,
    done: set<Session>,
    closes: multiset<Session>,
    next: Session,
    seen: set<Conn>,
    live: set<Conn>)

  const START := Server(map[], map[], {}, multiset{}, 0, {}, {})

  type Sessions = map<string, Session>

  function SessionsOf(terminals: map<Conn, Sessions>, c: Conn): Sessions {
    if c in terminals then terminals[c] else map[]
  }

  /** The session a message may be written to: still running and of the server asked for. */
  predicate Usable(s: Server, t: Session, serverId: string) {
    t !in s.done && t in s.serverOf && s.serverOf[t] == serverId
  }

  function CloseSession(s: Server, c: Conn, id: string): Server
    requires id in SessionsOf(s.terminals, c)
  {
    var t := SessionsOf(s.terminals, c)[id];
    s.(closes := s.closes + multiset{t}, terminals := s.terminals[c := SessionsOf(s.terminals, c) - {id}])
  }

  /** createTerminal; `canCreate` says that the organization is known and the session starts. */
  function Create(s: Server, c: Conn, id: string, serverId: string, canCreate: bool): (Server, Option<Session>) {
    if !canCreate then (s, None)
    else (s.(terminals := s.terminals[c := SessionsOf(s.terminals, c)[id := s.next]],
             serverOf := s.serverOf[s.next := serverId],
             next := s.next + 1), Some(s.next))
  }

  function GetOrCreate(s: Server, c: Conn, id: string, serverId: string, canCreate: bool): (Server, Option<Session>) {
    var s1 := s.(terminals := s.terminals[c := SessionsOf(s.terminals, c)]);
    if id !in SessionsOf(s.terminals, c) then Create(s1, c, id, serverId, canCreate)
    else if Usable(s, SessionsOf(s.terminals, c)[id], serverId) then (s1, Some(SessionsOf(s.terminals, c)[id]))
    else Create(CloseSession(s1, c, id), c, id, serverId, canCreate)
  }

  /** The sessions of a connection are closed one by one, then the connection leaves the map. */
  function Disconnect(s: Server, c: Conn): Server {
    s.(closes := s.closes + multiset(SessionsOf(s.terminals, c).Values), terminals := s.terminals - {c},
       live := s.live - {c})
  }

  datatype Event =
    | Connects(c: Conn)
    | Message(c: Conn, id: string, serverId: string, canCreate: bool)
    | Ends(t: Session)
    | Disconnects(c: Conn)

  /** An event of a connection that is not (or no longer) served changes nothing. */
  function Step(s: Server, e: Event): Server {
    match e
    case Connects(c) => if c in s.seen then s else s.(seen := s.seen + {c}, live := s.live + {c})
    case Message(c, id, serverId, canCreate) => if c in s.live then GetOrCreate(s, c, id, serverId, canCreate).0 else s
    case Ends(t) => if t in s.serverOf then s.(done := s.done + {t}) else s
    case Disconnects(c) => if c in s.live then Disconnect(s, c) else s
  }

  function After(events: seq<Event>): Server {
    if events == [] then START else Step(After(events[..|events| - 1]), events[|events| - 1])
  }

  // ---------- Conservation ----------

  ghost predicate Registered(s: Server, t: Session) {
    exists c, id :: c in s.terminals && id in s.terminals[c] && s.terminals[c][id] == t
  }

  /** Where each session is; `at` names the registered ones' places. */
  ghost predicate PlacesAgree(terminals: map<Conn, Sessions>, at: map<Session, (Conn, string)>) {
    && (forall c, id | c in terminals && id in terminals[c] ::
          terminals[c][id] in at && at[terminals[c][id]] == (c, id))
    && (forall t | t in at :: at[t].0 in terminals && at[t].1 in terminals[at[t].0] && terminals[at[t].0][at[t].1] == t)
  }

  ghost predicate ClosesAgree(closes: multiset<Session>, created: set<Session>, at: map<Session, (Conn, string)>) {
    && (forall t :: closes[t] == if t in created && t !in at then 1 else 0)
    && (forall t | t in at :: t in created)
  }

  ghost predicate Inv(s: Server, at: map<Session, (Conn, string)>) {
    && PlacesAgree(s.terminals, at) && ClosesAgree(s.closes, s.serverOf.Keys, at)
    && (forall t | t in s.serverOf :: t < s.next) && s.done <= s.serverOf.Keys
    && (forall c | c in s.terminals :: c in s.live)
  }

  lemma EnterPlace(terminals: map<Conn, Sessions>, at: map<Session, (Conn, string)>, c: Conn, id: string, t: Session)
    requires PlacesAgree(terminals, at) && c in terminals && id !in terminals[c] && t !in at
    ensures PlacesAgree(terminals[c := terminals[c][id := t]], at[t := (c, id)])
  {
  }

  lemma LeavePlace(terminals: map<Conn, Sessions>, at: map<Session, (Conn, string)>, c: Conn, id: string)
    requires PlacesAgree(terminals, at) && c in terminals && id in terminals[c]
    ensures PlacesAgree(terminals[c := terminals[c] - {id}], at - {terminals[c][id]})
  {
  }

  lemma LeaveAll(terminals: map<Conn, Sessions>, at: map<Session, (Conn, string)>, c: Conn)
    requires PlacesAgree(terminals, at) && c in terminals
    ensures PlacesAgree(terminals - {c}, at - terminals[c].Values)
  {
    forall t | t in at ensures t in terminals[c].Values <==> at[t].0 == c {
      if t in terminals[c].Values {
        var id :| id in terminals[c] && terminals[c][id] == t;
      }
    }
  }

  lemma OpenPlace(terminals: map<Conn, Sessions>, at: map<Session, (Conn, string)>, c: Conn)
    requires PlacesAgree(terminals, at) && c !in terminals
    ensures PlacesAgree(terminals[c := map[]], at)
  {
  }

  lemma GetOrCreateKeeps(s: Server, at: map<Session, (Conn, string)>, c: Conn, id: string, serverId: string,
                         canCreate: bool)
    returns (at': map<Session, (Conn, string)>)
    requires Inv(s, at) && c in s.live
    ensures Inv(GetOrCreate(s, c, id, serverId, canCreate).0, at')
  {
    var s1 := s.(terminals := s.terminals[c := SessionsOf(s.terminals, c)]);
    if c !in s.terminals {
      OpenPlace(s.terminals, at, c);
    } else {
      assert s1.terminals == s.terminals;
    }
    hide PlacesAgree;
    at' := at;
    if id !in SessionsOf(s.terminals, c) {
      at' := CreateKeeps(s1, at, c, id, serverId, canCreate);
    } else if !Usable(s, SessionsOf(s.terminals, c)[id], serverId) {
      at' := CloseKeeps(s1, at, c, id);
      at' := CreateKeeps(CloseSession(s1, c, id), at', c, id, serverId, canCreate);
    }
  }

  lemma CreateKeeps(s: Server, at: map<Session, (Conn, string)>, c: Conn, id: string, serverId: string, canCreate: bool)
    returns (at': map<Session, (Conn, string)>)
    requires Inv(s, at) && c in s.terminals && id !in s.terminals[c]
    ensures Inv(Create(s, c, id, serverId, canCreate).0, at')
  {
    at' := at;
    if canCreate {
      at' := at[s.next := (c, id)];
      EnterPlace(s.terminals, at, c, id, s.next);
      hide PlacesAgree;
      assert s.closes[s.next] == 0;
    }
  }

  lemma CloseKeeps(s: Server, at: map<Session, (Conn, string)>, c: Conn, id: string)
    returns (at': map<Session, (Conn, string)>)
    requires Inv(s, at) && c in s.terminals && id in s.terminals[c]
    ensures Inv(CloseSession(s, c, id), at')
  {
    var t := s.terminals[c][id];
    at' := at - {t};
    assert t in at;
    LeavePlace(s.terminals, at, c, id);
    hide PlacesAgree;
  }

  lemma ValuesPlaced(terminals: map<Conn, Sessions>, at: map<Session, (Conn, string)>, c: Conn)
    requires PlacesAgree(terminals, at) && c in terminals
    ensures terminals[c].Values <= at.Keys
  {
    forall t | t in terminals[c].Values ensures t in at {
      var id :| id in terminals[c] && terminals[c][id] == t;
    }
  }

  lemma CloseAll(closes: multiset<Session>, created: set<Session>, at: map<Session, (Conn, string)>, gone: set<Session>)
    requires ClosesAgree(closes, created, at) && gone <= at.Keys
    ensures ClosesAgree(closes + multiset(gone), created, at - gone)
  {
    forall t ensures multiset(gone)[t] == if t in gone then 1 else 0 {
    }
  }

  lemma DisconnectKeeps(s: Server, at: map<Session, (Conn, string)>, c: Conn)
    returns (at': map<Session, (Conn, string)>)
    requires Inv(s, at) && c in s.live
    ensures Inv(Disconnect(s, c), at')
  {
    hide PlacesAgree, ClosesAgree;
    var gone := SessionsOf(s.terminals, c).Values;
    at' := at - gone;
    if c in s.terminals {
      ValuesPlaced(s.terminals, at, c);
      LeaveAll(s.terminals, at, c);
    } else {
      assert s.terminals - {c} == s.terminals && gone == {} && at' == at;
    }
    CloseAll(s.closes, s.serverOf.Keys, at, gone);
  }

  lemma {:induction false} AfterHolds(events: seq<Event>) returns (at: map<Session, (Conn, string)>)
    ensures Inv(After(events), at)
    decreases |events|
  {
    hide Inv, GetOrCreate, Disconnect;
    if events == [] {
      at := map[];
      assert Inv(START, at) by { StartHolds(); }
    } else {
      at := AfterHolds(events[..|events| - 1]);
      at := StepKeeps(After(events[..|events| - 1]), at, events[|events| - 1]);
    }
  }

  lemma StartHolds()
    ensures Inv(START, map[])
  {
  }

  lemma StepKeeps(s: Server, at: map<Session, (Conn, string)>, e: Event) returns (at': map<Session, (Conn, string)>)
    requires Inv(s, at)
    ensures Inv(Step(s, e), at')
  {
    hide PlacesAgree, ClosesAgree, GetOrCreate, Disconnect;
    at' := at;
    match e {
      case Message(c, id, serverId, canCreate) =>
        if c in s.live {
          at' := GetOrCreateKeeps(s, at, c, id, serverId, canCreate);
        }
      case Disconnects(c) =>
        if c in s.live {
          at' := DisconnectKeeps(s, at, c);
        }
      case _ =>
    }
  }

  /**
   * Sessions are conserved: after any history, every session ever created is either registered or has been closed
   * exactly once; it is registered in one place only; nothing else is ever closed; and no disconnected connection
   * has a session.
   */
  lemma SessionsConserved(events: seq<Event>, t: Session)
    ensures var s := After(events);
            && s.closes[t] == (if t in s.serverOf && !Registered(s, t) then 1 else 0)
            && (Registered(s, t) ==> t in s.serverOf)
            && (forall c | c in s.terminals :: c in s.live)
    ensures var s := After(events);
            forall c, id, c', id' |
              && c in s.terminals && id in s.terminals[c] && c' in s.terminals && id' in s.terminals[c']
              && s.terminals[c][id] == s.terminals[c'][id'] :: c == c' && id == id'
  {
    var at := AfterHolds(events);
    var s := After(events);
    hide After, Step;
    if t in at {
      assert at[t].0 in s.terminals && at[t].1 in s.terminals[at[t].0];
    }
    assert Registered(s, t) <==> t in at;
  }

  /**
   * The session a message is handed is registered for it, still running, and of the server it names; a session that
   * fits is kept.
   */
  lemma HandedSessionFits(events: seq<Event>, c: Conn, id: string, serverId: string, canCreate: bool)
    requires c in After(events).live
    ensures var (s', got) := GetOrCreate(After(events), c, id, serverId, canCreate);
            && (got.Some? ==>
                  && id in SessionsOf(s'.terminals, c) && SessionsOf(s'.terminals, c)[id] == got.value
                  && s'.serverOf[got.value] == serverId && s'.closes[got.value] == 0 && got.value !in s'.done)
            && (got.None? ==> id !in SessionsOf(s'.terminals, c) && !canCreate)
            && var s := After(events);
            && (id in SessionsOf(s.terminals, c) && Usable(s, SessionsOf(s.terminals, c)[id], serverId) ==>
                  got == Some(SessionsOf(s.terminals, c)[id]) && s'.closes == s.closes && s'.next == s.next)
  {
    var at := AfterHolds(events);
    var at' := GetOrCreateKeeps(After(events), at, c, id, serverId, canCreate);
    hide After;
  }
}
