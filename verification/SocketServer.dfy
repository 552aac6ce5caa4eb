/** The socket server object: its topic index and terminal sessions, changed in place (topic_manager.go, init.go). */
module SocketServer {
  import opened Options
  import Topics
  import Terminals

  type Conn = nat
  type Monitor = int

  /** The data of a subscribe or unsubscribe message; an object may lack a string resource_id. */
  datatype Data = NoData | Object(resourceId: Option<string>) | OtherData

  datatype Payload = Payload(topic: string, data: Data)

  /** What a connection is told about its own subscriptions. */
  datatype Answer = Subscribed(c: Conn, key: Topics.Key) | Unsubscribed(c: Conn, key: Topics.Key) | Refused(c: Conn)

  function MonitorOf(monitors: map<Conn, Monitor>, c: Conn): (mine: multiset<Monitor>)
    ensures |mine| == if c in monitors then 1 else 0
    ensures forall m | m in mine :: c in monitors && m == monitors[c]
  {
    if c in monitors then multiset{monitors[c]} else multiset{}
  }

  type Sessions = Terminals.Sessions

  ghost predicate AllDifferent(mine: Sessions) {
    forall id, id' | id in mine && id' in mine && id != id' :: mine[id] != mine[id']
  }

  ghost predicate Lists(order: seq<string>, mine: Sessions) {
    && (forall id :: id in mine <==> id in order)
    && (forall i, j | 0 <= i < j < |order| :: order[i] != order[j])
  }

  /** The sessions of the first k ids. */
  ghost predicate ClosedSoFar(mine: Sessions, order: seq<string>, k: nat, closed: set<Terminals.Session>)
    requires k <= |order|
  {
    (forall id | id in mine :: mine[id] in closed <==> id in order[..k]) && closed <= mine.Values
  }

  lemma NoneClosed(mine: Sessions, order: seq<string>)
    ensures ClosedSoFar(mine, order, 0, {})
  {
  }

  lemma OneMoreClosed(mine: Sessions, order: seq<string>, k: nat, closed: set<Terminals.Session>)
    requires Lists(order, mine) && AllDifferent(mine) && k < |order| && ClosedSoFar(mine, order, k, closed)
    ensures order[k] in mine && mine[order[k]] !in closed
    ensures ClosedSoFar(mine, order, k + 1, closed + {mine[order[k]]})
  {
    assert order[k] in order && order[k] !in order[..k];
    assert order[..k + 1] == order[..k] + [order[k]];
  }

  lemma AllClosed(mine: Sessions, order: seq<string>, closed: set<Terminals.Session>)
    requires Lists(order, mine) && ClosedSoFar(mine, order, |order|, closed)
    ensures closed == mine.Values
  {
    assert order[..|order|] == order;
  }

  class Server {
    var topics: Topics.Index
    var answers: seq<Answer>
    var terminals: map<Conn, Sessions>
    var serverOf: map<Terminals.Session, string>
    var done: set<Terminals.Session>
    var closes: multiset<Terminals.Session>
    var next: Terminals.Session
    var seen: set<Conn>
    var live: set<Conn>
    var orgIds: map<Conn, string>
    var dashboardMonitors: map<Conn, Monitor>
    var applicationMonitors: map<Conn, Monitor>
    var stopped: multiset<Monitor>
    var closed: set<Conn>

    function State(): Terminals.Server
      reads this`terminals, this`serverOf, this`done, this`closes, this`next, this`seen, this`live
    {
      Terminals.Server(terminals, serverOf, done, closes, next, seen, live)
    }

    constructor ()
      ensures topics == Topics.START.index && answers == [] && State() == Terminals.START
      ensures orgIds == map[] && dashboardMonitors == map[] && applicationMonitors == map[]
      ensures stopped == multiset{} && closed == {}
    {
      orgIds, dashboardMonitors, applicationMonitors, stopped, closed := map[], map[], map[], multiset{}, {};
      topics, answers, terminals, serverOf, done := map[], [], map[], map[], {};
      closes, next, seen, live := multiset{}, 0, {}, {};
    }

    method SubscribeToTopic(topic: string, resourceId: string, c: Conn)
      modifies this`topics, this`answers
      ensures topics == Topics.Add(old(topics), Topics.TopicKey(topic, resourceId), c)
      ensures answers == old(answers) + [Subscribed(c, Topics.TopicKey(topic, resourceId))]
    {
      var topicKey := if resourceId == "" then topic else topic + ":" + resourceId;
      if topicKey !in topics {
        topics := topics[topicKey := {}];
      }
      topics := topics[topicKey := topics[topicKey] + {c}];
      answers := answers + [Subscribed(c, topicKey)];
    }

    method UnsubscribeFromTopic(topic: string, resourceId: string, c: Conn)
      modifies this`topics, this`answers
      ensures topics == Topics.Remove(old(topics), Topics.TopicKey(topic, resourceId), c)
      ensures var key := Topics.TopicKey(topic, resourceId);
              answers == old(answers) + if key in old(topics) then [Unsubscribed(c, key)] else []
    {
      var topicKey := if resourceId == "" then topic else topic + ":" + resourceId;
      if topicKey in topics {
        topics := topics[topicKey := topics[topicKey] - {c}];
        if topics[topicKey] == {} {
          topics := topics - {topicKey};
        }
        answers := answers + [Unsubscribed(c, topicKey)];
      }
    }

    /** A malformed message is answered with an error and changes nothing. */
    method HandleSubscribe(c: Conn, msg: Payload) returns (ok: bool)
      modifies this`topics, this`answers
      ensures ok <==> msg.topic != "" && msg.data != NoData && msg.data != Object(None)
      ensures !ok ==> topics == old(topics) && answers == old(answers) + [Refused(c)]
      ensures ok ==>
        var key := Topics.TopicKey(msg.topic, if msg.data.Object? then msg.data.resourceId.value else "");
        && topics == Topics.Add(old(topics), key, c)
        && answers == old(answers) + [Subscribed(c, key)]
    {
      if msg.topic != "" && msg.data != NoData {
        var resourceId := "";
        if msg.data.Object? {
          if msg.data.resourceId.None? {
            answers := answers + [Refused(c)];
            return false;
          }
          resourceId := msg.data.resourceId.value;
        }
        SubscribeToTopic(msg.topic, resourceId, c);
        return true;
      }
      answers := answers + [Refused(c)];
      return false;
    }

    method HandleUnsubscribe(c: Conn, msg: Payload) returns (ok: bool)
      modifies this`topics, this`answers
      ensures ok <==> msg.topic != "" && msg.data != NoData && msg.data != Object(None)
      ensures !ok ==> topics == old(topics) && answers == old(answers) + [Refused(c)]
      ensures ok ==>
        var key := Topics.TopicKey(msg.topic, if msg.data.Object? then msg.data.resourceId.value else "");
        && topics == Topics.Remove(old(topics), key, c)
        && answers == old(answers) + if key in old(topics) then [Unsubscribed(c, key)] else []
    {
      if msg.topic != "" && msg.data != NoData {
        var resourceId := "";
        if msg.data.Object? {
          if msg.data.resourceId.None? {
            answers := answers + [Refused(c)];
            return false;
          }
          resourceId := msg.data.resourceId.value;
        }
        UnsubscribeFromTopic(msg.topic, resourceId, c);
        return true;
      }
      answers := answers + [Refused(c)];
      return false;
    }

    /**
     * A broadcast writes to each listed connection once, in the order the set is walked, and starts a clean-up for each
     * failed write; the index itself is only read.
     */
    method BroadcastToTopic(topic: string, resourceId: string, order: seq<Conn>, fails: set<Conn>)
      returns (written: seq<Conn>, cleanups: seq<Conn>)
      requires forall c :: c in Topics.Listed(topics, Topics.TopicKey(topic, resourceId)) <==> c in order
      requires forall i, j | 0 <= i < j < |order| :: order[i] != order[j]
      ensures written == order
      ensures forall c ::
        c in cleanups <==> c in Topics.Listed(topics, Topics.TopicKey(topic, resourceId)) && c in fails
    {
      written, cleanups := [], [];
      assert order != [] ==> order[0] in order;
      var topicKey := if resourceId == "" then topic else topic + ":" + resourceId;
      if topicKey in topics {
        for k := 0 to |order|
          invariant written == order[..k]
          invariant forall c :: c in cleanups <==> c in order[..k] && c in fails
        {
          written := written + [order[k]];
          if order[k] in fails {
            cleanups := cleanups + [order[k]];
          }
        }
        assert order[..|order|] == order;
      }
    }

    /** The topic part of handleDisconnect; `order` is the order in which the index is walked. */
    method LeaveTopics(c: Conn, order: seq<Topics.Key>)
      requires forall key :: key in topics <==> key in order
      modifies this`topics
      ensures topics == Topics.RemoveEverywhere(old(topics), c)
    {
      ghost var before := topics;
      var k := 0;
      while k < |order|
        invariant 0 <= k <= |order|
        invariant topics.Keys <= before.Keys
        invariant forall key | key in before && key !in order[..k] :: key in topics && topics[key] == before[key]
        invariant forall key | key in before && key in order[..k] ::
          (key in topics <==> before[key] != {c}) && (key in topics ==> topics[key] == before[key] - {c})
      {
        var key := order[k];
        assert order[..k + 1] == order[..k] + [key];
        if key in topics && c in topics[key] {
          topics := topics[key := topics[key] - {c}];
          if topics[key] == {} {
            topics := topics - {key};
          }
        }
        k := k + 1;
      }
      assert order[..k] == order;
    }

    /** Closes each of a connection's sessions, in the order the map is walked. */
    method CloseEach(mine: Sessions, order: seq<string>)
      requires Lists(order, mine) && AllDifferent(mine)
      modifies this`closes
      ensures closes == old(closes) + multiset(mine.Values)
    {
      hide Lists, AllDifferent, ClosedSoFar;
      ghost var closed: set<Terminals.Session> := {};
      NoneClosed(mine, order);
      var k := 0;
      while k < |order|
        invariant 0 <= k <= |order|
        invariant ClosedSoFar(mine, order, k, closed)
        invariant closes == old(closes) + multiset(closed)
      {
        OneMoreClosed(mine, order, k, closed);
        var t := mine[order[k]];
        assert multiset(closed + {t}) == multiset(closed) + multiset{t};
        closes := closes + multiset{t};
        closed := closed + {t};
        k := k + 1;
      }
      AllClosed(mine, order, closed);
    }

    /** The terminal part of handleDisconnect: every session of the connection is closed once. */
    method CloseTerminals(c: Conn, order: seq<string>)
      requires Lists(order, Terminals.SessionsOf(terminals, c)) && AllDifferent(Terminals.SessionsOf(terminals, c))
      modifies this`terminals, this`closes
      ensures terminals == old(terminals) - {c}
      ensures closes == old(closes) + multiset(Terminals.SessionsOf(old(terminals), c).Values)
    {
      hide Lists, AllDifferent;
      if c in terminals {
        CloseEach(terminals[c], order);
        terminals := terminals - {c};
      } else {
        assert terminals - {c} == terminals;
      }
    }

    /** The monitor part of handleDisconnect: each of the connection's monitors is stopped and forgotten. */
    method StopMonitors(c: Conn)
      modifies this`dashboardMonitors, this`applicationMonitors, this`stopped
      ensures dashboardMonitors == old(dashboardMonitors) - {c} && applicationMonitors == old(applicationMonitors) - {c}
      ensures stopped == old(stopped) + MonitorOf(old(dashboardMonitors), c) + MonitorOf(old(applicationMonitors), c)
    {
      assert c !in dashboardMonitors ==> dashboardMonitors - {c} == dashboardMonitors;
      assert c !in applicationMonitors ==> applicationMonitors - {c} == applicationMonitors;
      if c in dashboardMonitors {
        stopped := stopped + multiset{dashboardMonitors[c]};
        dashboardMonitors := dashboardMonitors - {c};
      }
      if c in applicationMonitors {
        stopped := stopped + multiset{applicationMonitors[c]};
        applicationMonitors := applicationMonitors - {c};
      }
    }

    /** The part of handleDisconnect that the two protocols see. */
    method LeaveProtocols(c: Conn, keys: seq<Topics.Key>, ids: seq<string>)
      requires forall key :: key in topics <==> key in keys
      requires Lists(ids, Terminals.SessionsOf(terminals, c)) && AllDifferent(Terminals.SessionsOf(terminals, c))
      modifies this`topics, this`terminals, this`closes, this`live, this`orgIds
      ensures orgIds == old(orgIds) - {c}
      ensures topics == Topics.RemoveEverywhere(old(topics), c)
      ensures State() == Terminals.Disconnect(old(State()), c)
    {
      hide Topics.RemoveEverywhere, Terminals.SessionsOf, Lists, AllDifferent;
      live := live - {c};
      orgIds := orgIds - {c};
      LeaveTopics(c, keys);
      CloseTerminals(c, ids);
    }

    /** The connection leaves every map, its sessions are closed, its monitors stopped, and it is closed itself. */
    method HandleDisconnect(c: Conn, keys: seq<Topics.Key>, ids: seq<string>)
      requires forall key :: key in topics <==> key in keys
      requires Lists(ids, Terminals.SessionsOf(terminals, c)) && AllDifferent(Terminals.SessionsOf(terminals, c))
      modifies this
      ensures topics == Topics.RemoveEverywhere(old(topics), c)
      ensures State() == Terminals.Disconnect(old(State()), c)
      ensures orgIds == old(orgIds) - {c}
      ensures dashboardMonitors == old(dashboardMonitors) - {c} && applicationMonitors == old(applicationMonitors) - {c}
      ensures stopped == old(stopped) + MonitorOf(old(dashboardMonitors), c) + MonitorOf(old(applicationMonitors), c)
      ensures closed == old(closed) + {c}
    {
      hide Topics.RemoveEverywhere, Terminals.Disconnect, MonitorOf, Terminals.SessionsOf, Lists, AllDifferent;
      LeaveProtocols(c, keys, ids);
      StopMonitors(c);
      closed := closed + {c};
    }

    /**
     * Needs an organization whose id is well formed: `isUuid` says which ids parse, and `starts` whether the terminal
     * starts.
     */
    method CreateTerminal(c: Conn, id: string, serverId: string, isUuid: string -> bool, starts: bool)
      returns (got: Option<Terminals.Session>)
      requires c in terminals
      modifies this`terminals, this`serverOf, this`next
      ensures got.Some? <==> c in orgIds && orgIds[c] != "" && isUuid(orgIds[c]) && starts
      ensures (State(), got) == Terminals.Create(old(State()), c, id, serverId, got.Some?)
    {
      if c !in orgIds {
        return None;
      }
      if orgIds[c] == "" {
        return None;
      }
      if !isUuid(orgIds[c]) {
        return None;
      }
      if !starts {
        return None;
      }
      var t := next;
      serverOf := serverOf[t := serverId];
      next := next + 1;
      terminals := terminals[c := terminals[c][id := t]];
      return Some(t);
    }

    method GetOrCreateTerminal(c: Conn, id: string, serverId: string, isUuid: string -> bool, starts: bool)
      returns (got: Option<Terminals.Session>)
      requires c in terminals ==> forall x | x in terminals[c] :: terminals[c][x] in serverOf
      modifies this`terminals, this`serverOf, this`next, this`closes
      ensures var able := c in orgIds && orgIds[c] != "" && isUuid(orgIds[c]) && starts;
              (State(), got) == Terminals.GetOrCreate(old(State()), c, id, serverId, able)
    {
      if c !in terminals {
        terminals := terminals[c := map[]];
      }
      assert State().terminals == old(State()).terminals[c := old(Terminals.SessionsOf(terminals, c))];
      if id in terminals[c] {
        var t := terminals[c][id];
        if t in done {
          closes := closes + multiset{t};
          terminals := terminals[c := terminals[c] - {id}];
        } else if serverOf[t] != serverId {
          closes := closes + multiset{t};
          terminals := terminals[c := terminals[c] - {id}];
        } else {
          return Some(t);
        }
      }
      got := CreateTerminal(c, id, serverId, isUuid, starts);
    }
  }
}
