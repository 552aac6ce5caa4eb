/** The topic index of the socket server (topic_manager.go, and its part of handleDisconnect in init.go). */
module Topics {

  type Conn = nat
  type Key = string
  type Index = map<Key, set<Conn>>

  function TopicKey(topic: string, resourceId: string): Key {
    if resourceId == "" then topic else topic + ":" + resourceId
  }

  /** The connections listed under a key. */
  function Listed(index: Index, key: Key): set<Conn> {
    if key in index then index[key] else {}
  }

  function Add(index: Index, key: Key, c: Conn): Index {
    index[key := Listed(index, key) + {c}]
  }

  /** The connection leaves the key, and an emptied key leaves the index. */
  function Remove(index: Index, key: Key, c: Conn): Index {
    if key !in index then index
    else if index[key] - {c} == {} then index - {key}
    else index[key := index[key] - {c}]
  }

  function RemoveEverywhere(index: Index, c: Conn): Index {
    map key | key in index && index[key] != {c} :: index[key] - {c}
  }

  // ---------- Keys ----------

  predicate ColonFree(topic: string) {
    ':' !in topic
  }

  /** The topic and the resource read back from a key. */
  function TopicOf(key: Key): string {
    if key == "" || key[0] == ':' then "" else [key[0]] + TopicOf(key[1..])
  }

  function ResourceOf(key: Key): string {
    if key == "" then "" else if key[0] == ':' then key[1..] else ResourceOf(key[1..])
  }

  lemma {:induction false} KeyReadsBack(topic: string, resourceId: string)
    requires ColonFree(topic)
    ensures TopicOf(TopicKey(topic, resourceId)) == topic && ResourceOf(TopicKey(topic, resourceId)) == resourceId
    decreases |topic|
  {
    var key := TopicKey(topic, resourceId);
    if topic == "" {
      assert resourceId != "" ==> key[0] == ':' && key[1..] == resourceId;
    } else {
      assert topic[0] in topic && ColonFree(topic[1..]);
      assert key[0] == topic[0] && key[1..] == TopicKey(topic[1..], resourceId);
      KeyReadsBack(topic[1..], resourceId);
    }
  }

  /** For colon-free topics, distinct (topic, resource) pairs have distinct keys. */
  lemma KeysDistinct(t: string, r: string, t': string, r': string)
    requires ColonFree(t) && ColonFree(t')
    ensures TopicKey(t, r) == TopicKey(t', r') <==> t == t' && r == r'
  {
    KeyReadsBack(t, r);
    KeyReadsBack(t', r');
  }

  /**
   * Two different topics share a key, for some resources, exactly when one of them followed by a colon is a prefix
   * of the other.
   */
  lemma TopicsCollideExactly(t: string, t': string)
    requires t != t'
    ensures (exists r, r' :: TopicKey(t, r) == TopicKey(t', r')) <==> t + ":" <= t' || t' + ":" <= t
  {
    if r, r' :| TopicKey(t, r) == TopicKey(t', r') {
      SharedKeyExtends(t, r, t', r');
    }
    if t + ":" <= t' {
      ExtensionShares(t, t');
    }
    if t' + ":" <= t {
      ExtensionShares(t', t);
    }
  }

  lemma SharedKeyExtends(t: string, r: string, t': string, r': string)
    requires t != t' && TopicKey(t, r) == TopicKey(t', r')
    ensures t + ":" <= t' || t' + ":" <= t
  {
    var key := TopicKey(t, r);
    assert key[..|t|] == t && key[..|t'|] == t';
    if |t| < |t'| {
      assert key[..|t| + 1] == t + ":";
      assert t'[..|t| + 1] == key[..|t| + 1];
    } else if |t'| < |t| {
      assert key[..|t'| + 1] == t' + ":";
      assert t[..|t'| + 1] == key[..|t'| + 1];
    }
  }

  lemma ExtensionShares(t: string, t': string)
    requires t + ":" <= t'
    ensures exists r, r' :: TopicKey(t, r) == TopicKey(t', r')
  {
    var rest := t'[|t| + 1..];
    assert t' == t + ":" + rest;
    if rest == "" {
      assert t' + ":" + "r" == t + ":" + ":r";
      assert TopicKey(t, ":r") == TopicKey(t', "r");
    } else {
      assert TopicKey(t, rest) == TopicKey(t', "");
    }
  }

  // ---------- Histories ----------

  datatype Event =
    | Connects(c: Conn)
    | Subscribes(c: Conn, topic: string, resourceId: string)
    | Unsubscribes(c: Conn, topic: string, resourceId: string)
    | WriteFails(c: Conn, topic: string, resourceId: string)  // a broadcast starts an asynchronous clean-up
    | CleansUp(c: Conn, topic: string, resourceId: string)    // ... which runs at any later time
    | Disconnects(c: Conn)

  /** `seen` are all connections so far, `live` those whose read loop runs, `pending` the clean-ups not yet run. */
  datatype Server = Server(index: Index, seen: set<Conn>, live: set<Conn>, pending: multiset<(Conn, Key)>)

  const START := Server(map[], {}, {}, multiset{})

  /** Only a running read loop subscribes, unsubscribes or disconnects; only listed connections are written to. */
  predicate Enabled(s: Server, e: Event) {
    match e
    case Connects(c) => c !in s.seen
    case Subscribes(c, _, _) => c in s.live
    case Unsubscribes(c, _, _) => c in s.live
    case WriteFails(c, t, r) => c in Listed(s.index, TopicKey(t, r))
    case CleansUp(c, t, r) => (c, TopicKey(t, r)) in s.pending
    case Disconnects(c) => c in s.live
  }

  function Step(s: Server, e: Event): Server {
    match e
    case Connects(c) => s.(seen := s.seen + {c}, live := s.live + {c})
    case Subscribes(c, t, r) => s.(index := Add(s.index, TopicKey(t, r), c))
    case Unsubscribes(c, t, r) => s.(index := Remove(s.index, TopicKey(t, r), c))
    case WriteFails(c, t, r) => s.(pending := s.pending + multiset{(c, TopicKey(t, r))})
    case CleansUp(c, t, r) =>
      s.(index := Remove(s.index, TopicKey(t, r), c), pending := s.pending - multiset{(c, TopicKey(t, r))})
    case Disconnects(c) => s.(index := RemoveEverywhere(s.index, c), live := s.live - {c})
  }

  function After(events: seq<Event>): Server {
    if events == [] then START else Step(After(events[..|events| - 1]), events[|events| - 1])
  }

  predicate Possible(events: seq<Event>) {
    events == [] || (Possible(events[..|events| - 1]) && Enabled(After(events[..|events| - 1]), events[|events| - 1]))
  }

  /** What the latest event about a connection and a key says; disconnecting concerns every key. */
  function Subscribed(events: seq<Event>, c: Conn, key: Key): bool {
    events != []
    && var e := events[|events| - 1];
       if e.Subscribes? && e.c == c && TopicKey(e.topic, e.resourceId) == key then true
       else if (e.Unsubscribes? || e.CleansUp?) && e.c == c && TopicKey(e.topic, e.resourceId) == key then false
       else if e.Disconnects? && e.c == c then false
       else Subscribed(events[..|events| - 1], c, key)
  }

  predicate NoEmptyKey(index: Index) {
    forall key | key in index :: index[key] != {}
  }

  lemma IndexSteps(index: Index, key: Key, c: Conn, key': Key, c': Conn)
    ensures c' in Listed(Add(index, key, c), key') <==> c' in Listed(index, key') || (c' == c && key' == key)
    ensures c' in Listed(Remove(index, key, c), key') <==> c' in Listed(index, key') && !(c' == c && key' == key)
    ensures c' in Listed(RemoveEverywhere(index, c), key') <==> c' in Listed(index, key') && c' != c
  {
  }

  lemma NoEmptyKeySteps(index: Index, key: Key, c: Conn)
    requires NoEmptyKey(index)
    ensures NoEmptyKey(Add(index, key, c)) && NoEmptyKey(Remove(index, key, c))
        && NoEmptyKey(RemoveEverywhere(index, c))
  {
  }

  lemma {:induction false} ListedExactly(events: seq<Event>, c: Conn, key: Key)
    ensures c in Listed(After(events).index, key) <==> Subscribed(events, c, key)
    decreases |events|
  {
    hide Listed, Add, Remove, RemoveEverywhere, TopicKey;
    if events == [] {
      assert Listed(map[], key) == {} by { NothingListed(key); }
    } else {
      var e := events[|events| - 1];
      ListedExactly(events[..|events| - 1], c, key);
      IndexSteps(After(events[..|events| - 1]).index, EventKey(e), e.c, key, c);
    }
  }

  lemma NothingListed(key: Key)
    ensures Listed(map[], key) == {}
  {
  }

  function EventKey(e: Event): Key {
    if e.Connects? || e.Disconnects? then "" else TopicKey(e.topic, e.resourceId)
  }

  lemma {:induction false} NobodyUnlisted(events: seq<Event>)
    ensures NoEmptyKey(After(events).index)
    decreases |events|
  {
    hide NoEmptyKey, Add, Remove, RemoveEverywhere, TopicKey;
    if events == [] {
      EmptyIndex();
    } else {
      var e := events[|events| - 1];
      NobodyUnlisted(events[..|events| - 1]);
      NoEmptyKeySteps(After(events[..|events| - 1]).index, EventKey(e), e.c);
    }
  }

  lemma EmptyIndex()
    ensures NoEmptyKey(map[])
  {
  }

  lemma {:induction false} ListedAreLive(events: seq<Event>, c: Conn, key: Key)
    requires Possible(events)
    ensures c in Listed(After(events).index, key) ==> c in After(events).live
    decreases |events|
  {
    hide Listed, Add, Remove, RemoveEverywhere, TopicKey;
    if events == [] {
      NothingListed(key);
    } else {
      var e := events[|events| - 1];
      ListedAreLive(events[..|events| - 1], c, key);
      IndexSteps(After(events[..|events| - 1]).index, EventKey(e), e.c, key, c);
    }
  }

  /**
   * The index refines the subscription relation: after any possible history a connection is listed under a key exactly
   * when its latest event for the key is a subscribe; no key is listed with nobody; and only live connections are.
   */
  lemma IndexRefines(events: seq<Event>, c: Conn, key: Key)
    requires Possible(events)
    ensures c in Listed(After(events).index, key) <==> Subscribed(events, c, key)
    ensures NoEmptyKey(After(events).index)
    ensures c in Listed(After(events).index, key) ==> c in After(events).live
  {
    ListedExactly(events, c, key);
    NobodyUnlisted(events);
    ListedAreLive(events, c, key);
  }

  /** What the connection itself asked for last: its latest subscribe, unsubscribe or disconnect. */
  function Wishes(events: seq<Event>, c: Conn, key: Key): bool {
    events != []
    && var e := events[|events| - 1];
       if OwnEvent(e, c, key) then e.Subscribes? else Wishes(events[..|events| - 1], c, key)
  }

  predicate OwnEvent(e: Event, c: Conn, key: Key) {
    e.c == c && (e.Disconnects? || ((e.Subscribes? || e.Unsubscribes?) && TopicKey(e.topic, e.resourceId) == key))
  }

  /** A clean-up of the connection and the key has run since the connection's latest own event. */
  function CleanedSince(events: seq<Event>, c: Conn, key: Key): bool {
    events != []
    && var e := events[|events| - 1];
       !OwnEvent(e, c, key)
       && ((e.CleansUp? && e.c == c && TopicKey(e.topic, e.resourceId) == key)
           || CleanedSince(events[..|events| - 1], c, key))
  }

  lemma {:induction false} SubscribedMeans(events: seq<Event>, c: Conn, key: Key)
    ensures Subscribed(events, c, key) <==> Wishes(events, c, key) && !CleanedSince(events, c, key)
    decreases |events|
  {
    hide TopicKey;
    if events != [] {
      SubscribedMeans(events[..|events| - 1], c, key);
    }
  }

  /** A connection is listed as it wishes, unless it wishes to be and a clean-up has run since it said so. */
  lemma ListedAsWishedExactly(events: seq<Event>, c: Conn, key: Key)
    ensures (c in Listed(After(events).index, key) <==> Wishes(events, c, key))
            <==> !(Wishes(events, c, key) && CleanedSince(events, c, key))
  {
    hide Listed, After;
    ListedExactly(events, c, key);
    SubscribedMeans(events, c, key);
  }

  lemma OneMore(events: seq<Event>, e: Event)
    ensures After(events + [e]) == Step(After(events), e)
    ensures Possible(events + [e]) <==> Possible(events) && Enabled(After(events), e)
  {
    assert (events + [e])[..|events|] == events;
  }

  /** A late clean-up removes a subscription made after the failed write. */
  lemma LateCleanupDropsResubscription(c: Conn, t: string, r: string)
    ensures var events := [] + [Connects(c)] + [Subscribes(c, t, r)] + [WriteFails(c, t, r)] + [Subscribes(c, t, r)]
                          + [CleansUp(c, t, r)];
            Possible(events) && c !in Listed(After(events).index, TopicKey(t, r)) && c in After(events).live
  {
    hide TopicKey, After, Possible;
    NothingPossible();
    var e1 := [] + [Connects(c)];
    var e2 := e1 + [Subscribes(c, t, r)];
    var e3 := e2 + [WriteFails(c, t, r)];
    var e4 := e3 + [Subscribes(c, t, r)];
    OneMore([], Connects(c));
    OneMore(e1, Subscribes(c, t, r));
    OneMore(e2, WriteFails(c, t, r));
    OneMore(e3, Subscribes(c, t, r));
    OneMore(e4, CleansUp(c, t, r));
  }

  lemma NothingPossible()
    ensures Possible([]) && After([]) == START
  {
  }
}
