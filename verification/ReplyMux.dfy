/** The reply multiplexer and the machine-lifecycle calls that wait on it (reply_mux.go, machine_lifecycle.go). */
module ReplyMux {
  import opened Options

  type RequestId = string
  type Chan = nat
  type Caller = nat
  type Dispatcher = nat

  // ---------- The protocol, for any number of callers and dispatchers ----------

  datatype Result = Reply(data: string) | TimedOut | EnqueueFailed

  datatype Pc = Ready | Registered(ch: Chan) | Enqueued(ch: Chan) | Returned(result: Result)

  /** A dispatch between its lookup of the waiter and its non-blocking send. */
  datatype Sending = Sending(id: RequestId, ch: Chan, data: string)

  type Log = seq<(RequestId, string)>

  /**
   * `buffers` holds the content of each channel (of capacity one). `sent` records the sends carried out, in order, and
   * `lost` the dispatches whose lookup found no waiter.
   */
  datatype State = State(
    waiters: map<RequestId, Chan>,
    buffers: map<Chan, Option<string>>,
    next: Chan,
    pcs: map<Caller, Pc>,
    sends: map<Dispatcher, Sending>,
    sent: Log,
    lost: Log)

  const START := State(map[], map[], 0, map[], map[], [], [])

  datatype Event =
    | DoRegister(c: Caller)
    | DoEnqueue(c: Caller, ok: bool)
    | DoLookup(d: Dispatcher, id: RequestId, data: string)
    | DoSend(d: Dispatcher)
    | DoReceive(c: Caller)
    | DoTimeout(c: Caller)

  function Where(pcs: map<Caller, Pc>, c: Caller): Pc {
    if c in pcs then pcs[c] else Ready
  }

  function PcOf(s: State, c: Caller): Pc {
    Where(s.pcs, c)
  }

  predicate InFlight(pc: Pc) {
    pc.Registered? || pc.Enqueued?
  }

  function Register(s: State, c: Caller, id: RequestId): State {
    s.(waiters := s.waiters[id := s.next], buffers := s.buffers[s.next := None], next := s.next + 1,
       pcs := s.pcs[c := Registered(s.next)])
  }

  /** The caller returns and its deferred RemoveWaiter runs. */
  function Return(s: State, c: Caller, id: RequestId, result: Result): State {
    s.(pcs := s.pcs[c := Returned(result)], waiters := s.waiters - {id})
  }

  function Lookup(s: State, d: Dispatcher, id: RequestId, data: string): State {
    if id in s.waiters then s.(sends := s.sends[d := Sending(id, s.waiters[id], data)])
    else s.(lost := s.lost + [(id, data)])
  }

  /** The send never blocks: into a full channel the datum is dropped. */
  function Offered(buffers: map<Chan, Option<string>>, ch: Chan, data: string): map<Chan, Option<string>> {
    if ch in buffers && buffers[ch].None? then buffers[ch := Some(data)] else buffers
  }

  function Send(s: State, d: Dispatcher): State
    requires d in s.sends
  {
    var m := s.sends[d];
    s.(sends := s.sends - {d}, sent := s.sent + [(m.id, m.data)], buffers := Offered(s.buffers, m.ch, m.data))
  }

  /** One atomic step; `idOf` gives each caller's request id. An event that does not fit changes nothing. */
  function Step(s: State, idOf: Caller -> RequestId, e: Event): State {
    match e
    case DoRegister(c) => if PcOf(s, c).Ready? then Register(s, c, idOf(c)) else s
    case DoEnqueue(c, ok) =>
      if !PcOf(s, c).Registered? then s
      else if ok then s.(pcs := s.pcs[c := Enqueued(PcOf(s, c).ch)])
      else Return(s, c, idOf(c), EnqueueFailed)
    case DoLookup(d, id, data) => if d in s.sends then s else Lookup(s, d, id, data)
    case DoSend(d) => if d in s.sends then Send(s, d) else s
    case DoReceive(c) =>
      var pc := PcOf(s, c);
      if pc.Enqueued? && pc.ch in s.buffers && s.buffers[pc.ch].Some?
      then Return(s.(buffers := s.buffers[pc.ch := None]), c, idOf(c), Reply(s.buffers[pc.ch].value))
      else s
    case DoTimeout(c) => if PcOf(s, c).Enqueued? then Return(s, c, idOf(c), TimedOut) else s
  }

  function After(idOf: Caller -> RequestId, events: seq<Event>): State {
    if events == [] then START else Step(After(idOf, events[..|events| - 1]), idOf, events[|events| - 1])
  }

  ghost predicate DistinctIds(idOf: Caller -> RequestId) {
    forall c, c' :: idOf(c) == idOf(c') ==> c == c'
  }

  /** The first datum sent for a request. */
  function FirstFor(log: Log, id: RequestId): Option<string> {
    if log == [] then None
    else
      var last := log[|log| - 1];
      var before := FirstFor(log[..|log| - 1], id);
      if before.None? && last.0 == id then Some(last.1) else before
  }

  lemma FirstForSnoc(log: Log, id: RequestId, data: string, id': RequestId)
    ensures FirstFor(log + [(id, data)], id') ==
            if FirstFor(log, id').None? && id == id' then Some(data) else FirstFor(log, id')
  {
    assert (log + [(id, data)])[..|log|] == log;
  }

  // ---------- The invariant; `home` names the caller that made each channel ----------

  ghost predicate ChannelsHomed(pcs: map<Caller, Pc>, home: map<Chan, Caller>, next: Chan) {
    && (forall c | c in pcs && InFlight(pcs[c]) :: pcs[c].ch in home && home[pcs[c].ch] == c)
    && (forall ch | ch in home :: ch < next && home[ch] in pcs)
    && (forall ch | ch in home && InFlight(pcs[home[ch]]) :: pcs[home[ch]].ch == ch)
    && (forall c | c in pcs :: !pcs[c].Ready?)
  }

  /** The waiter map holds exactly the callers in flight, each with its own channel. */
  ghost predicate WaitersExact(waiters: map<RequestId, Chan>, pcs: map<Caller, Pc>, home: map<Chan, Caller>,
                               idOf: Caller -> RequestId)
  {
    && (forall c | c in pcs && InFlight(pcs[c]) :: idOf(c) in waiters && waiters[idOf(c)] == pcs[c].ch)
    && (forall id | id in waiters :: waiters[id] in home)
    && (forall id | id in waiters ::
          idOf(home[waiters[id]]) == id && home[waiters[id]] in pcs && InFlight(pcs[home[waiters[id]]]))
  }

  ghost predicate SendsHomed(sends: map<Dispatcher, Sending>, home: map<Chan, Caller>, idOf: Caller -> RequestId) {
    forall d | d in sends :: sends[d].ch in home && idOf(home[sends[d].ch]) == sends[d].id
  }

  /** A waiting caller's channel holds the first datum sent for its request; a served caller returned that datum. */
  ghost predicate FirstKept(pcs: map<Caller, Pc>, buffers: map<Chan, Option<string>>, sent: Log,
                            idOf: Caller -> RequestId)
  {
    && (forall c | c in pcs && InFlight(pcs[c]) ::
          pcs[c].ch in buffers && buffers[pcs[c].ch] == FirstFor(sent, idOf(c)))
    && (forall c | c in pcs && pcs[c].Returned? && pcs[c].result.Reply? ::
          FirstFor(sent, idOf(c)) == Some(pcs[c].result.data))
    && (forall c | c !in pcs :: FirstFor(sent, idOf(c)) == None)
  }

  ghost predicate Inv(s: State, idOf: Caller -> RequestId, home: map<Chan, Caller>) {
    && ChannelsHomed(s.pcs, home, s.next) && WaitersExact(s.waiters, s.pcs, home, idOf)
    && SendsHomed(s.sends, home, idOf) && FirstKept(s.pcs, s.buffers, s.sent, idOf)
  }

  lemma RegisterHomes(pcs: map<Caller, Pc>, home: map<Chan, Caller>, next: Chan, c: Caller)
    requires ChannelsHomed(pcs, home, next) && c !in pcs
    ensures ChannelsHomed(pcs[c := Registered(next)], home[next := c], next + 1)
  {
  }

  lemma RegisterWaits(waiters: map<RequestId, Chan>, pcs: map<Caller, Pc>, home: map<Chan, Caller>,
                      idOf: Caller -> RequestId, c: Caller, ch: Chan)
    requires DistinctIds(idOf) && WaitersExact(waiters, pcs, home, idOf) && ch !in home && c !in pcs
    ensures WaitersExact(waiters[idOf(c) := ch], pcs[c := Registered(ch)], home[ch := c], idOf)
  {
    var pcs' := pcs[c := Registered(ch)];
    forall d | d in pcs' && InFlight(pcs'[d]) && d != c ensures idOf(d) != idOf(c) {
    }
  }

  lemma RegisterKeepsFirst(s: State, idOf: Caller -> RequestId, c: Caller, ch: Chan, home: map<Chan, Caller>)
    requires FirstKept(s.pcs, s.buffers, s.sent, idOf) && c !in s.pcs
    requires ChannelsHomed(s.pcs, home, s.next) && ch !in home
    ensures FirstKept(s.pcs[c := Registered(ch)], s.buffers[ch := None], s.sent, idOf)
  {
  }

  lemma FreshChannel(pcs: map<Caller, Pc>, home: map<Chan, Caller>, next: Chan)
    requires ChannelsHomed(pcs, home, next)
    ensures next !in home
  {
  }

  lemma RegisterSends(sends: map<Dispatcher, Sending>, home: map<Chan, Caller>, idOf: Caller -> RequestId, ch: Chan,
                      c: Caller)
    requires SendsHomed(sends, home, idOf) && ch !in home
    ensures SendsHomed(sends, home[ch := c], idOf)
  {
  }

  lemma RegisterKeeps(s: State, idOf: Caller -> RequestId, home: map<Chan, Caller>, c: Caller)
    requires DistinctIds(idOf) && Inv(s, idOf, home) && c !in s.pcs
    ensures Inv(Register(s, c, idOf(c)), idOf, home[s.next := c])
  {
    hide ChannelsHomed, WaitersExact, SendsHomed, FirstKept;
    FreshChannel(s.pcs, home, s.next);
    RegisterSends(s.sends, home, idOf, s.next, c);
    RegisterHomes(s.pcs, home, s.next, c);
    RegisterWaits(s.waiters, s.pcs, home, idOf, c, s.next);
    RegisterKeepsFirst(s, idOf, c, s.next, home);
  }

  /** A caller in flight moves on, keeping its channel or returning. */
  lemma MoveHomes(pcs: map<Caller, Pc>, home: map<Chan, Caller>, next: Chan, c: Caller, pc: Pc)
    requires ChannelsHomed(pcs, home, next) && c in pcs && InFlight(pcs[c])
    requires pc == Enqueued(pcs[c].ch) || pc.Returned?
    ensures ChannelsHomed(pcs[c := pc], home, next)
  {
  }

  lemma EnqueueKeeps(s: State, idOf: Caller -> RequestId, home: map<Chan, Caller>, c: Caller)
    requires Inv(s, idOf, home) && PcOf(s, c).Registered?
    ensures Inv(s.(pcs := s.pcs[c := Enqueued(PcOf(s, c).ch)]), idOf, home)
  {
    MoveHomes(s.pcs, home, s.next, c, Enqueued(s.pcs[c].ch));
    hide ChannelsHomed, SendsHomed;
  }

  lemma ReturnWaits(s: State, idOf: Caller -> RequestId, home: map<Chan, Caller>, c: Caller, pc: Pc)
    requires DistinctIds(idOf) && Inv(s, idOf, home) && InFlight(PcOf(s, c)) && pc.Returned?
    ensures WaitersExact(s.waiters - {idOf(c)}, s.pcs[c := pc], home, idOf)
  {
    hide FirstKept, SendsHomed;
    forall d | d in s.pcs && InFlight(s.pcs[d]) && d != c ensures idOf(d) != idOf(c) {
    }
  }

  lemma ReturnKeeps(s: State, idOf: Caller -> RequestId, home: map<Chan, Caller>, c: Caller, result: Result)
    requires DistinctIds(idOf) && Inv(s, idOf, home) && InFlight(PcOf(s, c))
    requires result.Reply? ==> PcOf(s, c).ch in s.buffers && s.buffers[PcOf(s, c).ch] == Some(result.data)
    ensures Inv(Return(s, c, idOf(c), result), idOf, home)
  {
    ReturnWaits(s, idOf, home, c, Returned(result));
    MoveHomes(s.pcs, home, s.next, c, Returned(result));
    hide ChannelsHomed, SendsHomed, WaitersExact;
  }

  lemma ReceiveKeeps(s: State, idOf: Caller -> RequestId, home: map<Chan, Caller>, c: Caller)
    requires DistinctIds(idOf) && Inv(s, idOf, home)
    ensures Inv(Step(s, idOf, DoReceive(c)), idOf, home)
  {
    var pc := PcOf(s, c);
    if pc.Enqueued? && pc.ch in s.buffers && s.buffers[pc.ch].Some? {
      ReturnKeeps(s, idOf, home, c, Reply(s.buffers[pc.ch].value));
      var s' := Return(s, c, idOf(c), Reply(s.buffers[pc.ch].value));
      DrainReturned(s', idOf, home, pc.ch, c);
      hide Inv;
    }
  }

  lemma DrainReturned(s: State, idOf: Caller -> RequestId, home: map<Chan, Caller>, ch: Chan, c: Caller)
    requires Inv(s, idOf, home) && ch in home && home[ch] == c && PcOf(s, c).Returned?
    ensures Inv(s.(buffers := s.buffers[ch := None]), idOf, home)
  {
    hide SendsHomed, WaitersExact;
  }

  lemma LookupKeeps(s: State, idOf: Caller -> RequestId, home: map<Chan, Caller>, d: Dispatcher, id: RequestId,
                    data: string)
    requires Inv(s, idOf, home)
    ensures Inv(Lookup(s, d, id, data), idOf, home)
  {
    hide ChannelsHomed, FirstKept;
  }

  lemma SendKeepsFirst(s: State, idOf: Caller -> RequestId, home: map<Chan, Caller>, d: Dispatcher)
    requires DistinctIds(idOf) && Inv(s, idOf, home) && d in s.sends
    ensures FirstKept(s.pcs, Send(s, d).buffers, Send(s, d).sent, idOf)
  {
    hide WaitersExact, FirstFor;
    var m := s.sends[d];
    var owner := home[m.ch];
    forall c ensures FirstFor(Send(s, d).sent, idOf(c)) ==
      if FirstFor(s.sent, idOf(c)).None? && c == owner then Some(m.data) else FirstFor(s.sent, idOf(c))
    {
      FirstForSnoc(s.sent, m.id, m.data, idOf(c));
    }
    assert owner in s.pcs;
  }

  lemma SendKeeps(s: State, idOf: Caller -> RequestId, home: map<Chan, Caller>, d: Dispatcher)
    requires DistinctIds(idOf) && Inv(s, idOf, home) && d in s.sends
    ensures Inv(Send(s, d), idOf, home)
  {
    SendKeepsFirst(s, idOf, home, d);
    hide ChannelsHomed, FirstKept, WaitersExact;
  }

  lemma StepKeeps(s: State, idOf: Caller -> RequestId, home: map<Chan, Caller>, e: Event)
    returns (home': map<Chan, Caller>)
    requires DistinctIds(idOf) && Inv(s, idOf, home)
    ensures Inv(Step(s, idOf, e), idOf, home')
  {
    NeverReady(s, idOf, home);
    hide Inv, DistinctIds;
    home' := home;
    match e {
      case DoRegister(c) =>
        if PcOf(s, c).Ready? {
          RegisterKeeps(s, idOf, home, c);
          home' := home[s.next := c];
        }
      case DoEnqueue(c, ok) =>
        if PcOf(s, c).Registered? {
          EnqueueKeeps(s, idOf, home, c);
          ReturnKeeps(s, idOf, home, c, EnqueueFailed);
        }
      case DoLookup(d, id, data) => LookupKeeps(s, idOf, home, d, id, data);
      case DoSend(d) => if d in s.sends { SendKeeps(s, idOf, home, d); }
      case DoReceive(c) => ReceiveKeeps(s, idOf, home, c);
      case DoTimeout(c) => if PcOf(s, c).Enqueued? { ReturnKeeps(s, idOf, home, c, TimedOut); }
    }
  }

  lemma NeverReady(s: State, idOf: Caller -> RequestId, home: map<Chan, Caller>)
    requires Inv(s, idOf, home)
    ensures forall c :: PcOf(s, c).Ready? <==> c !in s.pcs
  {
  }

  lemma {:induction false} AfterHolds(idOf: Caller -> RequestId, events: seq<Event>) returns (home: map<Chan, Caller>)
    requires DistinctIds(idOf)
    ensures Inv(After(idOf, events), idOf, home)
    decreases |events|
  {
    hide Inv, Step, DistinctIds;
    if events == [] {
      home := map[];
      StartHolds(idOf);
    } else {
      home := AfterHolds(idOf, events[..|events| - 1]);
      home := StepKeeps(After(idOf, events[..|events| - 1]), idOf, home, events[|events| - 1]);
    }
  }

  lemma StartHolds(idOf: Caller -> RequestId)
    ensures Inv(START, idOf, map[])
  {
  }

  // ---------- What every run guarantees ----------

  /**
   * With pairwise distinct request ids, in every run: a caller that returns a reply returns the first one sent for its
   * own request; and the waiter map holds exactly the requests of the callers in flight.
   */
  lemma OwnFirstReply(idOf: Caller -> RequestId, events: seq<Event>, c: Caller, id: RequestId)
    requires DistinctIds(idOf)
    ensures var s := After(idOf, events);
            && (PcOf(s, c).Returned? && PcOf(s, c).result.Reply?
                ==> FirstFor(s.sent, idOf(c)) == Some(PcOf(s, c).result.data))
            && (InFlight(PcOf(s, c)) ==> idOf(c) in s.waiters)
            && (id in s.waiters ==> exists d :: InFlight(PcOf(s, d)) && idOf(d) == id)
  {
    var home := AfterHolds(idOf, events);
    var s := After(idOf, events);
    hide After, FirstFor;
    if id in s.waiters {
      assert InFlight(PcOf(s, home[s.waiters[id]]));
    }
  }

  /** With its waiter in place and an empty channel, a reply goes through. */
  lemma ReplyGoesThrough(s: State, idOf: Caller -> RequestId, c: Caller, d: Dispatcher, data: string)
    requires PcOf(s, c).Enqueued? && d !in s.sends && idOf(c) in s.waiters && s.waiters[idOf(c)] == PcOf(s, c).ch
    requires PcOf(s, c).ch in s.buffers
    ensures var s1 := Step(s, idOf, DoLookup(d, idOf(c), data));
            && s1.lost == s.lost && d in s1.sends
            && (s.buffers[PcOf(s, c).ch].None? ==>
                  PcOf(Step(Step(s1, idOf, DoSend(d)), idOf, DoReceive(c)), c) == Returned(Reply(data)))
  {
    var s1 := Step(s, idOf, DoLookup(d, idOf(c), data));
    assert s1 == s.(sends := s.sends[d := Sending(idOf(c), PcOf(s, c).ch, data)]);
    var s2 := Step(s1, idOf, DoSend(d));
    assert s2.pcs == s.pcs && s2.buffers == Offered(s.buffers, PcOf(s, c).ch, data);
  }

  /**
   * Because a caller registers before it enqueues, a reply to an enqueued request always finds its waiter: the
   * lookup is never lost, and when nothing was sent for the request before, the send makes the caller's receive
   * return that datum.
   */
  lemma EnqueuedReplyArrives(idOf: Caller -> RequestId, events: seq<Event>, c: Caller, d: Dispatcher, data: string)
    requires DistinctIds(idOf)
    requires var s := After(idOf, events); PcOf(s, c).Enqueued? && d !in s.sends
    ensures var s := After(idOf, events);
            var s1 := Step(s, idOf, DoLookup(d, idOf(c), data));
            && s1.lost == s.lost && d in s1.sends
            && (FirstFor(s.sent, idOf(c)).None? ==>
                  PcOf(Step(Step(s1, idOf, DoSend(d)), idOf, DoReceive(c)), c) == Returned(Reply(data)))
  {
    var home := AfterHolds(idOf, events);
    hide After, FirstFor, Inv, DistinctIds, Step;
    WaitingCaller(After(idOf, events), idOf, home, c);
    ReplyGoesThrough(After(idOf, events), idOf, c, d, data);
  }

  lemma WaitingCaller(s: State, idOf: Caller -> RequestId, home: map<Chan, Caller>, c: Caller)
    requires Inv(s, idOf, home) && PcOf(s, c).Enqueued?
    ensures idOf(c) in s.waiters && s.waiters[idOf(c)] == PcOf(s, c).ch
    ensures PcOf(s, c).ch in s.buffers && s.buffers[PcOf(s, c).ch] == FirstFor(s.sent, idOf(c))
  {
    hide ChannelsHomed, SendsHomed, FirstFor;
  }

  lemma AfterSnoc(idOf: Caller -> RequestId, events: seq<Event>, e: Event)
    ensures After(idOf, events + [e]) == Step(After(idOf, events), idOf, e)
  {
    assert (events + [e])[..|events|] == events;
  }

  /** Caller a registers, then b; a gives up while b goes on to wait. */
  function SharedRun(a: Caller, b: Caller): seq<Event> {
    [] + [DoRegister(a)] + [DoRegister(b)] + [DoEnqueue(a, false)] + [DoEnqueue(b, true)]
  }

  /** Any two callers with one request id: when the first gives up, the second loses its waiter and its reply. */
  lemma SharedIdLosesReply(idOf: Caller -> RequestId, a: Caller, b: Caller, d: Dispatcher, data: string)
    requires a != b && idOf(a) == idOf(b)
    ensures var s := After(idOf, SharedRun(a, b));
            PcOf(s, b).Enqueued? && d !in s.sends && idOf(b) !in s.waiters
            && Step(s, idOf, DoLookup(d, idOf(b), data)).lost == [(idOf(b), data)]
  {
    hide After;
    var e1 := [] + [DoRegister(a)];
    var e2 := e1 + [DoRegister(b)];
    var e3 := e2 + [DoEnqueue(a, false)];
    NothingYet(idOf);
    AfterSnoc(idOf, [], DoRegister(a));
    AfterSnoc(idOf, e1, DoRegister(b));
    AfterSnoc(idOf, e2, DoEnqueue(a, false));
    AfterSnoc(idOf, e3, DoEnqueue(b, true));
  }

  /** In every run, the lookup of an enqueued caller's reply by a free dispatcher finds a waiter. */
  ghost predicate RepliesAlwaysFound(idOf: Caller -> RequestId) {
    forall events, c, d, data ::
      var s := After(idOf, events);
      PcOf(s, c).Enqueued? && d !in s.sends ==> Step(s, idOf, DoLookup(d, idOf(c), data)).lost == s.lost
  }

  /** Replies to enqueued requests are always found exactly when the request ids are pairwise distinct. */
  lemma RepliesFoundExactly(idOf: Caller -> RequestId)
    ensures RepliesAlwaysFound(idOf) <==> DistinctIds(idOf)
  {
    hide After, Step, SharedRun;
    if DistinctIds(idOf) {
      forall events, c, d, data | PcOf(After(idOf, events), c).Enqueued? && d !in After(idOf, events).sends
        ensures Step(After(idOf, events), idOf, DoLookup(d, idOf(c), data)).lost == After(idOf, events).lost
      {
        EnqueuedReplyArrives(idOf, events, c, d, data);
      }
    } else {
      var a, b :| idOf(a) == idOf(b) && a != b;
      SharedIdLosesReply(idOf, a, b, 0, "r");
      NothingLost(idOf, a, b);
      var s := After(idOf, SharedRun(a, b));
      assert Step(s, idOf, DoLookup(0, idOf(b), "r")).lost != s.lost;
    }
  }

  lemma NothingLost(idOf: Caller -> RequestId, a: Caller, b: Caller)
    requires a != b && idOf(a) == idOf(b)
    ensures After(idOf, SharedRun(a, b)).lost == []
  {
    hide After;
    var e1 := [] + [DoRegister(a)];
    var e2 := e1 + [DoRegister(b)];
    var e3 := e2 + [DoEnqueue(a, false)];
    NothingYet(idOf);
    AfterSnoc(idOf, [], DoRegister(a));
    AfterSnoc(idOf, e1, DoRegister(b));
    AfterSnoc(idOf, e2, DoEnqueue(a, false));
    AfterSnoc(idOf, e3, DoEnqueue(b, true));
  }

  lemma NothingYet(idOf: Caller -> RequestId)
    ensures After(idOf, []) == START
  {
  }

  // ---------- Reply channels ----------

  function ExtractId(channel: string, prefix: string): RequestId {
    if prefix <= channel then channel[|prefix|..] else ""
  }

  /** A request id is read back from its channel name, and only channels under the prefix yield one. */
  lemma ChannelNamesId(channel: string, prefix: string, id: RequestId)
    ensures id != "" ==> (ExtractId(channel, prefix) == id <==> channel == prefix + id)
  {
    if prefix <= channel {
      assert channel == prefix + channel[|prefix|..];
    }
  }

  // ---------- The multiplexer object and a lifecycle call ----------

  class Multiplexer {
    const prefix: string
    var waiters: map<RequestId, Chan>
    var buffers: map<Chan, Option<string>>
    var next: Chan

    constructor (prefix: string)
      ensures this.prefix == prefix && waiters == map[] && buffers == map[] && next == 0
    {
      this.prefix := prefix;
      waiters, buffers, next := map[], map[], 0;
    }

    method RegisterWaiter(id: RequestId) returns (ch: Chan)
      modifies this
      ensures ch == old(next) && next == old(next) + 1
      ensures waiters == old(waiters)[id := ch] && buffers == old(buffers)[ch := None]
    {
      ch := next;
      next := next + 1;
      buffers := buffers[ch := None];
      waiters := waiters[id := ch];
    }

    method RemoveWaiter(id: RequestId)
      modifies this`waiters
      ensures waiters == old(waiters) - {id}
    {
      waiters := waiters - {id};
    }

    /** The first half of Dispatch: the id's waiter, if there is one. */
    method Load(id: RequestId) returns (ch: Option<Chan>)
      ensures ch == if id in waiters then Some(waiters[id]) else None
    {
      if id in waiters {
        return Some(waiters[id]);
      }
      return None;
    }

    /** The second half: a send that never waits. */
    method Offer(ch: Chan, data: string)
      modifies this`buffers
      ensures buffers == Offered(old(buffers), ch, data)
    {
      if ch in buffers && buffers[ch].None? {
        buffers := buffers[ch := Some(data)];
      }
    }

    method Dispatch(id: RequestId, data: string)
      modifies this`buffers
      ensures buffers == if id in waiters then Offered(old(buffers), waiters[id], data) else old(buffers)
    {
      var ch := Load(id);
      if ch.None? {
        return;
      }
      Offer(ch.value, data);
    }

    /** What the waiter's channel holds, if anything, is taken out of it. */
    method Receive(ch: Chan) returns (data: Option<string>)
      modifies this`buffers
      ensures data == if ch in old(buffers) then old(buffers)[ch] else None
      ensures buffers == if data.Some? then old(buffers)[ch := None] else old(buffers)
    {
      data := if ch in buffers then buffers[ch] else None;
      if data.Some? {
        buffers := buffers[ch := None];
      }
    }

    /** A message on a channel under the prefix is dispatched to the request the channel names. */
    method OnMessage(channel: string, payload: string)
      modifies this`buffers
      ensures buffers == if ExtractId(channel, prefix) != "" && ExtractId(channel, prefix) in waiters
                         then Offered(old(buffers), waiters[ExtractId(channel, prefix)], payload) else old(buffers)
    {
      var id := ExtractId(channel, prefix);
      if id != "" {
        Dispatch(id, payload);
      }
    }
  }
}
