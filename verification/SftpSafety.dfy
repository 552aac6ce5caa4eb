/** What holds of the SFTP pool after any run: the ledgers, the reference counts, and when users are safe. */
module SftpSafety {
  import opened Options
  import opened SftpPool

  lemma StartHolds()
    ensures Inv(START)
  {
  }

  /** The world after a run of any callers' steps, in any order. */
  ghost function Run(idleTimeout: int, events: seq<Event>): (w: World)
    ensures Inv(w)
    decreases |events|
  {
    if events == [] then StartHolds(); START
    else
      var before := Run(idleTimeout, events[..|events| - 1]);
      StepKeeps(before, idleTimeout, events[|events| - 1]);
      Step(before, idleTimeout, events[|events| - 1])
  }

  ghost predicate InPool(w: World, h: Handle) {
    exists key :: key in w.s.clients && w.s.clients[key] == h
  }

  ghost predicate InHand(w: World, h: Handle) {
    exists c :: c in w.pcs && Carried(w.pcs[c]) == Some(h)
  }

  lemma PlaceMeans(w: World, h: Handle)
    requires Inv(w)
    ensures InPool(w, h) <==> h in w.place && w.place[h].InMap?
    ensures InHand(w, h) <==> h in w.place && w.place[h].With?
  {
    hide EntriesPlaced, CallersKnow, ClosesMatch, EntryBorrows, CarriedBorrows, ReleasesMatch, CountsExact;
  }

  /**
   * Client ledger: after any run, every opened client is in the map, or in the hands of an opener not yet past
   * insertion, or closed, exactly once; and nothing else was ever closed.
   */
  lemma ClientLedger(idleTimeout: int, events: seq<Event>, h: Handle)
    ensures var w := Run(idleTimeout, events);
            && w.s.closes[h] <= 1
            && (w.s.closes[h] == 1 <==> h in w.s.opens && !InPool(w, h) && !InHand(w, h))
            && !(InPool(w, h) && InHand(w, h))
            && (InPool(w, h) || InHand(w, h) ==> h in w.s.opens)
  {
    var w := Run(idleTimeout, events);
    PlaceMeans(w, h);
    hide InPool, InHand, KeysPlaced, CarriersPlaced, EntriesPlaced, CallersKnow, ReleasesMatch, CountsExact, Run;
  }

  /** SSH ledger: every release runs at most once, of a borrowed connection, and never while its entry is in the map. */
  lemma ReleaseLedger(idleTimeout: int, events: seq<Event>, h: Handle)
    ensures var w := Run(idleTimeout, events);
            && w.s.releases[h] <= 1
            && (w.s.releases[h] == 1 ==> h in w.s.borrows && h !in w.s.stale && !InPool(w, h) && !InHand(w, h))
            && (h in w.s.stale ==> h in w.s.borrows && !InPool(w, h) && !InHand(w, h))
  {
    var w := Run(idleTimeout, events);
    PlaceMeans(w, h);
    hide InPool, InHand, KeysPlaced, CarriersPlaced, EntriesPlaced, CallersKnow, CountsExact, Run;
  }

  // ---------- Every borrow is accounted for ----------

  /** The borrows of live entries, and of openers not yet past insertion. */
  ghost function LiveBorrows(w: World): set<Handle> {
    set h | h in w.s.borrows && InPool(w, h)
  }

  ghost function PendingBorrows(w: World): set<Handle> {
    set h | h in w.s.borrows && InHand(w, h)
  }

  lemma SizeOfMultiset(m: multiset<Handle>, s: set<Handle>)
    requires forall h :: m[h] == if h in s then 1 else 0
    ensures |m| == |s|
  {
    assert m == multiset(s);
  }

  lemma SizeOfUnion(a: set<Handle>, b: set<Handle>, c: set<Handle>, d: set<Handle>)
    requires a !! b && (a + b) !! c && (a + b + c) !! d
    ensures |a + b + c + d| == |a| + |b| + |c| + |d|
  {
    assert |a + b| == |a| + |b|;
    assert |a + b + c| == |a + b| + |c|;
  }

  /**
   * Borrows = live entries + pending openers + released + stale replacements. The last term is never given back: the
   * idle branch closes the SFTP client but does not call sshRelease.
   */
  lemma BorrowsBalance(idleTimeout: int, events: seq<Event>)
    ensures var w := Run(idleTimeout, events);
            |w.s.borrows| == |LiveBorrows(w)| + |PendingBorrows(w)| + |w.s.releases| + |w.s.stale|
  {
    var w := Run(idleTimeout, events);
    var released := set h | h in w.s.borrows && w.s.releases[h] == 1;
    forall h
      ensures h in w.s.borrows <==> h in LiveBorrows(w) + PendingBorrows(w) + released + w.s.stale
      ensures w.s.releases[h] == if h in released then 1 else 0
      ensures h !in LiveBorrows(w) * PendingBorrows(w)
      ensures h in released + w.s.stale ==> h !in LiveBorrows(w) + PendingBorrows(w)
      ensures h !in released * w.s.stale
    {
      Accounted(w, h);
    }
    assert w.s.borrows == LiveBorrows(w) + PendingBorrows(w) + released + w.s.stale;
    SizeOfMultiset(w.s.releases, released);
    SizeOfUnion(LiveBorrows(w), PendingBorrows(w), released, w.s.stale);
  }

  /** The step replaces a stale entry that carries a borrowed connection. */
  predicate DropsBorrow(w: World, idleTimeout: int, e: Event) {
    && e.DoGet? && PcOf(w, e.c).Idle?
    && e.key in w.s.clients && w.s.clients[e.key] in w.s.entries
    && var entry := w.s.entries[w.s.clients[e.key]];
    && entry.borrowed && !Reusable(entry, idleTimeout, e.now)
  }

  lemma StepStale(w: World, idleTimeout: int, e: Event)
    requires Closed(w.s)
    ensures Step(w, idleTimeout, e).s.stale ==
            if DropsBorrow(w, idleTimeout, e) then w.s.stale + {w.s.clients[e.key]} else w.s.stale
  {
  }

  ghost predicate NoBorrowDropped(idleTimeout: int, events: seq<Event>)
    decreases |events|
  {
    events == []
    || (var n := |events| - 1;
        && NoBorrowDropped(idleTimeout, events[..n])
        && !DropsBorrow(Run(idleTimeout, events[..n]), idleTimeout, events[n]))
  }

  lemma {:induction false} StaleExactly(idleTimeout: int, events: seq<Event>)
    ensures Run(idleTimeout, events).s.stale == {} <==> NoBorrowDropped(idleTimeout, events)
    decreases |events|
  {
    hide Inv, Step, Run, DropsBorrow;
    if events == [] {
      RunNothing(idleTimeout);
    } else {
      var n := |events| - 1;
      StaleExactly(idleTimeout, events[..n]);
      RunStep(idleTimeout, events);
      StepStale(Run(idleTimeout, events[..n]), idleTimeout, events[n]);
    }
  }

  lemma RunNothing(idleTimeout: int)
    ensures Run(idleTimeout, []) == START
  {
  }

  /**
   * Every borrow is live, pending or released, exactly in the runs in which no caller ever finds an entry with a
   * borrowed connection idle for too long.
   */
  lemma BorrowsReleasedExactly(idleTimeout: int, events: seq<Event>)
    ensures var w := Run(idleTimeout, events);
            (|w.s.borrows| == |LiveBorrows(w)| + |PendingBorrows(w)| + |w.s.releases|)
            <==> NoBorrowDropped(idleTimeout, events)
  {
    hide Inv, Run, LiveBorrows, PendingBorrows, NoBorrowDropped;
    BorrowsBalance(idleTimeout, events);
    StaleExactly(idleTimeout, events);
  }

  /** One caller gets a client and puts it back. */
  const ONE_CALL := [] + [DoGet(1, "org", 0)] + [DoOpen(1, Opens(true))] + [DoInsert(1, 0)]

  const LEFT_BEHIND := ONE_CALL + [DoRelease(1)] + [DoFinish(1)]

  const ONE_CLIENT := EMPTY.(next := 1, opens := {0}, borrows := {0}, clients := map["org" := 0],
                             entries := map[0 := Entry(0, 1, true)])

  const IDLE_CLIENT := ONE_CLIENT.(entries := map[0 := Entry(0, 0, true)])

  lemma ClientOpened(idleTimeout: int)
    ensures var w := Run(idleTimeout, ONE_CALL); w.s == ONE_CLIENT && PcOf(w, 1) == Holding("org", 0)
  {
    hide Inv, Run;
    var e1 := [] + [DoGet(1, "org", 0)];
    var e2 := e1 + [DoOpen(1, Opens(true))];
    RunNothing(idleTimeout);
    RunOneMore(idleTimeout, [], DoGet(1, "org", 0));
    assert Run(idleTimeout, e1).s == EMPTY && PcOf(Run(idleTimeout, e1), 1) == Opening("org");
    RunOneMore(idleTimeout, e1, DoOpen(1, Opens(true)));
    assert PcOf(Run(idleTimeout, e2), 1) == Pending("org", 0, true);
    RunOneMore(idleTimeout, e2, DoInsert(1, 0));
  }

  lemma ClientPutBack(idleTimeout: int)
    ensures var w := Run(idleTimeout, LEFT_BEHIND); w.s == IDLE_CLIENT && PcOf(w, 1) == Idle
  {
    hide Inv, Run, ONE_CALL;
    ClientOpened(idleTimeout);
    RunOneMore(idleTimeout, ONE_CALL, DoRelease(1));
    RunOneMore(idleTimeout, ONE_CALL + [DoRelease(1)], DoFinish(1));
  }

  /**
   * When the caller comes back too late, the client it left is stale: it is closed, and its connection never
   * released.
   */
  lemma StaleConnectionLeaks(idleTimeout: int)
    ensures var w := Run(idleTimeout, LEFT_BEHIND + [DoGet(1, "org", idleTimeout + 1)]);
            && w.s.borrows == w.s.stale == {0} && w.s.releases == multiset{} && w.s.closes == multiset{0}
            && w.s.clients == map[]
  {
    hide Inv, Run, LEFT_BEHIND;
    ClientPutBack(idleTimeout);
    RunOneMore(idleTimeout, LEFT_BEHIND, DoGet(1, "org", idleTimeout + 1));
    LeakStep(Run(idleTimeout, LEFT_BEHIND), idleTimeout);
  }

  lemma LeakStep(w: World, idleTimeout: int)
    requires Closed(w.s) && PcOf(w, 1) == Idle
    requires w.s == IDLE_CLIENT
    ensures var s := Step(w, idleTimeout, DoGet(1, "org", idleTimeout + 1)).s;
            && s.borrows == s.stale == {0} && s.releases == multiset{} && s.closes == multiset{0} && s.clients == map[]
  {
    hide Inv;
  }

  lemma RunOneMore(idleTimeout: int, events: seq<Event>, e: Event)
    ensures var before := Run(idleTimeout, events);
            Closed(before.s) && Run(idleTimeout, events + [e]) == Step(before, idleTimeout, e)
  {
    assert (events + [e])[..|events|] == events;
    RunStep(idleTimeout, events + [e]);
  }

  lemma Accounted(w: World, h: Handle)
    requires Inv(w)
    ensures h in w.s.borrows <==>
            h in LiveBorrows(w) || h in PendingBorrows(w) || w.s.releases[h] == 1 || h in w.s.stale
    ensures w.s.releases[h] <= 1 && (w.s.releases[h] == 1 ==> h in w.s.borrows)
    ensures !(h in LiveBorrows(w) && h in PendingBorrows(w)) && !(w.s.releases[h] == 1 && h in w.s.stale)
    ensures w.s.releases[h] == 1 || h in w.s.stale ==> h !in LiveBorrows(w) && h !in PendingBorrows(w)
  {
    PlaceMeans(w, h);
    hide InPool, InHand, KeysPlaced, CarriersPlaced, EntriesPlaced, CallersKnow, ClosesMatch, CountsExact;
  }

  // ---------- Reference counts ----------

  /** After any run, an entry's count is the number of callers that acquired it and have not released it yet. */
  lemma CountsAreHolders(idleTimeout: int, events: seq<Event>, h: Handle)
    ensures var w := Run(idleTimeout, events);
            h in w.s.entries ==> w.s.entries[h].inUse == |Holders(w.pcs, h)|
  {
  }

  /** Replacing a stale entry never closes a client that some caller holds. */
  lemma IdleReplacementSparesHolders(w: World, idleTimeout: int, c: Caller, key: Key, now: int, h: Handle)
    requires Inv(w) && Closed(w.s) && PcOf(w, c).Idle?
    requires StepGet(w, idleTimeout, c, key, now).s.closes[h] != w.s.closes[h]
    ensures Holders(w.pcs, h) == {} && key in w.s.clients && w.s.clients[key] == h
    ensures now - w.s.entries[h].lastUsed > idleTimeout
  {
    hide KeysPlaced, CarriersPlaced, ClosesMatch, EntryBorrows, CarriedBorrows, ReleasesMatch, Holders;
    assert w.s.entries[h].inUse == |Holders(w.pcs, h)|;
  }

  // ---------- When the client in a caller's hands is live ----------

  predicate InMapNow(w: World, h: Handle) {
    h in w.place && w.place[h].InMap?
  }

  predicate HeldBy(w: World, h: Handle, c: Caller) {
    c in w.pcs && w.pcs[c].Holding? && w.pcs[c].h == h
  }

  /** Whoever holds the client holds a live one. */
  ghost predicate HeldLive(w: World, h: Handle) {
    forall c | HeldBy(w, h, c) :: InMapNow(w, h)
  }

  /** The step is a late join: it raises the count of an entry that is no longer in the map. */
  predicate JoinsLate(w: World, e: Event, h: Handle) {
    e.DoJoin? && PcOf(w, e.c).Joining? && PcOf(w, e.c).existing == h && h in w.s.entries && !InMapNow(w, h)
  }

  /** The step explicitly evicts the client while some caller holds it. */
  ghost predicate EvictsHeld(w: World, idleTimeout: int, e: Event, h: Handle)
    requires Closed(w.s)
  {
    && (e.DoEvict? || e.DoEvictOrg?)
    && InMapNow(w, h) && !InMapNow(Step(w, idleTimeout, e), h)
    && exists c :: HeldBy(w, h, c)
  }

  lemma StaleHasNoHolder(w: World, idleTimeout: int, c: Caller, key: Key, now: int, d: Caller)
    requires Inv(w) && Closed(w.s) && key in w.s.clients && !Reusable(w.s.entries[w.s.clients[key]], idleTimeout, now)
    ensures !HeldBy(w, w.s.clients[key], d)
  {
    hide KeysPlaced, CarriersPlaced, ClosesMatch, EntryBorrows, CarriedBorrows, ReleasesMatch;
    var h := w.s.clients[key];
    assert w.s.entries[h].inUse == |Holders(w.pcs, h)|;
    assert Holders(w.pcs, h) == {};
    assert HeldBy(w, h, d) ==> d in Holders(w.pcs, h);
  }

  lemma GetHeldLive(w: World, idleTimeout: int, c: Caller, key: Key, now: int, h: Handle)
    requires Inv(w) && Closed(w.s) && HeldLive(w, h) && PcOf(w, c).Idle?
    ensures HeldLive(StepGet(w, idleTimeout, c, key, now), h)
  {
    hide Inv;
    var w' := StepGet(w, idleTimeout, c, key, now);
    if key in w.s.clients {
      LiveIsKnown(w, key);
      if !Reusable(w.s.entries[w.s.clients[key]], idleTimeout, now) {
        forall d ensures !HeldBy(w, w.s.clients[key], d) {
          StaleHasNoHolder(w, idleTimeout, c, key, now, d);
        }
      }
    }
    forall d | HeldBy(w', h, d) ensures InMapNow(w', h) {
      assert d != c ==> HeldBy(w, h, d);
    }
  }

  lemma OwnHeldLive(w: World, idleTimeout: int, e: Event, h: Handle)
    requires Inv(w) && Closed(w.s) && HeldLive(w, h) && (e.DoOpen? || e.DoInsert? || e.DoDiscard?)
    ensures HeldLive(Step(w, idleTimeout, e), h)
  {
    hide Inv;
    var w' := Step(w, idleTimeout, e);
    if e.DoOpen? {
      BorrowKeeps(w);
    } else if Carried(PcOf(w, e.c)).Some? {
      CarriedIsKnown(w, e.c);
    }
    forall d | HeldBy(w', h, d) ensures InMapNow(w', h) {
      assert d != e.c ==> HeldBy(w, h, d);
    }
  }

  lemma JoinHeldLive(w: World, idleTimeout: int, e: Event, h: Handle)
    requires Closed(w.s) && HeldLive(w, h) && e.DoJoin?
    ensures HeldLive(Step(w, idleTimeout, e), h) <==> !JoinsLate(w, e, h)
  {
    var w' := Step(w, idleTimeout, e);
    if JoinsLate(w, e, h) {
      assert HeldBy(w', h, e.c) && !InMapNow(w', h);
    } else {
      forall d | HeldBy(w', h, d) ensures InMapNow(w', h) {
        assert d != e.c ==> HeldBy(w, h, d);
      }
    }
  }

  lemma EvictionHeldLive(w: World, idleTimeout: int, e: Event, h: Handle)
    requires Closed(w.s) && HeldLive(w, h) && (e.DoEvict? || e.DoEvictOrg?)
    ensures HeldLive(Step(w, idleTimeout, e), h) <==> !EvictsHeld(w, idleTimeout, e, h)
  {
    var w' := Step(w, idleTimeout, e);
    SameHolders(w, idleTimeout, e, h);
    hide HeldBy, Step;
    if EvictsHeld(w, idleTimeout, e, h) {
      var c :| HeldBy(w, h, c);
      assert HeldBy(w', h, c) && !InMapNow(w', h);
    } else {
      forall c | HeldBy(w', h, c) ensures InMapNow(w', h) {
        assert HeldBy(w, h, c) && InMapNow(w, h);
      }
    }
  }

  lemma SameHolders(w: World, idleTimeout: int, e: Event, h: Handle)
    requires Closed(w.s) && (e.DoEvict? || e.DoEvictOrg? || e.DoTouch? || e.DoFinish?)
    ensures forall c :: HeldBy(Step(w, idleTimeout, e), h, c) <==> HeldBy(w, h, c)
  {
  }

  lemma QuietHeldLive(w: World, idleTimeout: int, e: Event, h: Handle)
    requires Closed(w.s) && HeldLive(w, h) && (e.DoTouch? || e.DoFinish? || e.DoRelease?)
    ensures HeldLive(Step(w, idleTimeout, e), h)
  {
    var w' := Step(w, idleTimeout, e);
    forall d | HeldBy(w', h, d) ensures InMapNow(w', h) {
      assert HeldBy(w, h, d);
    }
  }

  lemma StepKeepsHeldLive(w: World, idleTimeout: int, e: Event, h: Handle)
    requires Inv(w) && Closed(w.s) && HeldLive(w, h)
    ensures HeldLive(Step(w, idleTimeout, e), h) <==> !JoinsLate(w, e, h) && !EvictsHeld(w, idleTimeout, e, h)
  {
    hide Inv, HeldLive, StepGet;
    match e {
      case DoGet(c, key, now) => if PcOf(w, c).Idle? { GetHeldLive(w, idleTimeout, c, key, now, h); }
      case DoOpen(_, _) => OwnHeldLive(w, idleTimeout, e, h);
      case DoInsert(_, _) => OwnHeldLive(w, idleTimeout, e, h);
      case DoDiscard(_) => OwnHeldLive(w, idleTimeout, e, h);
      case DoJoin(_) => JoinHeldLive(w, idleTimeout, e, h);
      case DoTouch(_, _, _) => QuietHeldLive(w, idleTimeout, e, h);
      case DoRelease(_) => QuietHeldLive(w, idleTimeout, e, h);
      case DoFinish(_) => QuietHeldLive(w, idleTimeout, e, h);
      case DoEvict(_) => EvictionHeldLive(w, idleTimeout, e, h);
      case DoEvictOrg(_) => EvictionHeldLive(w, idleTimeout, e, h);
    }
  }

  /** Whoever holds the client holds a live one, after every prefix of the run. */
  ghost predicate AlwaysHeldLive(idleTimeout: int, events: seq<Event>, h: Handle)
    decreases |events|
  {
    && HeldLive(Run(idleTimeout, events), h)
    && (events == [] || AlwaysHeldLive(idleTimeout, events[..|events| - 1], h))
  }

  /** No step of the run joins the client late or evicts it while it is held. */
  ghost predicate NeverEndangered(idleTimeout: int, events: seq<Event>, h: Handle)
    decreases |events|
  {
    events == []
    || (var n := |events| - 1; var w := Run(idleTimeout, events[..n]);
        && NeverEndangered(idleTimeout, events[..n], h)
        && Closed(w.s) && !JoinsLate(w, events[n], h) && !EvictsHeld(w, idleTimeout, events[n], h))
  }

  /**
   * For every run and every client: its holders hold a live one throughout, exactly when no caller that lost the
   * insertion race raised its count after it had left the map, and nobody explicitly evicted it while it was held.
   * The lookup and the increment are two steps, so nothing in the pool prevents the former.
   */
  lemma {:induction false} HoldersStayLiveExactly(idleTimeout: int, events: seq<Event>, h: Handle)
    ensures AlwaysHeldLive(idleTimeout, events, h) <==> NeverEndangered(idleTimeout, events, h)
    decreases |events|
  {
    hide HeldLive, JoinsLate, EvictsHeld, Inv, Step, Run;
    if events == [] {
      StartLive(idleTimeout, h);
    } else {
      var n := |events| - 1;
      HoldersStayLiveExactly(idleTimeout, events[..n], h);
      RunStep(idleTimeout, events);
      if AlwaysHeldLive(idleTimeout, events[..n], h) {
        AlwaysMeansNow(idleTimeout, events[..n], h);
        StepKeepsHeldLive(Run(idleTimeout, events[..n]), idleTimeout, events[n], h);
      }
    }
  }

  lemma AlwaysMeansNow(idleTimeout: int, events: seq<Event>, h: Handle)
    requires AlwaysHeldLive(idleTimeout, events, h)
    ensures HeldLive(Run(idleTimeout, events), h)
  {
    hide HeldLive, Run;
  }

  lemma StartLive(idleTimeout: int, h: Handle)
    ensures HeldLive(Run(idleTimeout, []), h)
  {
  }

  // ---------- The race is real ----------

  const RACE := [DoGet(1, "org", 0), DoGet(2, "org", 0), DoOpen(1, Opens(false)), DoOpen(2, Opens(false)),
                 DoInsert(1, 0), DoInsert(2, 1), DoDiscard(2), DoRelease(1), DoGet(3, "org", 9), DoJoin(2)]

  const BOTH_OPENED := World(
    EMPTY.(next := 2, opens := {0, 1}),
    map[1 := Pending("org", 0, false), 2 := Pending("org", 1, false)],
    map[0 := With(1), 1 := With(2)])

  const FIRST_IN := World(
    EMPTY.(next := 2, opens := {0, 1}, clients := map["org" := 0], entries := map[0 := Entry(0, 1, false)]),
    map[1 := Holding("org", 0), 2 := Pending("org", 1, false)],
    map[0 := InMap("org"), 1 := With(2)])

  const LOST_RACE := World(
    EMPTY.(next := 2, opens := {0, 1}, clients := map["org" := 0], entries := map[0 := Entry(0, 1, false)],
           closes := multiset{1}),
    map[1 := Holding("org", 0), 2 := Joining("org", 0)],
    map[0 := InMap("org"), 1 := Gone])

  const FINISHED := World(
    LOST_RACE.s.(entries := map[0 := Entry(0, 0, false)]),
    map[1 := Released("org", 0), 2 := Joining("org", 0)],
    LOST_RACE.place)

  lemma BothLookUp()
    ensures Run(5, RACE[..2]) == World(EMPTY, map[1 := Opening("org"), 2 := Opening("org")], map[])
  {
    hide Inv, Run;
    RunNothing(5);
    assert RACE[..0] == [];
    RunOn(5, RACE, 0);
    RunOn(5, RACE, 1);
    assert Run(5, RACE[..2]).pcs == map[1 := Opening("org"), 2 := Opening("org")];
  }

  lemma BothOpen()
    ensures Run(5, RACE[..4]) == BOTH_OPENED
  {
    hide Inv, Run;
    BothLookUp();
    RunOn(5, RACE, 2);
    RunOn(5, RACE, 3);
    assert Run(5, RACE[..3]).pcs == map[1 := Pending("org", 0, false), 2 := Opening("org")];
    assert Run(5, RACE[..4]).pcs == BOTH_OPENED.pcs;
    assert Run(5, RACE[..4]).place == BOTH_OPENED.place;
    assert Run(5, RACE[..4]).s == BOTH_OPENED.s;
  }

  lemma FirstIn()
    ensures Run(5, RACE[..5]) == FIRST_IN
  {
    hide Inv, Run;
    BothOpen();
    RunOn(5, RACE, 4);
    assert Run(5, RACE[..5]).pcs == FIRST_IN.pcs;
    assert Run(5, RACE[..5]).place == FIRST_IN.place;
    assert Run(5, RACE[..5]).s == FIRST_IN.s;
  }

  lemma LoseRace()
    ensures Run(5, RACE[..7]) == LOST_RACE
  {
    hide Inv, Run;
    FirstIn();
    RunOn(5, RACE, 5);
    RunOn(5, RACE, 6);
    assert Run(5, RACE[..7]).pcs == LOST_RACE.pcs;
    assert Run(5, RACE[..7]).place == LOST_RACE.place;
    assert Run(5, RACE[..7]).s == LOST_RACE.s;
  }

  lemma WinnerFinishes()
    ensures Run(5, RACE[..8]) == FINISHED
  {
    hide Inv, Run;
    LoseRace();
    RunOn(5, RACE, 7);
    assert Run(5, RACE[..8]).pcs == FINISHED.pcs;
    assert Run(5, RACE[..8]).s == FINISHED.s;
  }

  lemma ThirdFindsItStale()
    ensures var w := Run(5, RACE[..9]);
            w.s.closes == multiset{1, 0} && w.s.entries == FINISHED.s.entries && PcOf(w, 2) == Joining("org", 0)
  {
    hide Inv, Run;
    WinnerFinishes();
    RunOn(5, RACE, 8);
    assert Run(5, RACE[..9]) == StepGet(FINISHED, 5, 3, "org", 9);
  }

  /**
   * Callers 1 and 2 both open a client; 1 inserts first and finishes; 2 finds 1's entry, and before 2 raises the count
   * caller 3 finds the entry idle for too long and closes it. Caller 2 then works on a closed client.
   */
  lemma LateJoinerHoldsClosedClient()
    ensures forall k | 0 <= k < |RACE| :: !RACE[k].DoEvict? && !RACE[k].DoEvictOrg?
    ensures var w := Run(5, RACE); PcOf(w, 2) == Holding("org", 0) && w.s.closes[0] == 1
  {
    hide Inv, Run;
    ThirdFindsItStale();
    RunOn(5, RACE, 9);
    assert RACE[..10] == RACE;
  }

  lemma RunOn(idleTimeout: int, events: seq<Event>, k: nat)
    requires k < |events|
    ensures var before := Run(idleTimeout, events[..k]);
            Closed(before.s) && Run(idleTimeout, events[..k + 1]) == Step(before, idleTimeout, events[k])
  {
    assert events[..k + 1][..k] == events[..k];
    RunStep(idleTimeout, events[..k + 1]);
  }

  lemma RunStep(idleTimeout: int, events: seq<Event>)
    requires events != []
    ensures var before := Run(idleTimeout, events[..|events| - 1]);
            Closed(before.s) && Run(idleTimeout, events) == Step(before, idleTimeout, events[|events| - 1])
  {
    StepKeeps(Run(idleTimeout, events[..|events| - 1]), idleTimeout, events[|events| - 1]);
  }
}
