/** Which client the SFTP pool lists for a key and when it was last used, told from the events of a run alone. */
module SftpListing {
  import opened Options
  import opened SftpPool
  import opened SftpSafety

  /** A listed client, and the moment of its latest use. */
  datatype Listed = Listed(h: Handle, used: int)

  predicate NobodyHolds(w: World, h: Handle) {
    forall c | c in w.pcs :: !HeldBy(w, h, c)
  }

  /** What one event, in the world `w`, does to the listing of a key. */
  function Relisted(w: World, idleTimeout: int, e: Event, key: Key, listed: Option<Listed>): Option<Listed> {
    match e
    case DoInsert(c, now) =>
      if listed.None? && PcOf(w, c).Pending? && PcOf(w, c).key == key then Some(Listed(PcOf(w, c).h, now)) else listed
    case DoTouch(_, k, now) =>
      if k == key && listed.Some? then Some(Listed(listed.value.h, now)) else listed
    case DoGet(c, k, now) =>
      if k == key && listed.Some? && PcOf(w, c).Idle?
         && NobodyHolds(w, listed.value.h) && now - listed.value.used > idleTimeout
      then None else listed
    case DoEvict(c) =>
      if listed.Some? && PcOf(w, c) == Released(key, listed.value.h) then None else listed
    case DoEvictOrg(k) => if k == key then None else listed
    case _ => listed
  }

  /**
   * The listing of a key after a run: its latest insertion, used at that time or at the latest touch since, unless an
   * eviction, or a caller that found it unheld and idle for too long, came after that.
   */
  ghost function Listing(idleTimeout: int, events: seq<Event>, key: Key): Option<Listed> {
    if events == [] then None
    else
      var n := |events| - 1;
      Relisted(Run(idleTimeout, events[..n]), idleTimeout, events[n], key, Listing(idleTimeout, events[..n], key))
  }

  /** The pool agrees with a listing of the key. */
  ghost predicate Agrees(s: Shared, key: Key, listed: Option<Listed>) {
    match listed
    case None => key !in s.clients
    case Some(l) => key in s.clients && s.clients[key] == l.h && l.h in s.entries && s.entries[l.h].lastUsed == l.used
  }

  lemma UnheldIsUnused(w: World, h: Handle)
    requires Inv(w) && h in w.s.entries
    ensures NobodyHolds(w, h) <==> w.s.entries[h].inUse <= 0
  {
    hide KeysPlaced, CarriersPlaced, HandlesIssued, EntriesPlaced, CallersKnow, ClosesMatch, EntryBorrows;
    hide CarriedBorrows, ReleasesMatch;
    if NobodyHolds(w, h) {
      assert Holders(w.pcs, h) == {} by {
        forall c ensures c !in Holders(w.pcs, h) {
          assert c in w.pcs ==> !HeldBy(w, h, c);
        }
      }
    } else {
      var c :| c in w.pcs && HeldBy(w, h, c);
      assert c in Holders(w.pcs, h);
    }
  }

  /** Two keys never list the same client. */
  lemma KeysApart(w: World, a: Key, b: Key)
    requires Inv(w) && a in w.s.clients && b in w.s.clients && a != b
    ensures w.s.clients[a] != w.s.clients[b]
  {
    hide CarriersPlaced, HandlesIssued, EntriesPlaced, CallersKnow, ClosesMatch, EntryBorrows;
    hide CarriedBorrows, ReleasesMatch, CountsExact;
  }

  lemma GetRelists(w: World, idleTimeout: int, e: Event, key: Key, listed: Option<Listed>)
    requires Inv(w) && Closed(w.s) && e.DoGet? && Agrees(w.s, key, listed)
    ensures Agrees(Step(w, idleTimeout, e).s, key, Relisted(w, idleTimeout, e, key, listed))
  {
    hide Inv, NobodyHolds;
    if e.key in w.s.clients {
      LiveIsKnown(w, e.key);
      UnheldIsUnused(w, w.s.clients[e.key]);
    }
  }

  lemma InsertRelists(w: World, idleTimeout: int, e: Event, key: Key, listed: Option<Listed>)
    requires Inv(w) && Closed(w.s) && e.DoInsert? && Agrees(w.s, key, listed)
    ensures Agrees(Step(w, idleTimeout, e).s, key, Relisted(w, idleTimeout, e, key, listed))
  {
    hide Inv;
    if PcOf(w, e.c).Pending? {
      CarriedIsKnown(w, e.c);
    }
  }

  lemma TouchRelists(w: World, idleTimeout: int, e: Event, key: Key, listed: Option<Listed>)
    requires Inv(w) && Closed(w.s) && e.DoTouch? && Agrees(w.s, key, listed)
    ensures Agrees(Step(w, idleTimeout, e).s, key, Relisted(w, idleTimeout, e, key, listed))
  {
    hide Inv;
    if e.key in w.s.clients && e.key != key && listed.Some? {
      KeysApart(w, e.key, key);
    }
  }

  lemma EvictRelists(w: World, idleTimeout: int, e: Event, key: Key, listed: Option<Listed>)
    requires Inv(w) && Closed(w.s) && (e.DoEvict? || e.DoEvictOrg?) && Agrees(w.s, key, listed)
    ensures Agrees(Step(w, idleTimeout, e).s, key, Relisted(w, idleTimeout, e, key, listed))
  {
    hide Inv;
  }

  lemma OtherRelists(w: World, idleTimeout: int, e: Event, key: Key, listed: Option<Listed>)
    requires Closed(w.s) && (e.DoOpen? || e.DoDiscard? || e.DoJoin? || e.DoRelease? || e.DoFinish?)
    requires Agrees(w.s, key, listed)
    ensures Agrees(Step(w, idleTimeout, e).s, key, Relisted(w, idleTimeout, e, key, listed))
  {
  }

  lemma StepRelists(w: World, idleTimeout: int, e: Event, key: Key, listed: Option<Listed>)
    requires Inv(w) && Closed(w.s) && Agrees(w.s, key, listed)
    ensures Agrees(Step(w, idleTimeout, e).s, key, Relisted(w, idleTimeout, e, key, listed))
  {
    hide Inv, Step, Agrees, Relisted;
    match e {
      case DoGet(_, _, _) => GetRelists(w, idleTimeout, e, key, listed);
      case DoInsert(_, _) => InsertRelists(w, idleTimeout, e, key, listed);
      case DoTouch(_, _, _) => TouchRelists(w, idleTimeout, e, key, listed);
      case DoEvict(_) => EvictRelists(w, idleTimeout, e, key, listed);
      case DoEvictOrg(_) => EvictRelists(w, idleTimeout, e, key, listed);
      case _ => OtherRelists(w, idleTimeout, e, key, listed);
    }
  }

  /**
   * After any run, the pool lists for a key exactly the client that the events tell, and its lastUsed is the moment of
   * the event that inserted it or last touched its key.
   */
  lemma {:induction false} ListedExactly(idleTimeout: int, events: seq<Event>, key: Key)
    ensures Agrees(Run(idleTimeout, events).s, key, Listing(idleTimeout, events, key))
    decreases |events|
  {
    hide Inv, Step, Agrees, Relisted, Run;
    if events == [] {
      NothingListed(idleTimeout, key);
    } else {
      var n := |events| - 1;
      ListedExactly(idleTimeout, events[..n], key);
      RunStep(idleTimeout, events);
      StepRelists(Run(idleTimeout, events[..n]), idleTimeout, events[n], key, Listing(idleTimeout, events[..n], key));
    }
  }

  lemma NothingListed(idleTimeout: int, key: Key)
    ensures Agrees(Run(idleTimeout, []).s, key, None)
  {
  }

  /**
   * A caller that asks for a key takes its listed client if somebody holds it or its latest use, by the events, is at
   * most the idle timeout ago; otherwise it goes on to open one of its own, and a listed client is dropped and closed.
   */
  lemma GetTakesListed(idleTimeout: int, events: seq<Event>, c: Caller, key: Key, now: int)
    requires PcOf(Run(idleTimeout, events), c).Idle?
    ensures var w, after := Run(idleTimeout, events), Run(idleTimeout, events + [DoGet(c, key, now)]);
            match Listing(idleTimeout, events, key)
            case None => PcOf(after, c) == Opening(key)
            case Some(l) =>
              if !NobodyHolds(w, l.h) || now - l.used <= idleTimeout
              then PcOf(after, c) == Holding(key, l.h) && after.s.clients == w.s.clients
              else
                && PcOf(after, c) == Opening(key) && key !in after.s.clients
                && after.s.closes == w.s.closes + multiset{l.h}
  {
    var w := Run(idleTimeout, events);
    ListedExactly(idleTimeout, events, key);
    RunOneMore(idleTimeout, events, DoGet(c, key, now));
    hide Inv, Run, Listing, NobodyHolds;
    if key in w.s.clients {
      LiveIsKnown(w, key);
      UnheldIsUnused(w, w.s.clients[key]);
    }
  }
}
