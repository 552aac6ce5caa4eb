/**
 * The org-scoped SFTP client pool (sftp_pool.go) as atomic steps at its lock boundaries, for any number of callers.
 * A handle stands for one SSH borrow and the SFTP client opened on it.
 */
module SftpPool {
  import opened Options

  type Key = string
  type Handle = nat
  type Caller = nat

  /** A pooledSFTP record; `borrowed` says that it carries an sshRelease function. */
  datatype Entry = Entry(lastUsed: int, inUse: int, borrowed: bool)

  /**
   * What the callers share. `entries` is the heap of pool records, which outlive their removal from `clients`; the
   * rest is the ledger: clients opened and closed, SSH connections borrowed and released, and borrows dropped by the
   * idle branch without a release.
   */
  datatype Shared = Shared(
    clients: map<Key, Handle>,
    entries: map<Handle, Entry>,
    next: Handle,
    opens: set<Handle>,
    closes: multiset<Handle>,
    borrows: set<Handle>,
    releases: multiset<Handle>,
    stale: set<Handle>)

  const EMPTY := Shared(map[], map[], 0, {}, multiset{}, {}, multiset{}, {})

  /** How opening ends; `closed` says that the subsystem failed with a closed-connection error. */
  datatype OpenOutcome = Opens(borrowed: bool) | BorrowFails | SubsystemFails(closed: bool)

  // ---------- The steps on the shared state ----------

  function CloseClient(s: Shared, h: Handle): Shared {
    s.(closes := s.closes + multiset{h})
  }

  function SshRelease(s: Shared, h: Handle, borrowed: bool): Shared {
    if borrowed then s.(releases := s.releases + multiset{h}) else s
  }

  function Reusable(e: Entry, idleTimeout: int, now: int): bool {
    e.inUse > 0 || now - e.lastUsed <= idleTimeout
  }

  function Recounted(entries: map<Handle, Entry>, h: Handle, delta: int): map<Handle, Entry>
    requires h in entries
  {
    entries[h := entries[h].(inUse := entries[h].inUse + delta)]
  }

  function AddUse(s: Shared, h: Handle, delta: int): Shared
    requires h in s.entries
  {
    s.(entries := Recounted(s.entries, h, delta))
  }

  /** The client is closed and forgotten, but its SSH connection is not released. */
  function DropStale(s: Shared, key: Key): Shared
    requires key in s.clients && s.clients[key] in s.entries
  {
    var h := s.clients[key];
    CloseClient(s, h).(clients := s.clients - {key}, stale := if s.entries[h].borrowed then s.stale + {h} else s.stale)
  }

  /** The entry is released, closed and forgotten (releaseAndClosePooledEntry). */
  function DropEntry(s: Shared, key: Key): Shared
    requires key in s.clients && s.clients[key] in s.entries
  {
    var h := s.clients[key];
    CloseClient(SshRelease(s, h, s.entries[h].borrowed), h).(clients := s.clients - {key})
  }

  predicate Closed(s: Shared) {
    forall key | key in s.clients :: s.clients[key] in s.entries
  }

  /** The first locked section of getOrCreate: the handle acquired, or None after clearing a stale entry. */
  function Get(s: Shared, key: Key, idleTimeout: int, now: int): (Shared, Option<Handle>)
    requires Closed(s)
  {
    if key !in s.clients then (s, None)
    else if Reusable(s.entries[s.clients[key]], idleTimeout, now)
    then (AddUse(s, s.clients[key], 1), Some(s.clients[key]))
    else (DropStale(s, key), None)
  }

  /** openNewPooledSftpClient; a failed SFTP subsystem gives its borrow back at once. */
  function Open(s: Shared, outcome: OpenOutcome): Shared {
    match outcome
    case Opens(borrowed) =>
      s.(next := s.next + 1, opens := s.opens + {s.next},
         borrows := if borrowed then s.borrows + {s.next} else s.borrows)
    case BorrowFails => s
    case SubsystemFails(_) =>
      s.(next := s.next + 1, borrows := s.borrows + {s.next}, releases := s.releases + multiset{s.next})
  }

  /** The second locked section: the entry found instead, or None after inserting the caller's own. */
  function Insert(s: Shared, key: Key, h: Handle, borrowed: bool, now: int): (Shared, Option<Handle>) {
    if key in s.clients then (s, Some(s.clients[key]))
    else (s.(clients := s.clients[key := h], entries := s.entries[h := Entry(now, 1, borrowed)]), None)
  }

  function Discard(s: Shared, h: Handle, borrowed: bool): Shared {
    CloseClient(SshRelease(s, h, borrowed), h)
  }

  function Evict(s: Shared, key: Key, h: Handle): Shared
    requires Closed(s)
  {
    if key in s.clients && s.clients[key] == h then DropEntry(s, key) else s
  }

  function EvictOrg(s: Shared, key: Key): Shared
    requires Closed(s)
  {
    if key in s.clients then DropEntry(s, key) else s
  }

  function Touch(s: Shared, key: Key, now: int): Shared
    requires Closed(s)
  {
    if key in s.clients
    then s.(entries := s.entries[s.clients[key] := s.entries[s.clients[key]].(lastUsed := now)])
    else s
  }

  // ---------- Callers ----------

  /** Where a caller stands between two atomic steps. */
  datatype Pc =
    | Idle
    | Opening(key: Key)
    | Pending(key: Key, h: Handle, borrowed: bool)               // opened, not yet past the second lock
    | Beaten(key: Key, existing: Handle, h: Handle, borrowed: bool)  // found another entry, lock given up
    | Joining(key: Key, existing: Handle)                        // own client discarded, count not yet raised
    | Holding(key: Key, h: Handle)
    | Released(key: Key, h: Handle)

  datatype Event =
    | DoGet(c: Caller, key: Key, now: int)
    | DoOpen(c: Caller, outcome: OpenOutcome)
    | DoInsert(c: Caller, now: int)
    | DoDiscard(c: Caller)
    | DoJoin(c: Caller)
    | DoTouch(c: Caller, key: Key, now: int)
    | DoRelease(c: Caller)
    | DoEvict(c: Caller)
    | DoFinish(c: Caller)
    | DoEvictOrg(key: Key)

  /** Where an opened client is. */
  datatype Place = InMap(key: Key) | With(c: Caller) | Gone

  datatype World = World(s: Shared, pcs: map<Caller, Pc>, place: map<Handle, Place>)

  const START := World(EMPTY, map[], map[])

  function Where(pcs: map<Caller, Pc>, c: Caller): Pc {
    if c in pcs then pcs[c] else Idle
  }

  function PcOf(w: World, c: Caller): Pc {
    Where(w.pcs, c)
  }

  function MoveTo(w: World, s: Shared, c: Caller, pc: Pc): World {
    w.(s := s, pcs := w.pcs[c := pc])
  }

  function Put(w: World, h: Handle, place: Place): World {
    w.(place := w.place[h := place])
  }

  function StepGet(w: World, idleTimeout: int, c: Caller, key: Key, now: int): World
    requires Closed(w.s)
  {
    var (s, got) := Get(w.s, key, idleTimeout, now);
    match got
    case Some(h) => MoveTo(w, s, c, Holding(key, h))
    case None =>
      var w' := MoveTo(w, s, c, Opening(key));
      if key in w.s.clients then Put(w', w.s.clients[key], Gone) else w'
  }

  function StepOpen(w: World, c: Caller, key: Key, outcome: OpenOutcome): World {
    match outcome
    case Opens(borrowed) => Put(MoveTo(w, Open(w.s, outcome), c, Pending(key, w.s.next, borrowed)), w.s.next, With(c))
    case _ => MoveTo(w, Open(w.s, outcome), c, Idle)
  }

  function StepDrop(w: World, key: Key): World
    requires Closed(w.s)
  {
    if key in w.s.clients then Put(w.(s := EvictOrg(w.s, key)), w.s.clients[key], Gone) else w
  }

  /** The world after a caller's second locked section. */
  function Inserted(w: World, c: Caller, now: int): World
    requires PcOf(w, c).Pending?
  {
    var pc := PcOf(w, c);
    var (s, found) := Insert(w.s, pc.key, pc.h, pc.borrowed, now);
    match found
    case Some(existing) => MoveTo(w, s, c, Beaten(pc.key, existing, pc.h, pc.borrowed))
    case None => Put(MoveTo(w, s, c, Holding(pc.key, pc.h)), pc.h, InMap(pc.key))
  }

  /** The world after a beaten caller has given up its own client. */
  function Discarded(w: World, c: Caller): World
    requires PcOf(w, c).Beaten?
  {
    var pc := PcOf(w, c);
    Put(MoveTo(w, Discard(w.s, pc.h, pc.borrowed), c, Joining(pc.key, pc.existing)), pc.h, Gone)
  }

  /** The world after a caller has evicted the client that failed it, if the pool still has it. */
  function Evicted(w: World, c: Caller): World
    requires Closed(w.s) && PcOf(w, c).Released?
  {
    MoveTo(EvictedOnly(w, c), EvictedOnly(w, c).s, c, Idle)
  }

  function EvictedOnly(w: World, c: Caller): World
    requires Closed(w.s) && PcOf(w, c).Released?
  {
    var pc := PcOf(w, c);
    var s := Evict(w.s, pc.key, pc.h);
    if pc.key in w.s.clients && w.s.clients[pc.key] == pc.h then Put(w.(s := s), pc.h, Gone) else w.(s := s)
  }

  /** One atomic step; an event that does not fit its caller's place changes nothing. */
  function Step(w: World, idleTimeout: int, e: Event): World
    requires Closed(w.s)
  {
    match e
    case DoGet(c, key, now) => if PcOf(w, c).Idle? then StepGet(w, idleTimeout, c, key, now) else w
    case DoOpen(c, outcome) => if PcOf(w, c).Opening? then StepOpen(w, c, PcOf(w, c).key, outcome) else w
    case DoInsert(c, now) =>
      if PcOf(w, c).Pending? then Inserted(w, c, now) else w
    case DoDiscard(c) => if PcOf(w, c).Beaten? then Discarded(w, c) else w
    case DoJoin(c) =>
      var pc := PcOf(w, c);
      if pc.Joining? && pc.existing in w.s.entries
      then MoveTo(w, AddUse(w.s, pc.existing, 1), c, Holding(pc.key, pc.existing)) else w
    case DoTouch(_, key, now) => w.(s := Touch(w.s, key, now))
    case DoRelease(c) =>
      var pc := PcOf(w, c);
      if pc.Holding? && pc.h in w.s.entries then MoveTo(w, AddUse(w.s, pc.h, -1), c, Released(pc.key, pc.h)) else w
    case DoEvict(c) => if PcOf(w, c).Released? then Evicted(w, c) else w
    case DoFinish(c) => if PcOf(w, c).Released? then MoveTo(w, w.s, c, Idle) else w
    case DoEvictOrg(key) => StepDrop(w, key)
  }

  // ---------- The invariant, one relation at a time ----------

  function Holders(pcs: map<Caller, Pc>, h: Handle): set<Caller> {
    set c | c in pcs && pcs[c].Holding? && pcs[c].h == h
  }

  /** The client a caller opened and has neither inserted nor closed yet. */
  function Carried(pc: Pc): Option<Handle> {
    if pc.Pending? || pc.Beaten? then Some(pc.h) else None
  }

  predicate Present(place: map<Handle, Place>, h: Handle) {
    h in place && !place[h].Gone?
  }

  ghost predicate KeysPlaced(clients: map<Key, Handle>, place: map<Handle, Place>) {
    && (forall key | key in clients :: clients[key] in place && place[clients[key]] == InMap(key))
    && (forall h | h in place && place[h].InMap? :: place[h].key in clients && clients[place[h].key] == h)
  }

  ghost predicate CarriersPlaced(pcs: map<Caller, Pc>, place: map<Handle, Place>) {
    && (forall c | c in pcs && Carried(pcs[c]).Some? :: pcs[c].h in place && place[pcs[c].h] == With(c))
    && (forall h | h in place && place[h].With? :: place[h].c in pcs && Carried(pcs[place[h].c]) == Some(h))
  }

  ghost predicate HandlesIssued(next: Handle, opens: set<Handle>, borrows: set<Handle>, place: map<Handle, Place>) {
    opens == place.Keys && (forall h | h in place :: h < next) && (forall h | h in borrows :: h < next)
  }

  ghost predicate EntriesPlaced(clients: map<Key, Handle>, entries: map<Handle, Entry>, place: map<Handle, Place>) {
    && (forall h | h in entries :: h in place && !place[h].With?)
    && (forall key | key in clients :: clients[key] in entries)
  }

  ghost predicate CallersKnow(pcs: map<Caller, Pc>, entries: map<Handle, Entry>) {
    && (forall c | c in pcs && (pcs[c].Holding? || pcs[c].Released?) :: pcs[c].h in entries)
    && (forall c | c in pcs && (pcs[c].Beaten? || pcs[c].Joining?) :: pcs[c].existing in entries)
  }

  ghost predicate ClosesMatch(closes: multiset<Handle>, place: map<Handle, Place>) {
    forall h :: closes[h] == if h in place && place[h].Gone? then 1 else 0
  }

  ghost predicate EntryBorrows(entries: map<Handle, Entry>, borrows: set<Handle>) {
    forall h | h in entries :: entries[h].borrowed <==> h in borrows
  }

  ghost predicate CarriedBorrows(pcs: map<Caller, Pc>, borrows: set<Handle>) {
    forall c | c in pcs && Carried(pcs[c]).Some? :: pcs[c].borrowed <==> pcs[c].h in borrows
  }

  ghost predicate ReleasesMatch(releases: multiset<Handle>, stale: set<Handle>, borrows: set<Handle>,
                                place: map<Handle, Place>)
  {
    forall h :: releases[h] + (if h in stale then 1 else 0) == if h in borrows && !Present(place, h) then 1 else 0
  }

  ghost predicate CountsExact(entries: map<Handle, Entry>, pcs: map<Caller, Pc>) {
    forall h | h in entries :: entries[h].inUse == |Holders(pcs, h)|
  }

  ghost predicate Inv(w: World) {
    && KeysPlaced(w.s.clients, w.place) && CarriersPlaced(w.pcs, w.place)
    && HandlesIssued(w.s.next, w.s.opens, w.s.borrows, w.place)
    && EntriesPlaced(w.s.clients, w.s.entries, w.place) && CallersKnow(w.pcs, w.s.entries)
    && ClosesMatch(w.s.closes, w.place)
    && EntryBorrows(w.s.entries, w.s.borrows) && CarriedBorrows(w.pcs, w.s.borrows)
    && ReleasesMatch(w.s.releases, w.s.stale, w.s.borrows, w.place)
    && CountsExact(w.s.entries, w.pcs)
  }

  // ---------- Reference counts ----------

  lemma MoveKeepsCounts(entries: map<Handle, Entry>, pcs: map<Caller, Pc>, c: Caller, pc: Pc)
    requires CountsExact(entries, pcs) && !pc.Holding? && (c in pcs ==> !pcs[c].Holding?)
    ensures CountsExact(entries, pcs[c := pc])
  {
    forall h | h in entries ensures entries[h].inUse == |Holders(pcs[c := pc], h)| {
      assert Holders(pcs[c := pc], h) == Holders(pcs, h);
    }
  }

  lemma AcquireKeepsCounts(entries: map<Handle, Entry>, pcs: map<Caller, Pc>, c: Caller, key: Key, h: Handle)
    requires CountsExact(entries, pcs) && h in entries && (c in pcs ==> !pcs[c].Holding?)
    ensures CountsExact(entries[h := entries[h].(inUse := entries[h].inUse + 1)], pcs[c := Holding(key, h)])
  {
    var pcs' := pcs[c := Holding(key, h)];
    assert Holders(pcs', h) == Holders(pcs, h) + {c};
    forall g | g in entries && g != h ensures entries[g].inUse == |Holders(pcs', g)| {
      assert Holders(pcs', g) == Holders(pcs, g);
    }
  }

  lemma ReleaseKeepsCounts(entries: map<Handle, Entry>, pcs: map<Caller, Pc>, c: Caller, pc: Pc)
    requires CountsExact(entries, pcs) && c in pcs && pcs[c].Holding? && pcs[c].h in entries && !pc.Holding?
    ensures var h := pcs[c].h;
            CountsExact(entries[h := entries[h].(inUse := entries[h].inUse - 1)], pcs[c := pc])
  {
    var pcs', h := pcs[c := pc], pcs[c].h;
    assert Holders(pcs', h) == Holders(pcs, h) - {c} && c in Holders(pcs, h);
    forall g | g in entries && g != h ensures entries[g].inUse == |Holders(pcs', g)| {
      assert Holders(pcs', g) == Holders(pcs, g);
    }
  }

  lemma NewEntryKeepsCounts(entries: map<Handle, Entry>, pcs: map<Caller, Pc>, c: Caller, key: Key, h: Handle, e: Entry)
    requires CountsExact(entries, pcs) && CallersKnow(pcs, entries) && h !in entries && (c in pcs ==> !pcs[c].Holding?)
    requires e.inUse == 1
    ensures CountsExact(entries[h := e], pcs[c := Holding(key, h)])
  {
    var pcs' := pcs[c := Holding(key, h)];
    assert Holders(pcs', h) == {c};
    forall g | g in entries ensures entries[g].inUse == |Holders(pcs', g)| {
      assert Holders(pcs', g) == Holders(pcs, g);
    }
  }

  // ---------- Places ----------

  lemma MoveKeepsCarriers(pcs: map<Caller, Pc>, place: map<Handle, Place>, c: Caller, pc: Pc)
    requires CarriersPlaced(pcs, place) && Carried(pc) == if c in pcs then Carried(pcs[c]) else None
    ensures CarriersPlaced(pcs[c := pc], place)
  {
  }

  lemma TakeUp(pcs: map<Caller, Pc>, place: map<Handle, Place>, c: Caller, pc: Pc, h: Handle)
    requires CarriersPlaced(pcs, place) && Carried(pc) == Some(h) && h !in place && (c in pcs ==> Carried(pcs[c]).None?)
    ensures CarriersPlaced(pcs[c := pc], place[h := With(c)])
  {
  }

  lemma PutDown(pcs: map<Caller, Pc>, place: map<Handle, Place>, c: Caller, pc: Pc, to: Place)
    requires CarriersPlaced(pcs, place) && c in pcs && Carried(pcs[c]).Some? && Carried(pc).None? && !to.With?
    ensures CarriersPlaced(pcs[c := pc], place[pcs[c].h := to])
  {
    assert Carried(pcs[c]) == Some(pcs[c].h);
  }

  lemma GoneKeepsCarriers(pcs: map<Caller, Pc>, place: map<Handle, Place>, h: Handle)
    requires CarriersPlaced(pcs, place) && h in place && !place[h].With?
    ensures CarriersPlaced(pcs, place[h := Gone])
  {
  }

  lemma OutsideKeepsKeys(clients: map<Key, Handle>, place: map<Handle, Place>, h: Handle, to: Place)
    requires KeysPlaced(clients, place) && (h in place ==> !place[h].InMap?) && !to.InMap?
    ensures KeysPlaced(clients, place[h := to])
  {
  }

  lemma GoneKeepsKeys(clients: map<Key, Handle>, place: map<Handle, Place>, key: Key)
    requires KeysPlaced(clients, place) && key in clients
    ensures KeysPlaced(clients - {key}, place[clients[key] := Gone])
  {
  }

  lemma EnterKeepsKeys(clients: map<Key, Handle>, place: map<Handle, Place>, key: Key, h: Handle)
    requires KeysPlaced(clients, place) && key !in clients && (h in place ==> !place[h].InMap?)
    ensures KeysPlaced(clients[key := h], place[h := InMap(key)])
  {
  }

  lemma StayKeepsIssued(next: Handle, opens: set<Handle>, borrows: set<Handle>, place: map<Handle, Place>, h: Handle,
                        to: Place)
    requires HandlesIssued(next, opens, borrows, place) && h in place
    ensures HandlesIssued(next, opens, borrows, place[h := to])
  {
    assert place[h := to].Keys == place.Keys;
  }

  lemma GoneKeepsEntries(clients: map<Key, Handle>, entries: map<Handle, Entry>, place: map<Handle, Place>, h: Handle,
                         gone: set<Key>)
    requires EntriesPlaced(clients, entries, place)
    ensures EntriesPlaced(clients - gone, entries, place[h := Gone])
  {
  }

  lemma TakeUpKeepsEntries(clients: map<Key, Handle>, entries: map<Handle, Entry>, place: map<Handle, Place>, h: Handle,
                           c: Caller)
    requires EntriesPlaced(clients, entries, place) && h !in place
    ensures EntriesPlaced(clients, entries, place[h := With(c)])
  {
  }

  lemma EnterKeepsEntries(s: Shared, place: map<Handle, Place>, key: Key, h: Handle, e: Entry)
    requires EntriesPlaced(s.clients, s.entries, place) && EntryBorrows(s.entries, s.borrows)
    requires e.borrowed <==> h in s.borrows
    ensures EntriesPlaced(s.clients[key := h], s.entries[h := e], place[h := InMap(key)])
    ensures EntryBorrows(s.entries[h := e], s.borrows)
  {
  }

  lemma MoveKeepsCallers(pcs: map<Caller, Pc>, entries: map<Handle, Entry>, borrows: set<Handle>,
                         entries': map<Handle, Entry>, c: Caller, pc: Pc)
    requires CallersKnow(pcs, entries) && CarriedBorrows(pcs, borrows) && entries.Keys <= entries'.Keys
    requires pc.Holding? || pc.Released? ==> pc.h in entries'
    requires pc.Beaten? || pc.Joining? ==> pc.existing in entries'
    requires Carried(pc).Some? ==> (pc.borrowed <==> pc.h in borrows)
    ensures CallersKnow(pcs[c := pc], entries') && CarriedBorrows(pcs[c := pc], borrows)
  {
  }

  lemma BeatenKnows(w: World, c: Caller)
    requires Inv(w) && (PcOf(w, c).Beaten? || PcOf(w, c).Joining?)
    ensures PcOf(w, c).existing in w.s.entries
  {
  }

  // ---------- The ledger ----------

  lemma GoneKeepsCloses(closes: multiset<Handle>, place: map<Handle, Place>, h: Handle)
    requires ClosesMatch(closes, place) && Present(place, h)
    ensures ClosesMatch(closes + multiset{h}, place[h := Gone])
  {
  }

  lemma GoneKeepsReleases(s: Shared, place: map<Handle, Place>, h: Handle, releases: multiset<Handle>,
                          stale: set<Handle>)
    requires ReleasesMatch(s.releases, s.stale, s.borrows, place) && Present(place, h)
    requires || (h in s.borrows && releases == s.releases + multiset{h} && stale == s.stale)
             || (h in s.borrows && releases == s.releases && stale == s.stale + {h})
             || (h !in s.borrows && releases == s.releases && stale == s.stale)
    ensures ReleasesMatch(releases, stale, s.borrows, place[h := Gone])
  {
    assert s.releases[h] == 0 && h !in s.stale;
    forall g
      ensures releases[g] + (if g in stale then 1 else 0) ==
              if g in s.borrows && !Present(place[h := Gone], g) then 1 else 0
    {
      assert g != h ==> Present(place[h := Gone], g) == Present(place, g);
    }
  }

  lemma StayKeepsReleases(s: Shared, place: map<Handle, Place>, h: Handle, to: Place)
    requires ReleasesMatch(s.releases, s.stale, s.borrows, place) && Present(place, h) && !to.Gone?
    ensures ReleasesMatch(s.releases, s.stale, s.borrows, place[h := to])
  {
    forall g ensures Present(place[h := to], g) == Present(place, g) {
    }
  }

  lemma OpenKeepsReleases(s: Shared, place: map<Handle, Place>, c: Caller, borrowed: bool)
    requires ReleasesMatch(s.releases, s.stale, s.borrows, place) && HandlesIssued(s.next, s.opens, s.borrows, place)
    ensures ReleasesMatch(s.releases, s.stale, if borrowed then s.borrows + {s.next} else s.borrows,
                          place[s.next := With(c)])
    ensures ReleasesMatch(s.releases + multiset{s.next}, s.stale, s.borrows + {s.next}, place)
  {
    assert s.releases[s.next] == 0 && s.next !in s.stale;
    forall g ensures g != s.next ==> Present(place[s.next := With(c)], g) == Present(place, g) {
    }
  }

  // ---------- Every step keeps the invariant ----------

  lemma CarriedIsKnown(w: World, c: Caller)
    requires Inv(w) && Carried(PcOf(w, c)).Some?
    ensures var h := PcOf(w, c).h;
            && h in w.place && w.place[h] == With(c) && h < w.s.next && h !in w.s.entries
            && (PcOf(w, c).borrowed <==> h in w.s.borrows)
  {
  }

  lemma LiveIsKnown(w: World, key: Key)
    requires Inv(w) && key in w.s.clients
    ensures var h := w.s.clients[key];
            && h in w.place && w.place[h] == InMap(key) && h in w.s.entries
            && (w.s.entries[h].borrowed <==> h in w.s.borrows)
  {
  }

  lemma InvMeansClosed(w: World)
    requires Inv(w)
    ensures Closed(w.s)
  {
  }

  /** Moving a caller that carries nothing changes no relation but the ones about callers. */
  lemma WalkKeeps(w: World, c: Caller, pc: Pc)
    requires Inv(w) && Carried(PcOf(w, c)).None? && !PcOf(w, c).Holding?
    requires pc.Idle? || pc.Opening?
    ensures Inv(MoveTo(w, w.s, c, pc))
  {
    hide KeysPlaced, CarriersPlaced, HandlesIssued, EntriesPlaced, CallersKnow, ClosesMatch, EntryBorrows,
         CarriedBorrows, ReleasesMatch, CountsExact;
    MoveKeepsCounts(w.s.entries, w.pcs, c, pc);
    MoveKeepsCarriers(w.pcs, w.place, c, pc);
    MoveKeepsCallers(w.pcs, w.s.entries, w.s.borrows, w.s.entries, c, pc);
  }

  lemma SameEntries(s: Shared, place: map<Handle, Place>, entries: map<Handle, Entry>)
    requires EntriesPlaced(s.clients, s.entries, place) && EntryBorrows(s.entries, s.borrows)
    requires entries.Keys == s.entries.Keys && forall h | h in entries :: entries[h].borrowed == s.entries[h].borrowed
    ensures EntriesPlaced(s.clients, entries, place) && EntryBorrows(entries, s.borrows)
  {
  }

  lemma JoinKeeps(w: World, c: Caller, key: Key, h: Handle)
    requires Inv(w) && Carried(PcOf(w, c)).None? && !PcOf(w, c).Holding? && h in w.s.entries
    ensures Inv(MoveTo(w, AddUse(w.s, h, 1), c, Holding(key, h)))
  {
    hide KeysPlaced, CarriersPlaced, HandlesIssued, EntriesPlaced, CallersKnow, ClosesMatch, EntryBorrows,
         CarriedBorrows, ReleasesMatch, CountsExact;
    AcquireKeepsCounts(w.s.entries, w.pcs, c, key, h);
    MoveKeepsCarriers(w.pcs, w.place, c, Holding(key, h));
    SameEntries(w.s, w.place, Recounted(w.s.entries, h, 1));
    MoveKeepsCallers(w.pcs, w.s.entries, w.s.borrows, Recounted(w.s.entries, h, 1), c, Holding(key, h));
  }

  lemma ReleaseKeeps(w: World, c: Caller)
    requires Inv(w) && PcOf(w, c).Holding? && PcOf(w, c).h in w.s.entries
    ensures var pc := PcOf(w, c); Inv(MoveTo(w, AddUse(w.s, pc.h, -1), c, Released(pc.key, pc.h)))
  {
    hide KeysPlaced, CarriersPlaced, HandlesIssued, EntriesPlaced, CallersKnow, ClosesMatch, EntryBorrows,
         CarriedBorrows, ReleasesMatch, CountsExact;
    var pc := PcOf(w, c);
    var pc' := Released(pc.key, pc.h);
    ReleaseKeepsCounts(w.s.entries, w.pcs, c, pc');
    MoveKeepsCarriers(w.pcs, w.place, c, pc');
    SameEntries(w.s, w.place, Recounted(w.s.entries, pc.h, -1));
    MoveKeepsCallers(w.pcs, w.s.entries, w.s.borrows, Recounted(w.s.entries, pc.h, -1), c, pc');
  }

  lemma TouchKeeps(w: World, key: Key, now: int)
    requires Inv(w) && Closed(w.s)
    ensures Inv(w.(s := Touch(w.s, key, now)))
  {
    if key in w.s.clients {
      SameEntries(w.s, w.place, Touch(w.s, key, now).entries);
      hide KeysPlaced, CarriersPlaced, HandlesIssued, EntriesPlaced, ClosesMatch, EntryBorrows,
           ReleasesMatch, CarriedBorrows;
    }
  }

  /** A live client leaves the map and is closed; its borrow is released or goes stale. */
  lemma DropKeeps(w: World, key: Key, s: Shared)
    requires Inv(w) && Closed(w.s) && key in w.s.clients && (s == DropStale(w.s, key) || s == DropEntry(w.s, key))
    ensures Inv(Put(w.(s := s), w.s.clients[key], Gone))
  {
    hide KeysPlaced, CarriersPlaced, HandlesIssued, EntriesPlaced, CallersKnow, ClosesMatch, EntryBorrows,
         CarriedBorrows, ReleasesMatch, CountsExact;
    var h := w.s.clients[key];
    LiveIsKnown(w, key);
    GoneKeepsKeys(w.s.clients, w.place, key);
    GoneKeepsCarriers(w.pcs, w.place, h);
    GoneKeepsEntries(w.s.clients, w.s.entries, w.place, h, {key});
    StayKeepsIssued(w.s.next, w.s.opens, w.s.borrows, w.place, h, Gone);
    GoneKeepsCloses(w.s.closes, w.place, h);
    GoneKeepsReleases(w.s, w.place, h, s.releases, s.stale);
  }

  lemma StepDropKeeps(w: World, key: Key)
    requires Inv(w) && Closed(w.s)
    ensures Inv(StepDrop(w, key)) && StepDrop(w, key).pcs == w.pcs
  {
    hide Inv;
    if key in w.s.clients {
      DropKeeps(w, key, DropEntry(w.s, key));
    }
  }

  lemma GetKeeps(w: World, idleTimeout: int, c: Caller, key: Key, now: int)
    requires Inv(w) && Closed(w.s) && PcOf(w, c).Idle?
    ensures Inv(StepGet(w, idleTimeout, c, key, now))
  {
    hide Inv, DropStale, AddUse, Reusable;
    if key !in w.s.clients {
      WalkKeeps(w, c, Opening(key));
    } else if Reusable(w.s.entries[w.s.clients[key]], idleTimeout, now) {
      JoinKeeps(w, c, key, w.s.clients[key]);
    } else {
      DropKeeps(w, key, DropStale(w.s, key));
      WalkKeeps(Put(w.(s := DropStale(w.s, key)), w.s.clients[key], Gone), c, Opening(key));
    }
  }

  /** A fresh handle is nowhere yet; borrowing it changes no flag. */
  lemma BorrowKeeps(w: World)
    requires Inv(w)
    ensures w.s.next !in w.place && w.s.next !in w.s.borrows
    ensures EntryBorrows(w.s.entries, w.s.borrows + {w.s.next}) && CarriedBorrows(w.pcs, w.s.borrows + {w.s.next})
  {
    hide KeysPlaced, CallersKnow, ReleasesMatch, CountsExact, ClosesMatch;
  }

  lemma IssueKeeps(w: World, c: Caller, borrowed: bool)
    requires Inv(w)
    ensures var borrows := if borrowed then w.s.borrows + {w.s.next} else w.s.borrows;
            HandlesIssued(w.s.next + 1, w.s.opens + {w.s.next}, borrows, w.place[w.s.next := With(c)])
    ensures HandlesIssued(w.s.next + 1, w.s.opens, w.s.borrows + {w.s.next}, w.place)
  {
    hide KeysPlaced, CarriersPlaced, EntriesPlaced, CallersKnow, ClosesMatch, EntryBorrows, CarriedBorrows,
         ReleasesMatch, CountsExact;
    assert w.place[w.s.next := With(c)].Keys == w.place.Keys + {w.s.next};
  }

  lemma TakeUpKeepsCloses(closes: multiset<Handle>, place: map<Handle, Place>, h: Handle, to: Place)
    requires ClosesMatch(closes, place) && (h in place ==> !place[h].Gone?) && !to.Gone?
    ensures ClosesMatch(closes, place[h := to])
  {
  }

  lemma OpenKeeps(w: World, c: Caller, key: Key, borrowed: bool)
    requires Inv(w) && PcOf(w, c).Opening?
    ensures Inv(StepOpen(w, c, key, Opens(borrowed)))
  {
    hide KeysPlaced, CarriersPlaced, HandlesIssued, EntriesPlaced, CallersKnow, ClosesMatch, EntryBorrows,
         CarriedBorrows, ReleasesMatch, CountsExact;
    var h, pc := w.s.next, Pending(key, w.s.next, borrowed);
    var borrows := if borrowed then w.s.borrows + {h} else w.s.borrows;
    BorrowKeeps(w);
    IssueKeeps(w, c, borrowed);
    MoveKeepsCounts(w.s.entries, w.pcs, c, pc);
    TakeUp(w.pcs, w.place, c, pc, h);
    TakeUpKeepsEntries(w.s.clients, w.s.entries, w.place, h, c);
    TakeUpKeepsCloses(w.s.closes, w.place, h, With(c));
    OutsideKeepsKeys(w.s.clients, w.place, h, With(c));
    OpenKeepsReleases(w.s, w.place, c, borrowed);
    assert h !in w.s.borrows;
    MoveKeepsCallers(w.pcs, w.s.entries, borrows, w.s.entries, c, pc);
  }

  lemma FailedOpenKeeps(w: World, c: Caller, key: Key, outcome: OpenOutcome)
    requires Inv(w) && PcOf(w, c).Opening? && !outcome.Opens?
    ensures Inv(StepOpen(w, c, key, outcome))
  {
    hide KeysPlaced, CarriersPlaced, HandlesIssued, EntriesPlaced, CallersKnow, ClosesMatch, EntryBorrows,
         CarriedBorrows, ReleasesMatch, CountsExact;
    BorrowKeeps(w);
    IssueKeeps(w, c, false);
    MoveKeepsCounts(w.s.entries, w.pcs, c, Idle);
    MoveKeepsCarriers(w.pcs, w.place, c, Idle);
    OpenKeepsReleases(w.s, w.place, c, false);
    MoveKeepsCallers(w.pcs, w.s.entries, w.s.borrows, w.s.entries, c, Idle);
    MoveKeepsCallers(w.pcs, w.s.entries, w.s.borrows + {w.s.next}, w.s.entries, c, Idle);
  }

  lemma BeatenKeeps(w: World, c: Caller, now: int)
    requires Inv(w) && PcOf(w, c).Pending? && PcOf(w, c).key in w.s.clients
    ensures Inv(Inserted(w, c, now))
  {
    hide KeysPlaced, CarriersPlaced, HandlesIssued, EntriesPlaced, CallersKnow, ClosesMatch, EntryBorrows,
         CarriedBorrows, ReleasesMatch, CountsExact;
    var pc := PcOf(w, c);
    var pc' := Beaten(pc.key, w.s.clients[pc.key], pc.h, pc.borrowed);
    CarriedIsKnown(w, c);
    LiveIsKnown(w, pc.key);
    MoveKeepsCounts(w.s.entries, w.pcs, c, pc');
    MoveKeepsCarriers(w.pcs, w.place, c, pc');
    MoveKeepsCallers(w.pcs, w.s.entries, w.s.borrows, w.s.entries, c, pc');
  }

  lemma EnterKeeps(w: World, c: Caller, now: int)
    requires Inv(w) && PcOf(w, c).Pending? && PcOf(w, c).key !in w.s.clients
    ensures Inv(Inserted(w, c, now))
  {
    hide KeysPlaced, CarriersPlaced, HandlesIssued, EntriesPlaced, CallersKnow, ClosesMatch, EntryBorrows,
         CarriedBorrows, ReleasesMatch, CountsExact;
    var pc := PcOf(w, c);
    var e, pc' := Entry(now, 1, pc.borrowed), Holding(pc.key, pc.h);
    CarriedIsKnown(w, c);
    NewEntryKeepsCounts(w.s.entries, w.pcs, c, pc.key, pc.h, e);
    PutDown(w.pcs, w.place, c, pc', InMap(pc.key));
    EnterKeepsKeys(w.s.clients, w.place, pc.key, pc.h);
    EnterKeepsEntries(w.s, w.place, pc.key, pc.h, e);
    StayKeepsIssued(w.s.next, w.s.opens, w.s.borrows, w.place, pc.h, InMap(pc.key));
    StayKeepsReleases(w.s, w.place, pc.h, InMap(pc.key));
    TakeUpKeepsCloses(w.s.closes, w.place, pc.h, InMap(pc.key));
    MoveKeepsCallers(w.pcs, w.s.entries, w.s.borrows, w.s.entries[pc.h := e], c, pc');
  }

  lemma DiscardKeeps(w: World, c: Caller)
    requires Inv(w) && PcOf(w, c).Beaten?
    ensures Inv(Discarded(w, c))
  {
    hide KeysPlaced, CarriersPlaced, HandlesIssued, EntriesPlaced, CallersKnow, ClosesMatch, EntryBorrows,
         CarriedBorrows, ReleasesMatch, CountsExact;
    var pc := PcOf(w, c);
    var pc' := Joining(pc.key, pc.existing);
    CarriedIsKnown(w, c);
    BeatenKnows(w, c);
    MoveKeepsCounts(w.s.entries, w.pcs, c, pc');
    PutDown(w.pcs, w.place, c, pc', Gone);
    OutsideKeepsKeys(w.s.clients, w.place, pc.h, Gone);
    GoneKeepsEntries(w.s.clients, w.s.entries, w.place, pc.h, {});
    assert w.s.clients - {} == w.s.clients;
    StayKeepsIssued(w.s.next, w.s.opens, w.s.borrows, w.place, pc.h, Gone);
    GoneKeepsCloses(w.s.closes, w.place, pc.h);
    GoneKeepsReleases(w.s, w.place, pc.h, SshRelease(w.s, pc.h, pc.borrowed).releases, w.s.stale);
    MoveKeepsCallers(w.pcs, w.s.entries, w.s.borrows, w.s.entries, c, pc');
  }

  lemma EvictKeeps(w: World, c: Caller)
    requires Inv(w) && Closed(w.s) && PcOf(w, c).Released?
    ensures Inv(Evicted(w, c))
  {
    hide Inv;
    StepDropKeeps(w, PcOf(w, c).key);
    WalkKeeps(EvictedOnly(w, c), c, Idle);
  }

  lemma StepKeeps(w: World, idleTimeout: int, e: Event)
    requires Inv(w)
    ensures Closed(w.s) && Inv(Step(w, idleTimeout, e))
  {
    InvMeansClosed(w);
    hide Inv, StepGet, StepOpen, Inserted, StepDrop, AddUse, Discarded, Evicted, Touch;
    match e {
      case DoGet(c, key, now) => if PcOf(w, c).Idle? { GetKeeps(w, idleTimeout, c, key, now); }
      case DoOpen(c, outcome) =>
        if PcOf(w, c).Opening? {
          if outcome.Opens? {
            OpenKeeps(w, c, PcOf(w, c).key, outcome.borrowed);
          } else {
            FailedOpenKeeps(w, c, PcOf(w, c).key, outcome);
          }
        }
      case DoInsert(c, now) =>
        if PcOf(w, c).Pending? {
          if PcOf(w, c).key in w.s.clients { BeatenKeeps(w, c, now); } else { EnterKeeps(w, c, now); }
        }
      case DoDiscard(c) => if PcOf(w, c).Beaten? { DiscardKeeps(w, c); }
      case DoJoin(c) =>
        var pc := PcOf(w, c);
        if pc.Joining? && pc.existing in w.s.entries { JoinKeeps(w, c, pc.key, pc.existing); }
      case DoTouch(_, key, now) => TouchKeeps(w, key, now);
      case DoRelease(c) => if PcOf(w, c).Holding? && PcOf(w, c).h in w.s.entries { ReleaseKeeps(w, c); }
      case DoEvict(c) => if PcOf(w, c).Released? { EvictKeeps(w, c); }
      case DoFinish(c) => if PcOf(w, c).Released? { WalkKeeps(w, c, Idle); }
      case DoEvictOrg(key) => StepDropKeeps(w, key);
    }
  }
}
