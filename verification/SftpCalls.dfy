/**
 * Calls of WithSFTPClientFromPool on a pool that other callers use at the same time: each call is a series of the
 * pool's sections, and between any two of them the others may do anything.
 */
module SftpCalls {
  import opened Options
  import opened SftpPool
  import opened SftpSafety
  import opened SftpClient

  // ---------- What a run shows of one caller ----------

  predicate IsBy(e: Event, c: Caller) {
    !e.DoEvictOrg? && e.c == c
  }

  /** The caller's action that an event of its own amounts to, from where the caller stood and stands. */
  function ActionIn(before: Pc, e: Event, after: Pc): seq<Action> {
    if !before.Holding? && after.Holding? then [Acquire]
    else if before.Holding? && !after.Holding? then [ReleaseRef]
    else if e.DoTouch? then [TouchKey]
    else if e.DoEvict? && before.Released? then [EvictClient]
    else []
  }

  /** The caller's actions on the pool, read off a run. */
  ghost function ActionsIn(idleTimeout: int, events: seq<Event>, c: Caller): seq<Action> {
    if events == [] then []
    else
      var n := |events| - 1;
      ActionsIn(idleTimeout, events[..n], c)
      + if IsBy(events[n], c)
        then ActionIn(PcOf(Run(idleTimeout, events[..n]), c), events[n], PcOf(Run(idleTimeout, events), c))
        else []
  }

  lemma ActionsSnoc(idleTimeout: int, events: seq<Event>, e: Event, c: Caller)
    ensures ActionsIn(idleTimeout, events + [e], c) ==
            ActionsIn(idleTimeout, events, c)
            + if IsBy(e, c)
              then ActionIn(PcOf(Run(idleTimeout, events), c), e, PcOf(Run(idleTimeout, events + [e]), c))
              else []
  {
    hide Run, ActionIn;
    assert (events + [e])[..|events|] == events;
  }

  /** The actions of a trace that touch the pool; running the function and closing the connection do not. */
  function OnPool(trace: seq<Action>): seq<Action> {
    if trace == [] then []
    else
      var last := trace[|trace| - 1];
      OnPool(trace[..|trace| - 1]) + if last.RunFn? || last.CloseConnection? then [] else [last]
  }

  lemma {:induction false} OnPoolConcat(a: seq<Action>, b: seq<Action>)
    ensures OnPool(a + b) == OnPool(a) + OnPool(b)
    decreases |b|
  {
    if b == [] {
      assert a + b == a;
    } else {
      assert (a + b)[..|a + b| - 1] == a + b[..|b| - 1];
      OnPoolConcat(a, b[..|b| - 1]);
    }
  }

  /** Nobody else moves a caller. */
  lemma OthersLeaveCaller(w: World, idleTimeout: int, e: Event, c: Caller)
    requires Closed(w.s) && !IsBy(e, c)
    ensures PcOf(Step(w, idleTimeout, e), c) == PcOf(w, c)
  {
  }

  /** Where a caller's own event takes it. */
  predicate Moves(before: Pc, e: Event, after: Pc) {
    match e
    case DoGet(_, key, _) => before.Idle? ==> after == Opening(key) || (after.Holding? && after.key == key)
    case DoOpen(_, outcome) =>
      before.Opening? ==> if outcome.Opens? then after.Pending? && after.key == before.key else after == Idle
    case DoInsert(_, _) =>
      before.Pending? ==> (after.Holding? || after.Beaten?) && after.key == before.key
    case DoDiscard(_) => before.Beaten? ==> after == Joining(before.key, before.existing)
    case DoJoin(_) => before.Joining? ==> after == Holding(before.key, before.existing)
    case DoTouch(_, _, _) => after == before
    case DoRelease(_) => before.Holding? ==> after == Released(before.key, before.h)
    case DoEvict(_) => before.Released? ==> after == Idle
    case DoFinish(_) => before.Released? ==> after == Idle
    case DoEvictOrg(_) => true
  }

  lemma OwnMoves(w: World, idleTimeout: int, e: Event)
    requires Inv(w) && Closed(w.s) && !e.DoEvictOrg?
    ensures Moves(PcOf(w, e.c), e, PcOf(Step(w, idleTimeout, e), e.c))
  {
    HolderKnows(w, e.c);
    hide Inv;
  }

  lemma HolderKnows(w: World, c: Caller)
    requires Inv(w)
    ensures PcOf(w, c).Holding? ==> PcOf(w, c).h in w.s.entries
    ensures PcOf(w, c).Joining? ==> PcOf(w, c).existing in w.s.entries
  {
    hide KeysPlaced, CarriersPlaced, HandlesIssued, EntriesPlaced, ClosesMatch, EntryBorrows, CarriedBorrows,
        ReleasesMatch;
    hide CountsExact;
  }

  /** What any step shows of the callers. */
  lemma StepSeen(w: World, idleTimeout: int, e: Event)
    requires Inv(w) && Closed(w.s)
    ensures !e.DoEvictOrg? ==> Moves(PcOf(w, e.c), e, PcOf(Step(w, idleTimeout, e), e.c))
    ensures forall c | !IsBy(e, c) :: PcOf(Step(w, idleTimeout, e), c) == PcOf(w, c)
  {
    hide Inv, Step, Moves;
    if !e.DoEvictOrg? {
      OwnMoves(w, idleTimeout, e);
    }
    forall c | !IsBy(e, c) ensures PcOf(Step(w, idleTimeout, e), c) == PcOf(w, c) {
      OthersLeaveCaller(w, idleTimeout, e, c);
    }
  }

  /**
   * The references that the actions of a run leave outstanding are those that the pool counts: one exactly while
   * the caller holds a client.
   */
  lemma {:induction false} OutstandingIsHeld(idleTimeout: int, events: seq<Event>, c: Caller)
    ensures Outstanding(ActionsIn(idleTimeout, events, c))
        == if PcOf(Run(idleTimeout, events), c).Holding? then 1 else 0
    decreases |events|
  {
    hide Run, Inv, Step;
    if events == [] {
      RunNothing(idleTimeout);
    } else {
      var n := |events| - 1;
      var w, e := Run(idleTimeout, events[..n]), events[n];
      OutstandingIsHeld(idleTimeout, events[..n], c);
      RunStep(idleTimeout, events);
      if IsBy(e, c) {
        var front := ActionsIn(idleTimeout, events[..n], c);
        var action := ActionIn(PcOf(w, c), e, PcOf(Run(idleTimeout, events), c));
        assert action != [] ==> (front + action)[..|front + action| - 1] == front;
        assert action == [] ==> front + action == front;
      } else {
        OthersLeaveCaller(w, idleTimeout, e, c);
        assert ActionsIn(idleTimeout, events[..n], c) + [] == ActionsIn(idleTimeout, events[..n], c);
      }
    }
  }

  lemma {:induction false} OutstandingConcat(a: seq<Action>, b: seq<Action>)
    ensures Outstanding(a + b) == Outstanding(a) + Outstanding(b)
    decreases |b|
  {
    if b == [] {
      assert a + b == a;
    } else {
      assert (a + b)[..|a + b| - 1] == a + b[..|b| - 1];
      OutstandingConcat(a, b[..|b| - 1]);
    }
  }

  lemma {:induction false} OutstandingOnPool(trace: seq<Action>)
    ensures Outstanding(OnPool(trace)) == Outstanding(trace)
    decreases |trace|
  {
    if trace != [] {
      var n := |trace| - 1;
      OutstandingOnPool(trace[..n]);
      var last := if trace[n].RunFn? || trace[n].CloseConnection? then [] else [trace[n]];
      OutstandingConcat(OnPool(trace[..n]), last);
      assert last != [] ==> last[..0] == [];
    }
  }

  /**
   * The phases of the discipline are the places of the protocol: from a moment at which the caller held nothing,
   * when the run shows the pool actions of a disciplined trace, the caller holds a client exactly in the phases
   * between acquiring and releasing, and is counted by the pool exactly then.
   */
  lemma PhaseIsPlace(idleTimeout: int, before: seq<Event>, events: seq<Event>, c: Caller, trace: seq<Action>)
    requires !PcOf(Run(idleTimeout, before), c).Holding? && After(trace).Some?
    requires ActionsIn(idleTimeout, events, c) == ActionsIn(idleTimeout, before, c) + OnPool(trace)
    ensures var w, phase := Run(idleTimeout, events), After(trace).value;
            && (PcOf(w, c).Holding? <==> phase.Holds? || phase.Ran? || phase.Touched?)
            && (PcOf(w, c).Holding? <==>
                  exists h :: h in w.s.entries && c in Holders(w.pcs, h) && w.s.entries[h].inUse > 0)
  {
    hide Run, ActionsIn, OnPool, Outstanding, After;
    OutstandingIsHeld(idleTimeout, before, c);
    OutstandingIsHeld(idleTimeout, events, c);
    OutstandingConcat(ActionsIn(idleTimeout, before, c), OnPool(trace));
    OutstandingOnPool(trace);
    OutstandingExact(trace);
    HolderIsCounted(Run(idleTimeout, events), c);
  }

  lemma HolderIsCounted(w: World, c: Caller)
    requires Inv(w)
    ensures PcOf(w, c).Holding? <==> exists h :: h in w.s.entries && c in Holders(w.pcs, h) && w.s.entries[h].inUse > 0
  {
    HolderKnows(w, c);
    hide KeysPlaced, CarriersPlaced, HandlesIssued, EntriesPlaced, CallersKnow, ClosesMatch, EntryBorrows,
        CarriedBorrows;
    hide ReleasesMatch;
    if PcOf(w, c).Holding? {
      var h := PcOf(w, c).h;
      assert c in Holders(w.pcs, h) && w.s.entries[h].inUse == |Holders(w.pcs, h)|;
      assert Holders(w.pcs, h) != {};
    }
  }

  // ---------- The pool in use ----------

  /** The choices of a call, each by the length of the run so far: what the others do next, the clock, and outcomes. */
  datatype Plan = Plan(
    others: nat -> seq<Event>,
    clock: nat -> int,
    opening: nat -> OpenOutcome,
    error: nat -> Error,
    fn: nat -> Option<Error>)

  ghost predicate SparesCaller(plan: Plan, c: Caller) {
    forall n, e | e in plan.others(n) :: !IsBy(e, c)
  }

  datatype Got = Failed(err: Error, closeConnection: bool) | Client(fromPool: bool)

  /** The pool, where each caller stands, and the run so far. */
  class System {
    const pool: Pool
    var pcs: map<Caller, Pc>
    var log: seq<Event>
    ghost var place: map<Handle, Place>

    ghost function W(): World
      reads this, pool
    {
      World(pool.Abs(), pcs, place)
    }

    ghost predicate Valid()
      reads this, pool
    {
      W() == Run(pool.idleTimeout, log)
    }

    function At(c: Caller): Pc
      reads this`pcs
    {
      Where(pcs, c)
    }

    constructor (idleTimeout: int)
      ensures Valid() && log == [] && pool.idleTimeout == idleTimeout && fresh(pool)
    {
      pool := new Pool(idleTimeout);
      pcs, log, place := map[], [], map[];
      new;
      RunNothing(idleTimeout);
    }

    // One method for each kind of event: the pool's section, and the caller's move.

    method GetSection(c: Caller, key: Key, now: int)
      requires Closed(pool.Abs()) && At(c).Idle?
      modifies this`pcs, this`place, pool
      ensures W() == StepGet(old(W()), pool.idleTimeout, c, key, now)
    {
      hide Get;
      ghost var before := pool.clients;
      var got := pool.GetLocked(key, now);
      match got {
        case Some(h) =>
          pcs := pcs[c := Holding(key, h)];
        case None =>
          pcs := pcs[c := Opening(key)];
          place := if key in before then place[before[key] := Gone] else place;
      }
    }

    method OpenSection(c: Caller, outcome: OpenOutcome) returns (closeConnection: bool)
      requires At(c).Opening?
      modifies this`pcs, this`place, pool
      ensures W() == StepOpen(old(W()), c, old(At(c)).key, outcome)
      ensures closeConnection <==> outcome == SubsystemFails(true)
    {
      hide Open;
      var own;
      own, closeConnection := pool.OpenNew(outcome);
      match own {
        case Some(h) =>
          pcs := pcs[c := Pending(At(c).key, h, outcome.borrowed)];
          place := place[h := With(c)];
        case None =>
          pcs := pcs[c := Idle];
      }
    }

    method InsertSection(c: Caller, now: int)
      requires At(c).Pending?
      modifies this`pcs, this`place, pool
      ensures W() == Inserted(old(W()), c, now)
    {
      hide Insert;
      var pc := At(c);
      var existing := pool.InsertLocked(pc.key, pc.h, pc.borrowed, now);
      match existing {
        case Some(other) =>
          pcs := pcs[c := Beaten(pc.key, other, pc.h, pc.borrowed)];
        case None =>
          pcs := pcs[c := Holding(pc.key, pc.h)];
          place := place[pc.h := InMap(pc.key)];
      }
    }

    method DiscardSection(c: Caller)
      requires At(c).Beaten?
      modifies this`pcs, this`place, pool
      ensures W() == Discarded(old(W()), c)
    {
      hide Discard;
      var pc := At(c);
      pool.DiscardOwn(pc.h, pc.borrowed);
      pcs := pcs[c := Joining(pc.key, pc.existing)];
      place := place[pc.h := Gone];
    }

    method CountSection(c: Caller, h: Handle, delta: int, pc: Pc)
      requires h in pool.entries
      modifies this`pcs, pool
      ensures W() == MoveTo(old(W()), AddUse(old(pool.Abs()), h, delta), c, pc)
    {
      hide AddUse;
      pool.AddToCount(h, delta);
      pcs := pcs[c := pc];
    }

    method EvictSection(c: Caller)
      requires Closed(pool.Abs()) && At(c).Released?
      modifies this`pcs, this`place, pool
      ensures W() == Evicted(old(W()), c)
    {
      hide Evict;
      var pc := At(c);
      ghost var before := pool.clients;
      pool.EvictLocked(pc.key, pc.h);
      pcs := pcs[c := Idle];
      place := if pc.key in before && before[pc.key] == pc.h then place[pc.h := Gone] else place;
    }

    method EvictOrgSection(key: Key)
      requires Closed(pool.Abs())
      modifies this`place, pool
      ensures W() == StepDrop(old(W()), key)
    {
      ghost var before := pool.clients;
      pool.EvictOrgLocked(key);
      place := if key in before then place[before[key] := Gone] else place;
    }

    /** Any event but an opening: the section it stands for, if the caller is where that section begins. */
    method Section(e: Event)
      requires Closed(pool.Abs()) && !e.DoOpen?
      modifies this`pcs, this`place, pool
      ensures W() == Step(old(W()), pool.idleTimeout, e)
    {
      hide StepGet, Inserted, Discarded, Evicted, StepDrop, AddUse, Touch, Closed;
      match e {
        case DoGet(c, key, now) => if At(c).Idle? { GetSection(c, key, now); }
        case DoInsert(c, now) => if At(c).Pending? { InsertSection(c, now); }
        case DoDiscard(c) => if At(c).Beaten? { DiscardSection(c); }
        case DoJoin(c) =>
          if At(c).Joining? && At(c).existing in pool.entries {
            CountSection(c, At(c).existing, 1, Holding(At(c).key, At(c).existing));
          }
        case DoTouch(_, key, now) => pool.TouchLocked(key, now);
        case DoRelease(c) =>
          if At(c).Holding? && At(c).h in pool.entries {
            CountSection(c, At(c).h, -1, Released(At(c).key, At(c).h));
          }
        case DoEvict(c) => if At(c).Released? { EvictSection(c); }
        case DoFinish(c) => if At(c).Released? { pcs := pcs[c := Idle]; }
        case DoEvictOrg(key) => EvictOrgSection(key);
      }
    }

    method Act(e: Event)
      requires Valid() && !e.DoOpen?
      modifies this, pool
      ensures Valid() && log == old(log) + [e]
      ensures !e.DoEvictOrg? ==> Moves(old(At(e.c)), e, At(e.c))
      ensures forall c | !IsBy(e, c) :: At(c) == old(At(c))
    {
      hide Inv, Step, Moves, Closed, Run;
      ghost var w, idle := W(), pool.idleTimeout;
      RunOneMore(idle, log, e);
      StepSeen(w, idle, e);
      Section(e);
      log := log + [e];
      assert forall c :: At(c) == PcOf(W(), c);
    }

    method ActOpen(c: Caller, outcome: OpenOutcome) returns (closeConnection: bool)
      requires Valid() && At(c).Opening?
      modifies this, pool
      ensures Valid() && log == old(log) + [DoOpen(c, outcome)]
      ensures Moves(old(At(c)), DoOpen(c, outcome), At(c))
      ensures forall d | d != c :: At(d) == old(At(d))
      ensures closeConnection <==> outcome == SubsystemFails(true)
    {
      hide Inv, Moves, Closed, Run, StepOpen;
      ghost var w, idle := W(), pool.idleTimeout;
      RunOneMore(idle, log, DoOpen(c, outcome));
      StepSeen(w, idle, DoOpen(c, outcome));
      closeConnection := OpenSection(c, outcome);
      log := log + [DoOpen(c, outcome)];
      assert forall d :: At(d) == PcOf(W(), d);
    }

    // ---------- One caller among others ----------

    /** What the run so far shows of the caller. */
    ghost function Shown(c: Caller): seq<Action>
      reads this
    {
      ActionsIn(pool.idleTimeout, log, c)
    }

    /** An event of another caller, wherever that caller is. */
    method Other(c: Caller, e: Event)
      requires Valid() && !IsBy(e, c)
      modifies this, pool
      ensures Valid() && log == old(log) + [e]
      ensures At(c) == old(At(c)) && Shown(c) == old(Shown(c))
    {
      hide Run, ActionsIn, Moves, Inv;
      ActionsSnoc(pool.idleTimeout, log, e, c);
      assert Shown(c) + [] == Shown(c);
      if !e.DoOpen? {
        Act(e);
      } else if At(e.c).Opening? {
        var _ := ActOpen(e.c, e.outcome);
      } else {
        RunOneMore(pool.idleTimeout, log, e);
        log := log + [e];
      }
    }

    /** Between two sections of the caller the others do what they like. */
    method Yield(c: Caller, plan: Plan)
      requires Valid() && SparesCaller(plan, c)
      modifies this, pool
      ensures Valid() && old(log) <= log
      ensures At(c) == old(At(c)) && Shown(c) == old(Shown(c))
    {
      hide Run, ActionsIn, Inv, IsBy;
      var script := plan.others(|log|);
      for i := 0 to |script|
        invariant Valid() && old(log) <= log
        invariant At(c) == old(At(c)) && Shown(c) == old(Shown(c))
      {
        Other(c, script[i]);
      }
    }

    /** An event of the caller itself. */
    method Own(c: Caller, e: Event)
      requires Valid() && IsBy(e, c) && !e.DoOpen?
      modifies this, pool
      ensures Valid() && log == old(log) + [e]
      ensures Moves(old(At(c)), e, At(c))
      ensures Shown(c) == old(Shown(c)) + ActionIn(old(At(c)), e, At(c))
    {
      hide Run, ActionsIn, ActionIn, Moves, Inv;
      ActionsSnoc(pool.idleTimeout, log, e, c);
      ghost var w := W();
      Act(e);
      assert PcOf(w, c) == old(At(c)) && PcOf(W(), c) == At(c);
    }

    method OwnOpen(c: Caller, outcome: OpenOutcome) returns (closeConnection: bool)
      requires Valid() && At(c).Opening?
      modifies this, pool
      ensures Valid() && log == old(log) + [DoOpen(c, outcome)]
      ensures if outcome.Opens? then At(c).Pending? && At(c).key == old(At(c)).key else At(c) == Idle
      ensures Shown(c) == old(Shown(c))
      ensures closeConnection <==> outcome == SubsystemFails(true)
    {
      hide Run, ActionsIn, Inv;
      ActionsSnoc(pool.idleTimeout, log, DoOpen(c, outcome), c);
      ghost var w := W();
      closeConnection := ActOpen(c, outcome);
      assert PcOf(w, c) == old(At(c)) && PcOf(W(), c) == At(c);
      assert Shown(c) == old(Shown(c)) + [];
    }

    /**
     * insertOrUseConcurrentPooledClient: puts the caller's new client into the pool, or joins that of a faster
     * caller.
     */
    method InsertOrUseConcurrent(c: Caller, plan: Plan) returns (fromPool: bool)
      requires Valid() && SparesCaller(plan, c) && At(c).Pending?
      modifies this, pool
      ensures Valid() && old(log) <= log
      ensures At(c).Holding? && At(c).key == old(At(c)).key && Shown(c) == old(Shown(c)) + [Acquire]
    {
      hide Run, ActionsIn, Inv, SparesCaller, Valid, W, Shown, At;
      Own(c, DoInsert(c, plan.clock(|log|)));
      if At(c).Holding? {
        return false;
      }
      Yield(c, plan);
      Own(c, DoDiscard(c));
      Yield(c, plan);
      Own(c, DoJoin(c));
      return true;
    }

    /** getOrCreate: a client of the pool, or a new one, or that of a faster caller. */
    method GetOrCreate(c: Caller, key: Key, plan: Plan) returns (got: Got)
      requires Valid() && SparesCaller(plan, c) && At(c).Idle?
      modifies this, pool
      ensures Valid() && old(log) <= log
      ensures got.Client? ==> At(c).Holding? && At(c).key == key && Shown(c) == old(Shown(c)) + [Acquire]
      ensures got.Failed? ==> At(c).Idle? && Shown(c) == old(Shown(c)) && (got.closeConnection ==> got.err.closed)
    {
      hide Run, ActionsIn, Inv, SparesCaller, Valid, W, Shown, At;
      Yield(c, plan);
      Own(c, DoGet(c, key, plan.clock(|log|)));
      if At(c).Holding? {
        return Client(true);
      }
      Yield(c, plan);
      var outcome := plan.opening(|log|);
      var err := plan.error(|log|);
      var closeConnection := OwnOpen(c, outcome);
      if !outcome.Opens? {
        return Failed(if outcome.SubsystemFails? then err.(closed := outcome.closed) else err, closeConnection);
      }
      Yield(c, plan);
      var fromPool := InsertOrUseConcurrent(c, plan);
      return Client(fromPool);
    }

    /** After success: touch the key, then let go. */
    method Succeed(c: Caller, key: Key, plan: Plan)
      requires Valid() && SparesCaller(plan, c) && At(c).Holding?
      modifies this, pool
      ensures Valid() && old(log) <= log && At(c).Idle?
      ensures Shown(c) == old(Shown(c)) + [TouchKey] + [ReleaseRef]
    {
      hide Run, ActionsIn, Inv, SparesCaller, Valid, W, Shown, At;
      Own(c, DoTouch(c, key, plan.clock(|log|)));
      Yield(c, plan);
      Own(c, DoRelease(c));
      Yield(c, plan);
      Own(c, DoFinish(c));
    }

    /** After an error: let go, and evict the client if the connection was closed. */
    method Fail(c: Caller, closed: bool, plan: Plan)
      requires Valid() && SparesCaller(plan, c) && At(c).Holding?
      modifies this, pool
      ensures Valid() && old(log) <= log && At(c).Idle?
      ensures Shown(c) == old(Shown(c)) + [ReleaseRef] + if closed then [EvictClient] else []
    {
      hide Run, ActionsIn, Inv, SparesCaller, Valid, W, Shown, At;
      Own(c, DoRelease(c));
      Yield(c, plan);
      if closed {
        Own(c, DoEvict(c));
      } else {
        Own(c, DoFinish(c));
      }
    }

    /** One attempt that got a client: run the function, let go, and evict the client after a closed connection. */
    method UseClient(c: Caller, key: Key, fromPool: bool, plan: Plan) returns (fn: Option<Error>, acts: seq<Action>)
      requires Valid() && SparesCaller(plan, c) && At(c).Holding?
      modifies this, pool
      ensures Valid() && old(log) <= log && At(c).Idle?
      ensures [Acquire] + acts == Actions(Gets(fromPool, fn))
      ensures Shown(c) == old(Shown(c)) + OnPool(acts)
    {
      hide Run, ActionsIn, Inv, SparesCaller, OnPool, Valid, W, Shown, At;
      fn := plan.fn(|log|);
      acts := [RunFn(fn)];
      OnPoolRun(fn);
      Yield(c, plan);
      if fn.None? {
        Succeed(c, key, plan);
        OnPoolSnoc(acts, TouchKey);
        acts := acts + [TouchKey];
        OnPoolSnoc(acts, ReleaseRef);
        acts := acts + [ReleaseRef];
      } else {
        Fail(c, fn.value.closed, plan);
        OnPoolSnoc(acts, ReleaseRef);
        acts := acts + [ReleaseRef];
        if fn.value.closed {
          OnPoolSnoc(acts, EvictClient);
          acts := acts + [EvictClient];
          if fromPool {
            OnPoolSnoc(acts, CloseConnection);
            acts := acts + [CloseConnection];
          }
        }
      }
    }

    /**
     * WithSFTPClientFromPool, from the retry loop on. Whatever the others do in between, the caller ends outside
     * the pool and holds nothing; its attempts, its result and its actions are those of `met`; and the run shows
     * exactly these actions.
     */
    method WithClient(c: Caller, key: Key, maxAttempts: int, plan: Plan)
      returns (outcome: Outcome, trace: seq<Action>, met: seq<Attempt>)
      requires Valid() && SparesCaller(plan, c) && At(c).Idle?
      modifies this, pool
      ensures Valid() && old(log) <= log
      ensures At(c).Idle? && forall h :: c !in Holders(pcs, h)
      ensures Attempts(maxAttempts, met) && trace == TraceOf(met) && outcome == OutcomeOf(met)
      ensures Shown(c) == old(Shown(c)) + OnPool(trace)
    {
      hide Run, ActionsIn, Inv, SparesCaller, OnPool, Actions, TraceOf, Valid, W, Shown;
      trace, met := [], [];
      NothingMet();
      assert old(Shown(c)) + [] == Shown(c);
      while |met| < maxAttempts
        invariant Valid() && old(log) <= log && At(c).Idle?
        invariant |met| < maxAttempts || (maxAttempts < 1 && met == [])
        invariant trace == TraceOf(met) && forall i | 0 <= i < |met| :: Retries(met[i])
        invariant Shown(c) == old(Shown(c)) + OnPool(trace)
        decreases maxAttempts - |met|
      {
        var got := GetOrCreate(c, key, plan);
        match got {
          case Failed(err, closeConnection) =>
            TraceSnoc(met, GetFails(err, closeConnection));
            FailedActions(trace, err, closeConnection);
            met := met + [GetFails(err, closeConnection)];
            if closeConnection {
              trace := trace + [CloseConnection];
            }
            if err.closed && |met| < maxAttempts {
              continue;
            }
            return GetFailed(err), trace, met;
          case Client(fromPool) =>
            ghost var before := trace;
            trace := trace + [Acquire];
            var fn, acts := UseClient(c, key, fromPool, plan);
            TraceSnoc(met, Gets(fromPool, fn));
            UsedActions(before, acts);
            met := met + [Gets(fromPool, fn)];
            trace := trace + acts;
            if fn.None? {
              return Ok, trace, met;
            }
            if !fn.value.closed || !(|met| < maxAttempts) {
              return FnFailed(fn.value), trace, met;
            }
        }
      }
      return LoopExhausted, trace, met;
    }
  }

  lemma NothingMet()
    ensures TraceOf([]) == [] && OnPool([]) == []
  {
  }

  lemma OnPoolSnoc(acts: seq<Action>, a: Action)
    ensures OnPool(acts + [a]) == OnPool(acts) + if a.RunFn? || a.CloseConnection? then [] else [a]
  {
    assert (acts + [a])[..|acts|] == acts;
  }

  lemma OnPoolRun(fn: Option<Error>)
    ensures OnPool([RunFn(fn)]) == []
  {
    assert [RunFn(fn)][..0] == [];
  }

  lemma FailedActions(trace: seq<Action>, err: Error, closeConnection: bool)
    ensures var more := Actions(GetFails(err, closeConnection));
            trace + more == (if closeConnection then trace + [CloseConnection] else trace)
                && OnPool(trace + more) == OnPool(trace)
  {
    OnPoolSnoc(trace, CloseConnection);
    assert trace + [] == trace && OnPool(trace) + [] == OnPool(trace);
  }

  lemma UsedActions(trace: seq<Action>, acts: seq<Action>)
    ensures trace + ([Acquire] + acts) == trace + [Acquire] + acts
    ensures OnPool(trace + [Acquire] + acts) == OnPool(trace) + [Acquire] + OnPool(acts)
  {
    OnPoolSnoc(trace, Acquire);
    OnPoolConcat(trace + [Acquire], acts);
  }
}
