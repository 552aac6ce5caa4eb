/** The SFTP pool as the object the callers share, and the discipline of one caller's actions on it. */
module SftpClient {
  import opened Options
  import opened SftpPool

  /**
   * One method per section of code that runs without giving up the pool's lock (or touches only one atomic
   * counter).
   */
  class Pool {
    const idleTimeout: int
    var clients: map<Key, Handle>
    var entries: map<Handle, Entry>
    var next: Handle
    var opens: set<Handle>
    var closes: multiset<Handle>
    var borrows: set<Handle>
    var releases: multiset<Handle>
    var stale: set<Handle>

    function Abs(): Shared
      reads this
    {
      Shared(clients, entries, next, opens, closes, borrows, releases, stale)
    }

    constructor (idleTimeout: int)
      ensures this.idleTimeout == idleTimeout && Abs() == EMPTY
    {
      this.idleTimeout := idleTimeout;
      clients, entries, next := map[], map[], 0;
      opens, closes, borrows, releases, stale := {}, multiset{}, {}, multiset{}, {};
    }

    method CloseHandle(h: Handle)
      modifies this`closes
      ensures Abs() == CloseClient(old(Abs()), h)
    {
      closes := closes + multiset{h};
    }

    method ReleaseSsh(h: Handle, borrowed: bool)
      modifies this`releases
      ensures Abs() == SshRelease(old(Abs()), h, borrowed)
    {
      if borrowed {
        releases := releases + multiset{h};
      }
    }

    method AddToCount(h: Handle, delta: int)
      requires h in entries
      modifies this`entries
      ensures Abs() == AddUse(old(Abs()), h, delta)
    {
      entries := entries[h := entries[h].(inUse := entries[h].inUse + delta)];
    }

    /** tryAcquirePooledClient, under the lock. */
    method TryAcquire(h: Handle, now: int) returns (ok: bool)
      requires h in entries
      modifies this`entries
      ensures ok <==> Reusable(old(entries)[h], idleTimeout, now)
      ensures Abs() == if ok then AddUse(old(Abs()), h, 1) else old(Abs())
    {
      if entries[h].inUse > 0 {
        AddToCount(h, 1);
        return true;
      }
      if now - entries[h].lastUsed <= idleTimeout {
        AddToCount(h, 1);
        return true;
      }
      return false;
    }

    /** The first locked section of getOrCreate. */
    method GetLocked(key: Key, now: int) returns (got: Option<Handle>)
      requires Closed(Abs())
      modifies this`clients, this`entries, this`closes, this`stale
      ensures (Abs(), got) == Get(old(Abs()), key, idleTimeout, now)
    {
      if key in clients {
        var h := clients[key];
        var reuse := TryAcquire(h, now);
        if reuse {
          return Some(h);
        }
        stale := if entries[h].borrowed then stale + {h} else stale;
        CloseHandle(h);
        clients := clients - {key};
      }
      return None;
    }

    /**
     * openNewPooledSftpClient, outside the lock; the handle it returns, if any, is the caller's own.
     * `closeConnection` says that the SSH manager's connection is closed, after a closed-connection error of the
     * subsystem.
     */
    method OpenNew(outcome: OpenOutcome) returns (own: Option<Handle>, closeConnection: bool)
      modifies this`next, this`opens, this`borrows, this`releases
      ensures Abs() == Open(old(Abs()), outcome)
      ensures own == if outcome.Opens? then Some(old(next)) else None
      ensures closeConnection <==> outcome == SubsystemFails(true)
    {
      closeConnection := false;
      match outcome {
        case BorrowFails =>
          return None, false;
        case SubsystemFails(closed) =>
          var h := next;
          borrows := borrows + {h};
          next := next + 1;
          ReleaseSsh(h, true);
          return None, closed;
        case Opens(borrowed) =>
          var h := next;
          opens := opens + {h};
          if borrowed {
            borrows := borrows + {h};
          }
          next := next + 1;
          return Some(h), false;
      }
    }

    /** The second locked section of getOrCreate: the entry of a faster caller, or None after inserting. */
    method InsertLocked(key: Key, h: Handle, borrowed: bool, now: int) returns (existing: Option<Handle>)
      modifies this`clients, this`entries
      ensures (Abs(), existing) == Insert(old(Abs()), key, h, borrowed, now)
    {
      if key in clients {
        return Some(clients[key]);
      }
      entries := entries[h := Entry(now, 1, borrowed)];
      clients := clients[key := h];
      return None;
    }

    method DiscardOwn(h: Handle, borrowed: bool)
      modifies this`closes, this`releases
      ensures Abs() == Discard(old(Abs()), h, borrowed)
    {
      ReleaseSsh(h, borrowed);
      CloseHandle(h);
    }

    method TouchLocked(key: Key, now: int)
      requires Closed(Abs())
      modifies this`entries
      ensures Abs() == Touch(old(Abs()), key, now)
    {
      if key in clients {
        entries := entries[clients[key] := entries[clients[key]].(lastUsed := now)];
      }
    }

    /** releaseAndClosePooledEntry, under the lock. */
    method ReleaseAndClose(key: Key)
      requires key in clients && clients[key] in entries
      modifies this`clients, this`closes, this`releases
      ensures Abs() == DropEntry(old(Abs()), key)
    {
      var h := clients[key];
      ReleaseSsh(h, entries[h].borrowed);
      CloseHandle(h);
      clients := clients - {key};
    }

    method EvictLocked(key: Key, h: Handle)
      requires Closed(Abs())
      modifies this`clients, this`closes, this`releases
      ensures Abs() == Evict(old(Abs()), key, h)
    {
      if key !in clients || clients[key] != h {
        return;
      }
      ReleaseAndClose(key);
    }

    method EvictOrgLocked(key: Key)
      requires Closed(Abs())
      modifies this`clients, this`closes, this`releases
      ensures Abs() == EvictOrg(old(Abs()), key)
    {
      if key in clients {
        ReleaseAndClose(key);
      }
    }
  }

  // ---------- What one caller does ----------

  /** An error, and whether it is a closed-connection error. */
  datatype Error = Error(text: string, closed: bool)

  /**
   * What one attempt meets: getOrCreate fails, perhaps closing the SSH connection, or gives a client on which the
   * caller's function is run.
   */
  datatype Attempt = GetFails(err: Error, closeConnection: bool) | Gets(fromPool: bool, fn: Option<Error>)

  datatype Action = Acquire | RunFn(result: Option<Error>) | TouchKey | ReleaseRef | EvictClient | CloseConnection

  datatype Outcome = Ok | FnFailed(err: Error) | GetFailed(err: Error) | LoopExhausted

  /** Where the caller stands after its actions: see Next. */
  datatype Phase = Free | Holds | Ran(result: Option<Error>) | Touched | LetGo(result: Option<Error>) | PutAway

  /**
   * The discipline of one caller: acquire, run, release, in that order; the key is touched only after success and while
   * still holding; the client is evicted only after a closed-connection error and the release.
   */
  function Next(phase: Phase, a: Action): Option<Phase> {
    match (phase, a)
    case (Free, Acquire) => Some(Holds)
    case (LetGo(r), Acquire) => None
    case (PutAway, Acquire) => Some(Holds)
    case (Holds, RunFn(r)) => Some(Ran(r))
    case (Ran(None), TouchKey) => Some(Touched)
    case (Ran(Some(err)), ReleaseRef) => Some(LetGo(Some(err)))
    case (Touched, ReleaseRef) => Some(LetGo(None))
    case (LetGo(Some(err)), EvictClient) => if err.closed then Some(PutAway) else None
    case (PutAway, CloseConnection) => Some(Free)
    case (Free, CloseConnection) => Some(Free)
    case _ => None
  }

  function Then(phase: Option<Phase>, a: Action): Option<Phase> {
    match phase
    case None => None
    case Some(before) => Next(before, a)
  }

  /** The phase after some actions; None if they break the discipline. */
  function From(phase: Option<Phase>, acts: seq<Action>): Option<Phase> {
    if acts == [] then phase else Then(From(phase, acts[..|acts| - 1]), acts[|acts| - 1])
  }

  function After(trace: seq<Action>): Option<Phase> {
    From(Some(Free), trace)
  }

  function FnRuns(trace: seq<Action>): seq<Option<Error>> {
    if trace == [] then []
    else
      var last := trace[|trace| - 1];
      FnRuns(trace[..|trace| - 1]) + if last.RunFn? then [last.result] else []
  }

  /** References acquired and not released. */
  function Outstanding(trace: seq<Action>): int {
    if trace == [] then 0
    else
      var last := trace[|trace| - 1];
      Outstanding(trace[..|trace| - 1]) + if last == Acquire then 1 else if last == ReleaseRef then -1 else 0
  }

  lemma OneMore(phase: Option<Phase>, acts: seq<Action>, a: Action)
    ensures From(phase, acts + [a]) == Then(From(phase, acts), a)
    ensures FnRuns(acts + [a]) == FnRuns(acts) + if a.RunFn? then [a.result] else []
  {
    assert (acts + [a])[..|acts|] == acts;
  }

  lemma NoMore(phase: Option<Phase>)
    ensures From(phase, []) == phase && FnRuns([]) == []
  {
  }

  lemma {:induction false} ActsConcat(phase: Option<Phase>, a: seq<Action>, b: seq<Action>)
    ensures From(phase, a + b) == From(From(phase, a), b)
    ensures FnRuns(a + b) == FnRuns(a) + FnRuns(b)
    decreases |b|
  {
    hide Then, From, FnRuns;
    if b == [] {
      assert a + b == a;
      NoMore(From(phase, a));
    } else {
      var front, last := b[..|b| - 1], b[|b| - 1];
      ActsConcat(phase, a, front);
      assert a + b == (a + front) + [last] && b == front + [last];
      OneMore(phase, a + front, last);
      OneMore(From(phase, a), front, last);
    }
  }

  lemma ShortActs(phase: Option<Phase>, a: Action, b: Action, c: Action)
    ensures From(phase, [a]) == Then(phase, a)
    ensures From(phase, [a, b]) == Then(Then(phase, a), b)
    ensures From(phase, [a, b, c]) == Then(Then(Then(phase, a), b), c)
    ensures !b.RunFn? && !c.RunFn? ==>
      var runs := if a.RunFn? then [a.result] else [];
      FnRuns([a]) == runs && FnRuns([a, b]) == runs && FnRuns([a, b, c]) == runs
  {
    hide Then, From, FnRuns;
    NoMore(phase);
    OneMore(phase, [], a);
    OneMore(phase, [a], b);
    OneMore(phase, [a, b], c);
    assert [] + [a] == [a] && [a] + [b] == [a, b] && [a, b] + [c] == [a, b, c];
  }

  // ---------- What the attempts of a call do ----------

  /** An attempt after which the loop tries again, if it may. */
  predicate Retries(a: Attempt) {
    match a
    case GetFails(err, _) => err.closed
    case Gets(_, fn) => fn.Some? && fn.value.closed
  }

  function Actions(a: Attempt): seq<Action> {
    match a
    case GetFails(_, closeConnection) => if closeConnection then [CloseConnection] else []
    case Gets(_, None) => [Acquire, RunFn(None), TouchKey, ReleaseRef]
    case Gets(fromPool, Some(err)) =>
      [Acquire, RunFn(Some(err)), ReleaseRef]
      + (if err.closed then [EvictClient] else [])
      + (if err.closed && fromPool then [CloseConnection] else [])
  }

  function TraceOf(met: seq<Attempt>): seq<Action> {
    if met == [] then [] else TraceOf(met[..|met| - 1]) + Actions(met[|met| - 1])
  }

  lemma TraceSnoc(met: seq<Attempt>, a: Attempt)
    ensures TraceOf(met + [a]) == TraceOf(met) + Actions(a)
  {
    assert (met + [a])[..|met|] == met;
  }

  /** The attempts of a call: up to the first that is not to be repeated, or the last allowed. */
  predicate Attempts(maxAttempts: int, met: seq<Attempt>) {
    if maxAttempts < 1 then met == []
    else
      && 1 <= |met| <= maxAttempts && (forall i | 0 <= i < |met| - 1 :: Retries(met[i]))
      && (|met| < maxAttempts ==> !Retries(met[|met| - 1]))
  }

  /** What the call returns: what its last attempt came to. */
  function OutcomeOf(met: seq<Attempt>): Outcome {
    if met == [] then LoopExhausted
    else
      match met[|met| - 1]
      case GetFails(err, _) => GetFailed(err)
      case Gets(_, None) => Ok
      case Gets(_, Some(err)) => FnFailed(err)
  }

  // ---------- What that means for the caller and the pool ----------

  /** Nothing is held, and what failed was put away. */
  predicate EndsReleased(phase: Option<Phase>) {
    phase.Some? && (phase.value.Free? || phase.value.LetGo? || phase.value.PutAway?)
  }

  /** One attempt keeps the discipline; when it is to be repeated, the caller may acquire again. */
  lemma AttemptKeeps(phase: Option<Phase>, a: Attempt)
    requires phase == Some(Free) || phase == Some(PutAway)
    ensures var after := From(phase, Actions(a));
            EndsReleased(after) && (Retries(a) ==> after == Some(Free) || after == Some(PutAway))
    ensures FnRuns(Actions(a)) == if a.Gets? then [a.fn] else []
  {
    hide From, FnRuns;
    NoMore(phase);
    if a.GetFails? {
      ShortActs(phase, CloseConnection, CloseConnection, CloseConnection);
    } else {
      RunsOnce(phase, a.fn);
      var ran := From(phase, [Acquire, RunFn(a.fn)]);
      ShortActs(ran, TouchKey, ReleaseRef, ReleaseRef);
      ShortActs(ran, ReleaseRef, EvictClient, CloseConnection);
      var rest := if a.fn.None? then [TouchKey, ReleaseRef]
                  else if !a.fn.value.closed then [ReleaseRef]
                  else if a.fromPool then [ReleaseRef, EvictClient, CloseConnection]
                  else [ReleaseRef, EvictClient];
      assert Actions(a) == [Acquire, RunFn(a.fn)] + rest;
      ActsConcat(phase, [Acquire, RunFn(a.fn)], rest);
    }
  }

  lemma RunsOnce(phase: Option<Phase>, fn: Option<Error>)
    requires phase == Some(Free) || phase == Some(PutAway)
    ensures From(phase, [Acquire, RunFn(fn)]) == Some(Ran(fn)) && FnRuns([Acquire, RunFn(fn)]) == [fn]
  {
    hide From, FnRuns;
    ShortActs(phase, Acquire, RunFn(fn), Acquire);
    ShortActs(phase, RunFn(fn), Acquire, Acquire);
    ActsConcat(phase, [Acquire], [RunFn(fn)]);
    ShortActs(phase, Acquire, Acquire, Acquire);
    assert [Acquire] + [RunFn(fn)] == [Acquire, RunFn(fn)];
  }

  /** The runs of the function in some attempts. */
  function RunsOf(met: seq<Attempt>): seq<Option<Error>> {
    if met == [] then []
    else
      var last := met[|met| - 1];
      RunsOf(met[..|met| - 1]) + if last.Gets? then [last.fn] else []
  }

  lemma {:induction false} TraceKeeps(met: seq<Attempt>)
    requires forall i | 0 <= i < |met| - 1 :: Retries(met[i])
    ensures EndsReleased(After(TraceOf(met))) && FnRuns(TraceOf(met)) == RunsOf(met)
    ensures met == [] || Retries(met[|met| - 1])
        ==> After(TraceOf(met)) == Some(Free) || After(TraceOf(met)) == Some(PutAway)
    decreases |met|
  {
    hide FnRuns, From, Actions, Retries;
    NoMore(Some(Free));
    if met != [] {
      var front, last := met[..|met| - 1], met[|met| - 1];
      TraceKeeps(front);
      ActsConcat(Some(Free), TraceOf(front), Actions(last));
      AttemptKeeps(After(TraceOf(front)), last);
    }
  }

  /**
   * Whatever the attempts meet: the caller keeps the discipline and ends with nothing held; the function runs at
   * most once an attempt, so at most maxAttempts times, and again only after a closed-connection error; nil is
   * returned exactly when the last run returned nil; an error is that of the last run or of the last attempt to get
   * a client; and the error after the loop is returned exactly when the
   * bound is below one.
   */
  lemma CallKeepsPromises(maxAttempts: int, met: seq<Attempt>)
    requires Attempts(maxAttempts, met)
    ensures var trace := TraceOf(met); var runs := FnRuns(trace);
            && EndsReleased(After(trace))
            && |runs| <= (if maxAttempts < 1 then 0 else maxAttempts)
            && (forall i | 0 <= i < |runs| - 1 :: runs[i].Some? && runs[i].value.closed)
            && (OutcomeOf(met) == Ok <==> runs != [] && runs[|runs| - 1] == None)
            && (OutcomeOf(met) == LoopExhausted <==> maxAttempts < 1)
            && (OutcomeOf(met).FnFailed? ==> runs != [] && runs[|runs| - 1] == Some(OutcomeOf(met).err))
            && (OutcomeOf(met).GetFailed? <==> met != [] && met[|met| - 1].GetFails?)
            && (OutcomeOf(met).GetFailed? ==> OutcomeOf(met).err == met[|met| - 1].err)
  {
    hide After, FnRuns;
    TraceKeeps(met);
    if met != [] {
      ClosedRuns(met[..|met| - 1]);
    }
  }

  lemma {:induction false} ClosedRuns(met: seq<Attempt>)
    requires forall i | 0 <= i < |met| :: Retries(met[i])
    ensures |RunsOf(met)| <= |met|
    ensures forall i | 0 <= i < |RunsOf(met)| :: RunsOf(met)[i].Some? && RunsOf(met)[i].value.closed
    decreases |met|
  {
    if met != [] {
      ClosedRuns(met[..|met| - 1]);
    }
  }

  /** A disciplined caller never has more than one reference, and has one exactly between acquiring and releasing. */
  lemma {:induction false} OutstandingExact(trace: seq<Action>)
    requires After(trace).Some?
    ensures var phase := After(trace).value;
            Outstanding(trace) == if phase.Holds? || phase.Ran? || phase.Touched? then 1 else 0
    decreases |trace|
  {
    if trace != [] {
      OutstandingExact(trace[..|trace| - 1]);
    }
  }

  // ---------- What the attempts cost ----------

  predicate GetsClient(a: Attempt) {
    a.Gets?
  }

  predicate Succeeds(a: Attempt) {
    a.Gets? && a.fn.None?
  }

  predicate LosesClient(a: Attempt) {
    a.Gets? && a.fn.Some? && a.fn.value.closed
  }

  /** The connection below is given up: a client of the pool was on it, or none could be opened on it. */
  predicate LosesConnection(a: Attempt) {
    if a.Gets? then LosesClient(a) && a.fromPool else a.closeConnection
  }

  function HowMany(met: seq<Attempt>, which: Attempt -> bool): nat {
    if met == [] then 0
    else HowMany(met[..|met| - 1], which) + if which(met[|met| - 1]) then 1 else 0
  }

  function Times(acts: seq<Action>, a: Action): nat {
    multiset(acts)[a]
  }

  lemma TimesConcat(acts: seq<Action>, more: seq<Action>, a: Action)
    ensures Times(acts + more, a) == Times(acts, a) + Times(more, a)
  {
  }

  /**
   * Each client gotten is acquired and released once; the key is touched once for each success, the client evicted
   * once for each that was lost, and the connection closed once for each that was lost.
   */
  lemma {:induction false} ActionsCounted(met: seq<Attempt>)
    ensures var trace := TraceOf(met);
            && Times(trace, Acquire) == Times(trace, ReleaseRef) == HowMany(met, GetsClient)
            && Times(trace, TouchKey) == HowMany(met, Succeeds)
            && Times(trace, EvictClient) == HowMany(met, LosesClient)
            && Times(trace, CloseConnection) == HowMany(met, LosesConnection)
    decreases |met|
  {
    hide Times, Actions;
    if met == [] {
      forall a ensures Times([], a) == 0 {
        NoTimes(a);
      }
    } else {
      var front, last := met[..|met| - 1], met[|met| - 1];
      ActionsCounted(front);
      ActionsOfOne(last);
      forall a ensures Times(TraceOf(met), a) == Times(TraceOf(front), a) + Times(Actions(last), a) {
        TimesConcat(TraceOf(front), Actions(last), a);
      }
    }
  }

  lemma NoTimes(a: Action)
    ensures Times([], a) == 0
  {
  }

  ghost predicate Costs(a: Attempt) {
    var acts := Actions(a);
    && Times(acts, Acquire) == Times(acts, ReleaseRef) == (if GetsClient(a) then 1 else 0)
    && Times(acts, TouchKey) == (if Succeeds(a) then 1 else 0)
    && Times(acts, EvictClient) == (if LosesClient(a) then 1 else 0)
    && Times(acts, CloseConnection) == (if LosesConnection(a) then 1 else 0)
  }

  lemma ActionsOfOne(a: Attempt)
    ensures Costs(a)
  {
    hide Costs;
    match a {
      case GetFails(_, _) => FailureCosts(a);
      case Gets(_, None) => SuccessCosts(a);
      case Gets(_, Some(_)) => LossCosts(a);
    }
  }

  lemma FailureCosts(a: Attempt)
    requires a.GetFails?
    ensures Costs(a)
  {
  }

  lemma SuccessCosts(a: Attempt)
    requires a.Gets? && a.fn.None?
    ensures Costs(a)
  {
  }

  lemma LossCosts(a: Attempt)
    requires a.Gets? && a.fn.Some?
    ensures Costs(a)
  {
  }
}
