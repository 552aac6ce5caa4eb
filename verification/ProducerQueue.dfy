/** The cache of producer queues: double-checked locking under a read-write lock (queue/init.go). */
module ProducerQueue {
  import opened Options

  /** A queue registered with the producer factory; `serial` is its place among all registrations. */
  datatype Queue = Queue(name: string, serial: nat)

  // ---------- The cache ----------

  /** The shared map. `registered` lists the names given to the factory, one entry for each registration. */
  class Cache {
    var queues: map<string, Queue>
    var registered: seq<string>

    ghost function Abstract(): Shared
      reads this
    {
      Shared(queues, registered)
    }

    constructor ()
      ensures Abstract() == Shared(map[], [])
    {
      queues, registered := map[], [];
    }

    /** The section under the read lock. */
    method Lookup(name: string) returns (found: Option<Queue>)
      ensures found == Cached(Abstract(), name)
    {
      if name in queues {
        return Some(queues[name]);
      }
      return None;
    }

    /** The section under the write lock: look again, and register only a name that is still missing. */
    method LookupOrRegister(name: string) returns (q: Queue)
      modifies this
      ensures (q, Abstract()) == Obtain(old(Abstract()), name)
    {
      if name in queues {
        return queues[name];
      }
      q := Queue(name, |registered|);
      registered := registered + [name];
      queues := queues[name := q];
    }

    /** One caller undisturbed: the two sections in turn. */
    method GetOrCreateProducerQueue(name: string) returns (q: Queue)
      modifies this
      ensures (q, Abstract()) == Obtain(old(Abstract()), name)
    {
      var found := Lookup(name);
      if found.Some? {
        return found.value;
      }
      q := LookupOrRegister(name);
    }
  }

  datatype Shared = Shared(queues: map<string, Queue>, registered: seq<string>)

  function Cached(s: Shared, name: string): Option<Queue> {
    if name in s.queues then Some(s.queues[name]) else None
  }

  function Obtain(s: Shared, name: string): (Queue, Shared) {
    if name in s.queues then (s.queues[name], s)
    else
      var q := Queue(name, |s.registered|);
      (q, Shared(s.queues[name := q], s.registered + [name]))
  }

  // ---------- Any number of callers ----------

  /** Where a caller is: before its read section, between its sections after a miss, or back with a queue. */
  datatype Caller = Called(name: string) | Missed(name: string) | Returned(name: string, q: Queue)

  datatype State = State(shared: Shared, callers: map<int, Caller>)

  /** A caller arrives, runs its read section, or runs its write section; sections exclude each other. */
  datatype Step = Call(id: int, name: string) | ReadSection(id: int) | WriteSection(id: int)

  predicate Enabled(s: State, step: Step) {
    match step
    case Call(id, _) => id !in s.callers
    case ReadSection(id) => id in s.callers && s.callers[id].Called?
    case WriteSection(id) => id in s.callers && s.callers[id].Missed?
  }

  function Next(s: State, step: Step): State
    requires Enabled(s, step)
  {
    match step
    case Call(id, name) => s.(callers := s.callers[id := Called(name)])
    case ReadSection(id) =>
      var name := s.callers[id].name;
      var found := Cached(s.shared, name);
      s.(callers := s.callers[id := if found.Some? then Returned(name, found.value) else Missed(name)])
    case WriteSection(id) =>
      var name := s.callers[id].name;
      var (q, shared) := Obtain(s.shared, name);
      State(shared, s.callers[id := Returned(name, q)])
  }

  const START := State(Shared(map[], []), map[])

  predicate Runs(s: State, steps: seq<Step>)
    decreases |steps|
  {
    steps == [] || (Enabled(s, steps[0]) && Runs(Next(s, steps[0]), steps[1..]))
  }

  function After(s: State, steps: seq<Step>): State
    requires Runs(s, steps)
    decreases |steps|
  {
    if steps == [] then s else After(Next(s, steps[0]), steps[1..])
  }

  /** Every cached queue is the registration its serial number points at, and every registration is cached. */
  ghost predicate OneQueueEach(s: Shared) {
    && (forall name | name in s.queues ::
          var q := s.queues[name]; q.name == name && q.serial < |s.registered| && s.registered[q.serial] == name)
    && (forall k | 0 <= k < |s.registered| ::
          s.registered[k] in s.queues && s.queues[s.registered[k]].serial == k)
  }

  ghost predicate Holds(s: State) {
    forall id | id in s.callers && s.callers[id].Returned? ::
      Cached(s.shared, s.callers[id].name) == Some(s.callers[id].q)
  }

  ghost predicate Inv(s: State) {
    OneQueueEach(s.shared) && Holds(s)
  }

  lemma ObtainKeeps(s: Shared, name: string)
    requires OneQueueEach(s)
    ensures var (q, after) := Obtain(s, name);
            && OneQueueEach(after) && Cached(after, name) == Some(q)
            && forall other | other in s.queues :: Cached(after, other) == Cached(s, other)
  {
    if name !in s.queues {
      var after := Obtain(s, name).1;
      assert forall k | 0 <= k < |s.registered| :: s.registered[k] != name && after.registered[k] == s.registered[k];
    }
  }

  lemma StepKeeps(s: State, step: Step)
    requires Inv(s) && Enabled(s, step)
    ensures Inv(Next(s, step))
  {
    hide OneQueueEach;
    if step.WriteSection? {
      ObtainKeeps(s.shared, s.callers[step.id].name);
    }
  }

  lemma {:induction false} RunKeeps(s: State, steps: seq<Step>)
    requires Inv(s) && Runs(s, steps)
    ensures Inv(After(s, steps))
    decreases |steps|
  {
    hide Inv, Next, Enabled;
    if steps != [] {
      StepKeeps(s, steps[0]);
      RunKeeps(Next(s, steps[0]), steps[1..]);
    }
  }

  /**
   * However the callers interleave, the factory sees each name at most once, and two callers hold the same queue
   * exactly when they asked for the same name.
   */
  lemma RegisteredOnce(steps: seq<Step>)
    requires Runs(START, steps)
    ensures var s := After(START, steps);
            && (forall i, j | 0 <= i < j < |s.shared.registered| :: s.shared.registered[i] != s.shared.registered[j])
            && (forall a, b | a in s.callers && b in s.callers && s.callers[a].Returned? && s.callers[b].Returned? ::
                  s.callers[a].q == s.callers[b].q <==> s.callers[a].name == s.callers[b].name)
            && (forall a | a in s.callers && s.callers[a].Returned? :: s.callers[a].name in s.shared.registered)
  {
    hide Runs, After;
    RunKeeps(START, steps);
    var s := After(START, steps);
    forall i, j | 0 <= i < j < |s.shared.registered| ensures s.shared.registered[i] != s.shared.registered[j] {
      assert s.shared.queues[s.shared.registered[i]].serial == i && s.shared.queues[s.shared.registered[j]].serial == j;
    }
  }

  /** In a run, what a caller has done tells where it is, whatever the others did in between. */
  lemma {:induction false} ProgressExact(s: State, steps: seq<Step>, id: int)
    requires Runs(s, steps) && id in s.callers
    ensures var before, now := s.callers[id], After(s, steps).callers;
            && id in now && now[id].name == before.name
            && (before.Returned? ==> now[id] == before)
            && (before.Called? ==> (now[id].Called? <==> ReadSection(id) !in steps))
            && (!before.Returned? && WriteSection(id) in steps ==> now[id].Returned?)
            && (before.Missed? && WriteSection(id) !in steps ==> now[id] == before)
    decreases |steps|
  {
    hide Obtain;
    if steps != [] {
      ProgressExact(Next(s, steps[0]), steps[1..], id);
      assert steps == [steps[0]] + steps[1..];
    }
  }
}
