/**
 * Machine-lifecycle calls on a reply multiplexer that other callers and dispatchers use at the same time
 * (machine_lifecycle.go, reply_mux.go): a call is a series of steps, and between any two of them the others may do
 * anything.
 */
module ReplyCalls {
  import opened Options
  import opened ReplyMux

  const QUEUE := "machine-lifecycle"
  const LIFETIME := 15

  datatype Payload = Payload(requestId: RequestId, serverId: string)

  /** What is put on which queue: the request, and the time after which nobody need answer it. */
  datatype Task = Task(requestId: RequestId, queue: string, expiresAt: int)

  datatype CallResult = Parsed(data: string) | NotInitialized | EnqueueError | ParseError | CallTimedOut

  predicate IsBy(e: Event, c: Caller) {
    match e
    case DoRegister(d) => d == c
    case DoEnqueue(d, _) => d == c
    case DoReceive(d) => d == c
    case DoTimeout(d) => d == c
    case _ => false
  }

  lemma OthersLeaveCaller(s: State, idOf: Caller -> RequestId, e: Event, c: Caller)
    requires !IsBy(e, c)
    ensures PcOf(Step(s, idOf, e), c) == PcOf(s, c)
  {
  }

  /** The choices of a call, each by the length of the run so far: what the others do next, the clock, and outcomes. */
  datatype Plan = Plan(
    others: nat -> seq<Event>,
    clock: nat -> int,
    enqueues: nat -> bool,
    deadline: nat -> bool,
    parses: string -> bool)

  ghost predicate SparesCaller(plan: Plan, c: Caller) {
    forall n, e | e in plan.others(n) :: !IsBy(e, c)
  }

  /** How a caller's place in the protocol tells what its call returned. */
  predicate Reports(pc: Pc, plan: Plan, result: CallResult) {
    && pc.Returned?
    && match pc.result
       case Reply(data) => result == if plan.parses(data) then Parsed(data) else ParseError
       case TimedOut => result == CallTimedOut
       case EnqueueFailed => result == EnqueueError
  }

  /** The queue of a server, or the common one for a request that names none. */
  predicate ServersQueue(queue: string, serverId: string) {
    queue == if serverId == "" then "machine-lifecycle" else "machine-lifecycle" + "-" + serverId
  }

  /** The request id is the payload's, or the one drawn for it. */
  method TaskFor(payload: Payload, drawn: RequestId, now: int) returns (task: Task)
    ensures task.requestId == if payload.requestId == "" then drawn else payload.requestId
    ensures ServersQueue(task.queue, payload.serverId) && task.expiresAt == now + LIFETIME
  {
    var requestId := payload.requestId;
    if requestId == "" {
      requestId := drawn;
    }
    var queue := QUEUE;
    if payload.serverId != "" {
      queue := QUEUE + "-" + payload.serverId;
    }
    task := Task(requestId, queue, now + LIFETIME);
  }

  /** The multiplexer in use: where each caller and each dispatcher stands, and the run so far. */
  class Exchange {
    const mux: Multiplexer
    const idOf: Caller -> RequestId
    var pcs: map<Caller, Pc>
    var sends: map<Dispatcher, Sending>
    var log: seq<Event>
    ghost var sent: Log
    ghost var lost: Log

    ghost function S(): State
      reads this, mux
    {
      State(mux.waiters, mux.buffers, mux.next, pcs, sends, sent, lost)
    }

    ghost predicate Valid()
      reads this, mux
    {
      S() == After(idOf, log)
    }

    function At(c: Caller): Pc
      reads this`pcs
    {
      Where(pcs, c)
    }

    constructor (prefix: string, idOf: Caller -> RequestId)
      ensures Valid() && log == [] && this.idOf == idOf && mux.prefix == prefix && fresh(mux)
    {
      mux := new Multiplexer(prefix);
      this.idOf := idOf;
      pcs, sends, log, sent, lost := map[], map[], [], [], [];
    }

    // One method for each kind of event: the multiplexer's operation, and the caller's or dispatcher's move.

    method RegisterStep(c: Caller)
      requires At(c).Ready?
      modifies this`pcs, mux
      ensures S() == Register(old(S()), c, idOf(c))
    {
      var ch := mux.RegisterWaiter(idOf(c));
      pcs := pcs[c := Registered(ch)];
    }

    /** The caller returns, and its deferred removal of the waiter runs. */
    method ReturnStep(c: Caller, result: Result)
      modifies this`pcs, mux
      ensures S() == Return(old(S()), c, idOf(c), result)
    {
      pcs := pcs[c := Returned(result)];
      mux.RemoveWaiter(idOf(c));
    }

    method LookupStep(d: Dispatcher, id: RequestId, data: string)
      modifies this`sends, this`lost
      ensures S() == Lookup(old(S()), d, id, data)
    {
      var ch := mux.Load(id);
      if ch.Some? {
        sends := sends[d := Sending(id, ch.value, data)];
      } else {
        lost := lost + [(id, data)];
      }
    }

    method SendStep(d: Dispatcher)
      requires d in sends
      modifies this`sends, this`sent, mux
      ensures S() == Send(old(S()), d)
    {
      var m := sends[d];
      mux.Offer(m.ch, m.data);
      sends := sends - {d};
      sent := sent + [(m.id, m.data)];
    }

    method ReceiveStep(c: Caller)
      requires At(c).Enqueued?
      modifies this`pcs, mux
      ensures S() == Step(old(S()), idOf, DoReceive(c))
    {
      var data := mux.Receive(At(c).ch);
      if data.Some? {
        ReturnStep(c, Reply(data.value));
      }
    }

    /** Any event: what it stands for, if its caller or dispatcher is where that begins. */
    method Perform(e: Event)
      modifies this`pcs, this`sends, this`sent, this`lost, mux
      ensures S() == Step(old(S()), idOf, e)
    {
      hide Register, Return, Lookup, Send;
      match e {
        case DoRegister(c) => if At(c).Ready? { RegisterStep(c); }
        case DoEnqueue(c, ok) =>
          if At(c).Registered? {
            if ok {
              pcs := pcs[c := Enqueued(At(c).ch)];
            } else {
              ReturnStep(c, EnqueueFailed);
            }
          }
        case DoLookup(d, id, data) => if d !in sends { LookupStep(d, id, data); }
        case DoSend(d) => if d in sends { SendStep(d); }
        case DoReceive(c) => if At(c).Enqueued? { ReceiveStep(c); }
        case DoTimeout(c) => if At(c).Enqueued? { ReturnStep(c, TimedOut); }
      }
    }

    /** The same, noted in the run. */
    method Act(e: Event)
      requires Valid()
      modifies this, mux
      ensures Valid() && log == old(log) + [e]
      ensures S() == Step(old(S()), idOf, e)
    {
      hide Step, After;
      AfterSnoc(idOf, log, e);
      Perform(e);
      log := log + [e];
    }

    /** Between two steps of the caller, callers and dispatchers do what they like. */
    method Yield(c: Caller, plan: Plan)
      requires Valid() && SparesCaller(plan, c)
      modifies this, mux
      ensures Valid() && old(log) <= log && At(c) == old(At(c))
    {
      hide Step, After, IsBy;
      var script := plan.others(|log|);
      for i := 0 to |script|
        invariant Valid() && old(log) <= log && At(c) == old(At(c))
      {
        OthersLeaveCaller(S(), idOf, script[i], c);
        ghost var s := S();
        Act(script[i]);
        assert PcOf(S(), c) == At(c) && PcOf(s, c) == old(At(c));
      }
    }

    /** One of the caller's first two steps. */
    method Call(c: Caller, e: Event)
      requires Valid() && (e == DoRegister(c) || (e.DoEnqueue? && e.c == c))
      requires if e.DoRegister? then At(c).Ready? else At(c).Registered?
      modifies this, mux
      ensures Valid() && log == old(log) + [e]
      ensures e.DoRegister? ==> At(c).Registered?
      ensures e.DoEnqueue? && e.ok ==> At(c).Enqueued?
      ensures e.DoEnqueue? && !e.ok ==> At(c) == Returned(EnqueueFailed) && idOf(c) !in mux.waiters
    {
      hide After;
      Act(e);
    }

    /** The waiter is registered before the task is queued. */
    method RegisterAndEnqueue(c: Caller, plan: Plan) returns (ok: bool)
      requires Valid() && SparesCaller(plan, c) && At(c).Ready?
      modifies this, mux
      ensures Valid() && old(log) <= log
      ensures ok ==> At(c).Enqueued?
      ensures !ok ==> At(c) == Returned(EnqueueFailed) && idOf(c) !in mux.waiters
    {
      hide SparesCaller, Valid, S;
      Call(c, DoRegister(c));
      Yield(c, plan);
      ok := plan.enqueues(|log|);
      Call(c, DoEnqueue(c, ok));
    }

    /** The select of the call: a reply in the channel, unless the deadline has passed and is chosen. */
    method Select(c: Caller, plan: Plan) returns (result: CallResult)
      requires Valid() && At(c).Enqueued?
      modifies this, mux
      ensures Valid() && old(log) <= log && Reports(At(c), plan, result) && idOf(c) !in mux.waiters
      ensures !result.EnqueueError? && !result.NotInitialized?
      ensures DistinctIds(idOf) && !result.CallTimedOut? ==>
        && At(c).result.Reply? && FirstFor(sent, idOf(c)) == Some(At(c).result.data)
        && (result.Parsed? <==> plan.parses(At(c).result.data))
        && (result.Parsed? ==> result.data == At(c).result.data)
    {
      hide After, FirstFor, DistinctIds;
      var ch := At(c).ch;
      if ch in mux.buffers && mux.buffers[ch].Some? && !plan.deadline(|log|) {
        var data := mux.buffers[ch].value;
        Act(DoReceive(c));
        if DistinctIds(idOf) {
          OwnFirstReply(idOf, log, c, idOf(c));
          assert PcOf(S(), c) == At(c);
        }
        return if plan.parses(data) then Parsed(data) else ParseError;
      }
      Act(DoTimeout(c));
      return CallTimedOut;
    }

    /**
     * ExecuteMachineLifecycle, among any other callers and dispatchers. The waiter is registered before the task is
     * queued, and is gone when the call returns; the call reports its place in the protocol; and when the request
     * ids are pairwise distinct, a reply it returns is the first one sent for its own request.
     */
    method ExecuteMachineLifecycle(initialized: bool, c: Caller, payload: Payload, drawn: RequestId, plan: Plan)
      returns (result: CallResult, task: Option<Task>)
      requires Valid() && SparesCaller(plan, c) && At(c).Ready?
      requires idOf(c) == if payload.requestId == "" then drawn else payload.requestId
      modifies this, mux
      ensures Valid() && old(log) <= log
      ensures !initialized ==> result.NotInitialized? && task == None && log == old(log)
      ensures initialized ==> Reports(At(c), plan, result) && idOf(c) !in mux.waiters
      ensures initialized ==>
        && task.Some? && task.value.requestId == idOf(c) && ServersQueue(task.value.queue, payload.serverId)
        && exists n | |old(log)| <= n <= |log| :: task.value.expiresAt == plan.clock(n) + LIFETIME
      ensures DistinctIds(idOf) && (result.Parsed? || result.ParseError?) ==>
        && At(c).result.Reply? && FirstFor(sent, idOf(c)) == Some(At(c).result.data)
        && (result.Parsed? <==> plan.parses(At(c).result.data))
        && (result.Parsed? ==> result.data == At(c).result.data)
    {
      hide After, Step, SparesCaller, FirstFor, DistinctIds, Valid, S, ServersQueue;
      if !initialized {
        return NotInitialized, None;
      }
      Yield(c, plan);
      var t := TaskFor(payload, drawn, plan.clock(|log|));
      task := Some(t);
      var ok := RegisterAndEnqueue(c, plan);
      if ok {
        Yield(c, plan);
        result := Select(c, plan);
      } else {
        result := EnqueueError;
      }
    }
  }
}
