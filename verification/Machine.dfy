/** Many coroutines, one client: the asyncio program as run-to-completion steps.

    connect() may be called any number of times, also while another call of it is
    under way. Each call makes a core of its own and stores it in the client, so
    the cores are numbered in order of creation: the client drives the latest, and
    a task keeps using the one it took hold of when it began.

    A task is one call of an awaitable method. Tasks give up control only at the
    two set-up awaits of connect() and at `await asyncio.wait_for(fut, remaining)`
    inside `_wait`; everything between two such points is one `Turn`, or a chain
    of turns that no other step can interrupt (`running`). The environment
    chooses the interleaving, the clock, the library's answers, cancellations. */
module Machine {
  import opened Prelude
  import opened Engine
  import opened Glue
  import opened GlueInvariant
  import opened Binding
  import opened AttemptFacts
  import opened Driver

  datatype Call =
    | Connect(path: string, headers: seq<Header>)
    | ReadCall(id: StreamId, maxBytes: nat)
    | WriteCall(id: StreamId, data: Bytes, fin: bool)
    | OpenCall(unidirectional: bool)
    | AcceptCall(unidirectional: bool)
    | SendDatagramCall(data: Bytes)
    | ReceiveDatagramCall
    | RequestCall(headers: seq<Header>, body: Bytes, fin: bool)

  datatype Outcome = Returned(value: Val) | Failed(exc: Exc, message: string)

  datatype Phase =
    | Resolving                                     // awaiting getaddrinfo
    | Attaching                                     // awaiting create_datagram_endpoint
    | Ready                                         // about to run the top of `_wait`
    | Parked(future: nat, wakeAt: Option<int>)      // awaiting wait_for
    | Finished(outcome: Outcome, at: int)

  datatype Interrupt = Calm | Expired | CancelRequested

  /** stage     how many of the call's waits have returned
      since     when the current wait began;  began: when the first one did, None if none has
      tries     attempts made in the current wait;  triedAt: event count at the last one
      stream    the id a request was given
      on        which core its attempts go to, once it has one
      grants    history: where in the log each completed stage is recorded */
  datatype Task = Task(
    call: Call, timeout: Option<int>, stage: nat, phase: Phase, since: int, began: Option<int>,
    tries: nat, triedAt: nat, interrupt: Interrupt, stream: StreamId, on: Option<nat>, grants: seq<nat>)

  /** One attempt that returned a value: the effects the library has accepted, in order. */
  datatype Entry = Entry(task: nat, stage: nat, on: nat, op: Op, value: Val)

  datatype Sys = Sys(
    kind: Kind,
    d: Client,
    tasks: seq<Task>,
    owners: map<nat, nat>,      // which task created a future
    running: Option<nat>,
    retired: seq<Core>,         // the cores that the client has replaced
    starters: seq<nat>,         // history: which task made each core
    replaced: seq<Transport>,   // history: the transports that the client has replaced
    events: nat,                // start, packets and timeouts that cores have processed
    log: seq<Entry>)

  function Init(kind: Kind, now: int): Sys
  {
    Sys(kind, NewClient(now), [], map[], None, [], [], [], 0, [])
  }

  // ----- cores

  function Cores(s: Sys): nat { |s.retired| + if s.d.core.Some? then 1 else 0 }

  function CoreAt(s: Sys, g: nat): Core
    requires g < Cores(s)
  {
    if g < |s.retired| then s.retired[g] else s.d.core.value
  }

  function SetCore(s: Sys, g: nat, c: Core): Sys
    requires g < Cores(s)
  {
    if g < |s.retired| then s.(retired := s.retired[g := c]) else s.(d := s.d.(core := Some(c)))
  }

  /** Whether a task has a core to ask. */
  predicate Equipped(s: Sys, t: nat)
  {
    t < |s.tasks| && s.tasks[t].on.Some? && s.tasks[t].on.value < Cores(s)
  }

  function CoreOf(s: Sys, t: nat): Core
    requires Equipped(s, t)
  {
    CoreAt(s, s.tasks[t].on.value)
  }

  // ----- transports

  /** Every transport the client has stored, in order. */
  function Stored(s: Sys): seq<Transport>
  {
    s.replaced + if s.d.transport.Some? then [s.d.transport.value] else []
  }

  // ----- what a call waits for

  function Stages(kind: Kind, call: Call): nat
  {
    match call
    case Connect(_, _) => if kind.Wt? then 3 else 1
    case RequestCall(_, _, _) => 2
    case _ => 1
  }

  function OpAt(call: Call, stage: nat, stream: StreamId): Op
  {
    match call
    case Connect(path, headers) =>
      if stage == 0 then AwaitConnected else if stage == 1 then OpenSession(path, headers) else AwaitSession
    case ReadCall(id, maxBytes) => Read(id, maxBytes)
    case WriteCall(id, data, fin) => Write(id, data, fin)
    case OpenCall(u) => Open(u)
    case AcceptCall(u) => Accept(u)
    case SendDatagramCall(data) => SendDgram(data)
    case ReceiveDatagramCall => ReceiveDgram
    case RequestCall(headers, body, fin) => if stage == 0 then Submit(headers, body, fin) else Take(stream)
  }

  function OpOf(k: Task): Op { OpAt(k.call, k.stage, k.stream) }

  /** Whether the method calls `_process` after this wait returns. */
  predicate ProcessesAfter(call: Call, stage: nat)
  {
    match call
    case Connect(_, _) => stage == 1
    case WriteCall(_, _, _) => true
    case SendDatagramCall(_) => true
    case RequestCall(_, _, _) => true
    case _ => false
  }

  predicate CallFits(kind: Kind, call: Call)
  {
    match call
    case Connect(_, _) => true
    case RequestCall(_, _, _) => kind.H3?
    case _ => !kind.H3?
  }

  // ----- pieces of a turn

  function SetTask(s: Sys, t: nat, k: Task): Sys
    requires t < |s.tasks|
  {
    s.(tasks := s.tasks[t := k])
  }

  function Finish(s: Sys, t: nat, outcome: Outcome): Sys
    requires t < |s.tasks|
  {
    SetTask(s, t, s.tasks[t].(phase := Finished(outcome, s.d.now))).(running := None)
  }

  /** An exception leaves `_wait`; inside connect() it also tears the client down. */
  function Fail(s: Sys, t: nat, exc: Exc, message: string): Sys
    requires t < |s.tasks|
  {
    var s1 := if s.tasks[t].call.Connect? then s.(d := Teardown(s.d, "connect failed")) else s;
    Finish(s1, t, Failed(exc, message))
  }

  function Deadline(k: Task): Option<int>
  {
    if k.timeout.None? then None else Some(k.since + k.timeout.value)
  }

  /** A fresh future joins _waiters; wait_for is armed with the time that remains. */
  function Park(s: Sys, t: nat): Sys
    requires t < |s.tasks|
  {
    var k := s.tasks[t];
    var f := s.d.nextFuture;
    var wakeAt := if Deadline(k).None? then None else Some(s.d.now + (Deadline(k).value - s.d.now));
    SetTask(s, t, k.(phase := Parked(f, wakeAt), interrupt := Calm))
      .(d := s.d.(waiters := s.d.waiters + [f], futures := s.d.futures[f := Pending], nextFuture := f + 1),
        owners := s.owners[f := t], running := None)
  }

  /** The attempt returned a value: `_wait` returns it and the next stage, if any, begins. */
  function Grant(s: Sys, t: nat, c: Core, v: Val): Sys
    requires Equipped(s, t)
  {
    var k := s.tasks[t];
    var last := k.stage + 1 == Stages(s.kind, k.call);
    var k' := k.(stage := k.stage + 1, grants := k.grants + [|s.log|],
                 stream := if v.Issued? then v.id else k.stream,
                 tries := if last then k.tries + 1 else 0, triedAt := s.events,
                 since := if last then k.since else s.d.now,
                 phase := if last then Finished(Returned(v), s.d.now) else Ready);
    SetTask(SetCore(s, k.on.value, c), t, k')
      .(log := s.log + [Entry(t, k.stage, k.on.value, OpOf(k), v)], running := if last then None else Some(t))
  }

  function Tried(s: Sys, t: nat, c: Core): Sys
    requires Equipped(s, t)
  {
    SetTask(SetCore(s, s.tasks[t].on.value, c), t,
            s.tasks[t].(tries := s.tasks[t].tries + 1, triedAt := s.events))
  }

  predicate TurnOk(s: Sys, t: nat, a: Answer, e: Effect)
  {
    && Equipped(s, t) && s.tasks[t].phase.Ready?
    && (!s.d.closed ==> AttemptOk(CoreOf(s, t), OpOf(s.tasks[t]), a, e))
  }

  /** From the top of the loop in `_wait` to the next await, return or exception. */
  function Turn(s: Sys, t: nat, a: Answer, e: Effect): Sys
    requires TurnOk(s, t, a, e)
  {
    var k := s.tasks[t];
    if s.d.closed
    then Fail(s, t, ConnectionError, GivenReason(s.d))
    else
      var (c, r) := Attempt(CoreOf(s, t), OpOf(k), a, e);
      AfterAttempt(s, t, c, r)
  }

  /** The attempt returned nothing: the time is up, or the task sleeps. */
  function Linger(s: Sys, t: nat): Sys
    requires t < |s.tasks|
  {
    if Deadline(s.tasks[t]).Some? && Deadline(s.tasks[t]).value - s.d.now <= 0
    then Fail(s, t, TimeoutError, TimeoutText(s.kind))
    else Park(s, t)
  }

  /** What follows an attempt that left the core as `c`. */
  function AfterAttempt(s: Sys, t: nat, c: Core, r: Py<Val>): Sys
    requires Equipped(s, t)
  {
    var k := s.tasks[t];
    match r
    case Raise(exc, message) => Fail(Tried(s, t, c), t, exc, message)
    case Value(v) =>
      var s1 := Grant(s, t, c, v);
      if ProcessesAfter(k.call, k.stage) then s1.(d := Process(s1.d)) else s1
    case NoneYet => Linger(Tried(s, t, c), t)
  }

  /** The `finally` of the await: the future leaves _waiters. */
  function Unpark(s: Sys, t: nat): Sys
    requires t < |s.tasks| && s.tasks[t].phase.Parked?
  {
    SetTask(s, t, s.tasks[t].(phase := Ready))
      .(d := s.d.(waiters := Remove(s.d.waiters, s.tasks[t].phase.future)), running := Some(t))
  }

  /** The task's own timeout or a cancellation interrupts the await: a pending future is cancelled. */
  function InterruptTask(s: Sys, t: nat, why: Interrupt): Sys
    requires t < |s.tasks| && s.tasks[t].phase.Parked? && s.tasks[t].phase.future in s.d.futures
  {
    var f := s.tasks[t].phase.future;
    SetTask(s, t, s.tasks[t].(interrupt := why))
      .(d := s.d.(futures := s.d.futures[f := if s.d.futures[f].Pending? then Cancelled else s.d.futures[f]]))
  }

  // ----- steps

  datatype Action =
    | Tick(delta: int)
    | Invoke(call: Call, timeout: Option<int>, on: nat)
    | Lookup(t: nat, failure: Option<Exc>, serverName: string)
    | Endpoint(t: nat, failure: Option<Exc>, initialized: bool, attempting: bool, e: Effect)
    | Continue(t: nat, a: Answer, e: Effect)
    | Resume(t: nat, a: Answer, e: Effect)
    | Expire(t: nat)
    | Cancel(t: nat)
    | Packet(data: Bytes, e: Effect)
    | TimerFires(handle: nat, e: Effect)
    | ConnectionLost(cause: Option<string>)
    | CloseCall(e: Effect)
    | Signal(id: StreamId, on: nat, e: Effect)

  predicate SetupPhase(p: Phase) { p.Resolving? || p.Attaching? }

  /** A parked task can run when its future is done. */
  predicate Resumable(s: Sys, t: nat)
  {
    && t < |s.tasks| && s.tasks[t].phase.Parked? && s.tasks[t].phase.future in s.d.futures
    && !s.d.futures[s.tasks[t].phase.future].Pending?
  }

  /** Which steps can happen now: scheduling, the client's API, and the library's contract. */
  predicate Legal(s: Sys, act: Action)
  {
    match act
    case Tick(delta) => s.running.None? && delta > 0 && s.d.now + delta <= TIME_LIMIT
    case Invoke(call, timeout, on) =>
      s.running.None? && CallFits(s.kind, call) && (OnStream(call) ==> on < Cores(s))
    case Lookup(t, failure, _) =>
      && s.running.None? && t < |s.tasks| && s.tasks[t].phase.Resolving?
      && (failure.Some? ==> failure.value.OSError? || failure.value.RuntimeError?)
    case Endpoint(t, failure, initialized, attempting, e) =>
      && s.running.None? && Equipped(s, t) && s.tasks[t].phase.Attaching?
      && (failure.Some? ==> failure.value.OSError?)
      && StartEffectOk(CoreOf(s, t), e)
    case Continue(t, a, e) => s.running == Some(t) && TurnOk(s, t, a, e)
    case Resume(t, a, e) =>
      && s.running.None? && Resumable(s, t)
      && (s.tasks[t].interrupt.Calm? ==> TurnOk(Unpark(s, t), t, a, e))
    case Expire(t) =>
      && s.running.None? && t < |s.tasks| && s.tasks[t].phase.Parked? && s.tasks[t].phase.future in s.d.futures
      && s.tasks[t].interrupt.Calm?
      && s.tasks[t].phase.wakeAt.Some? && s.tasks[t].phase.wakeAt.value <= s.d.now
    case Cancel(t) =>
      && s.running.None? && t < |s.tasks|
      && (SetupPhase(s.tasks[t].phase)
          || (s.tasks[t].phase.Parked? && s.tasks[t].phase.future in s.d.futures))
    case Packet(data, e) =>
      && s.running.None? && |data| <= MAX_INPUT_BYTES
      && (s.d.core.Some? ==> EffectOk(s.d.core.value, e))
    case TimerFires(handle, e) =>
      && s.running.None? && handle in s.d.handles && s.d.handles[handle] <= s.d.now
      && (s.d.core.Some? ==> TimeoutEffectOk(s.d.core.value, e, s.d.now))
    case ConnectionLost(_) => s.running.None?
    case CloseCall(e) => s.running.None? && (s.d.core.Some? ==> EffectOk(s.d.core.value, e))
    case Signal(id, on, e) =>
      s.running.None? && on < Cores(s) && !s.kind.H3? && AppEffectOk(CoreAt(s, on), e)
  }

  /** A stream object belongs to the core it came from, which the caller brings along. */
  predicate OnStream(call: Call) { call.ReadCall? || call.WriteCall? }

  /** The core that a call takes hold of; None when there is none yet. */
  function Target(s: Sys, call: Call, on: nat): Option<nat>
  {
    if call.Connect? then None
    else if OnStream(call) then Some(on)
    else if s.d.core.Some? then Some(|s.retired|)
    else None
  }

  function NewTask(call: Call, timeout: Option<int>, phase: Phase, on: Option<nat>, now: int): Task
  {
    Task(call, timeout, 0, phase, now, if phase.Ready? then Some(now) else None, 0, 0, Calm, 0, on, [])
  }

  function DoInvoke(s: Sys, call: Call, timeout: Option<int>, on: nat): Sys
  {
    var target := Target(s, call, on);
    if call.Connect?
    then s.(tasks := s.tasks + [NewTask(call, timeout, Resolving, None, s.d.now)])
    else if target.None?
    then s.(tasks := s.tasks + [NewTask(call, timeout,
                Finished(Failed(RuntimeError, "connect() must be called before using the client"), s.d.now),
                None, s.d.now)])
    else s.(tasks := s.tasks + [NewTask(call, timeout, Ready, target, s.d.now)], running := Some(|s.tasks|))
  }

  /** Outside the try block of connect() a failure ends the task and nothing else. The address known, a new
      core takes the place of the present one, if any. */
  function DoLookup(s: Sys, t: nat, failure: Option<Exc>, serverName: string): Sys
    requires t < |s.tasks|
  {
    if failure.Some? then Finish(s, t, Failed(failure.value, "set-up failed"))
    else Enlist(s, t, NewCore(s.kind, serverName))
  }

  function Enlist(s: Sys, t: nat, c: Core): Sys
    requires t < |s.tasks|
  {
    SetTask(s, t, s.tasks[t].(phase := Attaching, on := Some(Cores(s))))
      .(d := Renew(s.d, c), starters := s.starters + [t],
        retired := if s.d.core.Some? then s.retired + [s.d.core.value] else s.retired)
  }

  /** The endpoint created, its transport takes the place of the present one, if any, and the handshake
      of this call's own core is started. */
  function DoEndpoint(s: Sys, t: nat, failure: Option<Exc>, initialized: bool, attempting: bool, e: Effect): Sys
    requires Equipped(s, t)
  {
    if failure.Some? then Finish(s, t, Failed(failure.value, "set-up failed"))
    else
      var (c, r) := PyStart(CoreOf(s, t), initialized, attempting, e);
      var s1 := AttachTo(SetCore(s, s.tasks[t].on.value, c), !r.Raise?);
      if r.Raise? then Finish(s1, t, Failed(r.exc, r.message))
      else SetTask(s1, t, s.tasks[t].(phase := Ready, since := s.d.now, began := Some(s.d.now))).(running := Some(t))
  }

  function AttachTo(s: Sys, started: bool): Sys
  {
    s.(d := Begun(s.d, started), events := s.events + 1,
       replaced := if s.d.transport.None? then s.replaced
                   else s.replaced + [s.d.transport.value.(lost := !s.d.closed)])
  }

  function DoResume(s: Sys, t: nat, a: Answer, e: Effect): Sys
    requires Resumable(s, t) && (s.tasks[t].interrupt.Calm? ==> TurnOk(Unpark(s, t), t, a, e))
  {
    var s1 := Unpark(s, t);
    match s.tasks[t].interrupt
    case CancelRequested => Fail(s1, t, CancelledError, "")
    case Expired => Fail(s1, t, TimeoutError, TimeoutText(s.kind))
    case Calm => Turn(s1, t, a, e)
  }

  /** A packet that overtakes the handshake start raises in the callback; it is not an event of the core. */
  function DoPacket(s: Sys, data: Bytes, e: Effect): Sys
  {
    if s.d.core.None? || s.d.closed then s
    else if !s.d.core.value.engine.session && data != [] then s.(d := OnReceive(s.d, data, e))
    else s.(d := OnReceive(s.d, data, e), events := s.events + 1)
  }

  /** stream.reset() and stream.stop_sending(): the core is called even on a closed client. */
  function DoSignal(s: Sys, id: StreamId, on: nat, e: Effect): Sys
    requires on < Cores(s)
  {
    var (c, st) := SignalStream(CoreAt(s, on), id, e);
    var s1 := SetCore(s, on, c);
    if st == OK then s1.(d := Process(s1.d)) else s1
  }

  function Step(s: Sys, act: Action): Sys
    requires Legal(s, act)
  {
    match act
    case Tick(delta) => s.(d := s.d.(now := s.d.now + delta))
    case Invoke(call, timeout, on) => DoInvoke(s, call, timeout, on)
    case Lookup(t, failure, serverName) => DoLookup(s, t, failure, serverName)
    case Endpoint(t, failure, initialized, attempting, e) => DoEndpoint(s, t, failure, initialized, attempting, e)
    case Continue(t, a, e) => Turn(s, t, a, e)
    case Resume(t, a, e) => DoResume(s, t, a, e)
    case Expire(t) => InterruptTask(s, t, Expired)
    case Cancel(t) =>
      if s.tasks[t].phase.Parked? then InterruptTask(s, t, CancelRequested)
      else Finish(s, t, Failed(CancelledError, ""))
    case Packet(data, e) => DoPacket(s, data, e)
    case TimerFires(handle, e) => s.(d := OnTimeout(s.d, handle, e), events := s.events + 1)
    case ConnectionLost(cause) => s.(d := OnConnectionLost(s.d, cause))
    case CloseCall(e) => s.(d := CloseClient(s.d, e))
    case Signal(id, on, e) => DoSignal(s, id, on, e)
  }

  // ----- runs

  predicate LegalRun(s: Sys, acts: seq<Action>)
    decreases |acts|
  {
    acts == [] || (Legal(s, acts[0]) && LegalRun(Step(s, acts[0]), acts[1..]))
  }

  function Run(s: Sys, acts: seq<Action>): Sys
    requires LegalRun(s, acts)
    decreases |acts|
  {
    if acts == [] then s else Run(Step(s, acts[0]), acts[1..])
  }
}
