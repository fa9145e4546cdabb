/** The asyncio client as the source writes it: an object that drives the glue
    object, a UDP transport and the event loop, and updates its own fields step
    by step. Every method is proved against its function in `Driver`; `Pass` is
    one trip through the loop of `_wait`. */
module AsyncObject {
  import opened Prelude
  import opened Engine
  import opened Glue
  import opened GlueInvariant
  import opened Binding
  import opened Driver
  import opened DriverFacts
  import opened DriverEvents
  import opened GlueObject
  import PyObject

  /** The part of the asyncio loop that the client uses. */
  class EventLoop {
    var now: int
    var handles: map<nat, int>
    var nextHandle: nat
    var futures: map<nat, Future>
    var nextFuture: nat

    constructor (now: int)
      ensures this.now == now && handles == map[] && nextHandle == 0 && futures == map[] && nextFuture == 0
    {
      this.now, handles, nextHandle, futures, nextFuture := now, map[], 0, map[], 0;
    }

    method CallLater(delayMs: nat) returns (handle: nat)
      modifies this`handles, this`nextHandle
      ensures handle == old(nextHandle) && nextHandle == handle + 1
      ensures handles == old(handles)[handle := now + delayMs * 1000]
    {
      handle := nextHandle;
      handles := handles[handle := now + delayMs * 1000];
      nextHandle := nextHandle + 1;
    }

    method CancelHandle(handle: nat)
      modifies this`handles
      ensures handles == old(handles) - {handle}
    {
      handles := handles - {handle};
    }

    method CreateFuture() returns (future: nat)
      modifies this`futures, this`nextFuture
      ensures future == old(nextFuture) && nextFuture == future + 1 && futures == old(futures)[future := Pending]
    {
      future := nextFuture;
      futures := futures[future := Pending];
      nextFuture := nextFuture + 1;
    }

    /** asyncio raises InvalidStateError unless the future is pending. */
    method SetResult(future: nat)
      requires future in futures && futures[future].Pending?
      modifies this`futures
      ensures futures == old(futures)[future := Resolved]
    {
      futures := futures[future := Resolved];
    }
  }

  class UdpTransport {
    var log: seq<TransportOp>
    ghost var handed: seq<Bytes>
    ghost const storedOpen: bool

    constructor (ghost storedOpen: bool)
      ensures log == [] && handed == [] && this.storedOpen == storedOpen
    {
      log, handed := [], [];
      this.storedOpen := storedOpen;
    }

    method SendTo(packet: Bytes)
      modifies this
      ensures log == old(log) + [TransportOp.SendTo(packet)] && handed == old(handed) + [packet]
    {
      log := log + [TransportOp.SendTo(packet)];
      handed := handed + [packet];
    }

    method Close()
      modifies this
      ensures log == old(log) + [CloseTransport] && handed == old(handed)
    {
      log := log + [CloseTransport];
    }
  }

  /** `sent` has been taken off the front of the queue, one packet at a time. */
  predicate Drawn(c: Core, c': Core, sent: seq<Bytes>)
  {
    && c.queue == sent + c'.queue
    && c' == c.(queue := c'.queue, past := c.past.(popped := c.past.popped + sent))
  }

  lemma DrawOne(c: Core, c': Core, sent: seq<Bytes>)
    requires Drawn(c, c', sent) && PacketsOk(c'.queue)
    ensures var (c2, r) := PyNextSend(c');
      && !r.Raise? && PacketsOk(c2.queue)
      && (r.NoneYet? ==> c2 == c' == c.(queue := [], past := c.past.(popped := c.past.popped + c.queue)))
      && (r.Value? ==> Drawn(c, c2, sent + [r.value]) && |c2.queue| < |c'.queue|
                       && Sends(sent + [r.value]) == Sends(sent) + [TransportOp.SendTo(r.value)])
  {
    var (c2, r) := PyNextSend(c');
    if c'.queue != [] {
      assert c'.queue == [c'.queue[0]] + c'.queue[1..];
      assert c2.past.popped == c.past.popped + (sent + [c'.queue[0]]);
      SendsAppend(sent, [r.value]);
    } else {
      assert sent == c.queue;
    }
  }

  class AsyncClient {
    const loop: EventLoop
    var core: GlueClient?
    var transport: UdpTransport?
    var timer: Option<nat>
    var waiters: seq<nat>
    var closed: bool
    var closeReason: string
    var wasConnected: bool
    ghost var armed: Armed
    ghost var drawnBefore: seq<Bytes>
    ghost var handedBefore: seq<Bytes>

    ghost function Abs(): Client
      reads this, loop, core, transport
    {
      Client(if core == null then None else Some(core.State()),
             if transport == null then None
             else Some(Transport(transport.log, transport.handed, transport.storedOpen, false)),
             timer, waiters, closed, closeReason, wasConnected,
             loop.now, loop.handles, loop.nextHandle, loop.futures, loop.nextFuture,
             armed, drawnBefore, handedBefore)
    }

    constructor (now: int)
      ensures Abs() == NewClient(now) && fresh(loop)
    {
      loop := new EventLoop(now);
      core, transport, timer, waiters := null, null, None, [];
      closed, closeReason, wasConnected := false, "", false;
      armed, drawnBefore, handedBefore := Armed({}, now), [], [];
    }

    /** _drain_send. No packet of the writer is too big for the buffer, so the queue empties. */
    method DrainSend()
      requires core != null && PacketsOk(core.packets)
      modifies core, transport
      ensures Abs() == Driver.DrainSend(old(Abs()))
    {
      if transport == null { return; }
      ghost var sent: seq<Bytes> := [];
      ghost var start := core.State();
      assert start.past.popped + sent == start.past.popped;
      while true
        invariant PacketsOk(core.packets) && Drawn(start, core.State(), sent)
        invariant transport.log == old(transport.log) + Sends(sent) && transport.handed == old(transport.handed) + sent
        decreases |core.packets|
      {
        DrawOne(start, core.State(), sent);
        var packet := PyObject.NextSend(core);
        if packet.NoneYet? { break; }
        transport.SendTo(packet.value);
        sent := sent + [packet.value];
      }
      assert sent == start.queue && core.State() == Drained(start);
    }

    /** _wake_waiters: only futures that are not done are resolved. */
    method WakeWaiters()
      requires forall f :: f in waiters ==> f in loop.futures
      modifies loop`futures
      ensures Abs() == Driver.WakeWaiters(old(Abs()))
    {
      var copy := waiters;
      for i := 0 to |copy|
        invariant loop.futures.Keys == old(loop.futures).Keys
        invariant forall f :: f in loop.futures ==>
          loop.futures[f] == (if f in copy[..i] && old(loop.futures)[f].Pending? then Resolved
                              else old(loop.futures)[f])
      {
        var f := copy[i];
        if loop.futures[f].Pending? { loop.SetResult(f); }
        assert copy[..i + 1] == copy[..i] + [f];
      }
      assert copy[..|copy|] == copy;
      assert loop.futures == Driver.WakeWaiters(old(Abs())).futures;
    }

    method CancelTimer()
      modifies this`timer, loop`handles
      ensures Abs() == Driver.CancelTimer(old(Abs()))
    {
      if timer.Some? {
        loop.CancelHandle(timer.value);
        timer := None;
      }
    }

    /** _teardown. */
    method Teardown(reason: string)
      requires forall f :: f in waiters ==> f in loop.futures
      modifies this`closed, this`closeReason, this`timer, transport, loop
      ensures Abs() == Driver.Teardown(old(Abs()), reason)
    {
      if closed { return; }
      closed := true;
      closeReason := reason;
      CancelTimer();
      if transport != null { transport.Close(); }
      WakeWaiters();
    }

    /** _reschedule_timer. */
    method RescheduleTimer()
      requires core != null && TimesOk(core.engine.alarms) && ClockOk(Abs())
      modifies this`timer, this`armed, core`lastError, loop
      ensures Abs() == Driver.RescheduleTimer(old(Abs()))
    {
      CancelTimer();
      var timeoutMs := PyObject.NextTimeout(core, loop.now);
      if timeoutMs.None? { return; }
      var handle := loop.CallLater(timeoutMs.value);
      timer := Some(handle);
      armed := Armed(core.engine.alarms, loop.now);
    }

    /** _process. */
    method Process()
      requires ClientOk(Abs())
      modifies this, core, transport, loop
      ensures core == old(core) && transport == old(transport) && Abs() == Driver.Process(old(Abs()))
    {
      if core == null || closed { return; }
      DrainSend();
      if core.IsConnected() {
        wasConnected := true;
      } else if wasConnected {
        Teardown(if core.lastError != "" then core.lastError else "connection closed");
        return;
      } else if core.lastError != "" {
        Teardown(core.lastError);
        return;
      }
      RescheduleTimer();
      WakeWaiters();
    }

    /** _on_receive. An exception of the core leaves the callback before `_process`. */
    method OnReceive(data: Bytes, e: Effect) returns (r: Py<()>)
      requires ClientOk(Abs()) && |data| <= MAX_INPUT_BYTES && (core != null ==> EffectOk(core.State(), e))
      modifies this, core, transport, loop
      ensures core == old(core) && transport == old(transport) && Abs() == Driver.OnReceive(old(Abs()), data, e)
      ensures r.Raise? <==> core != null && !old(closed) && data != [] && !old(Abs()).core.value.engine.session
    {
      if core == null || closed { return Value(()); }
      ReceiveLands(Abs(), data, e);
      r := PyObject.ReceivePacket(core, data, e);
      assert Abs() == old(Abs()).(core := Some(core.State()));
      if r.Raise? { return; }
      Process();
    }

    /** _on_timeout, called by the loop when `handle` is due. */
    method OnTimeout(handle: nat, e: Effect)
      requires ClientOk(Abs()) && (core != null ==> EffectOk(core.State(), e))
      modifies this, core, transport, loop
      ensures core == old(core) && transport == old(transport) && Abs() == Driver.OnTimeout(old(Abs()), handle, e)
    {
      FiredKeeps(Abs(), handle);
      loop.CancelHandle(handle);
      if core == null || closed { return; }
      ghost var d := Abs();
      TimeoutLands(d, e);
      var r := PyObject.HandleTimeout(core, e);
      assert Abs() == d.(core := Some(core.State()));
      Process();
    }

    /** _on_connection_lost. */
    method OnConnectionLost(cause: Option<string>)
      requires ClientOk(Abs())
      modifies this`closed, this`closeReason, this`timer, transport, loop
      ensures Abs() == Driver.OnConnectionLost(old(Abs()), cause)
    {
      var reason := if cause.None? then "connection lost" else cause.value;
      Teardown(reason);
    }

    /** close(): the last packets go out before the transport is closed. */
    method Close(e: Effect)
      requires ClientOk(Abs()) && (core != null ==> EffectOk(core.State(), e))
      modifies this, core, transport, loop
      ensures core == old(core) && transport == old(transport) && Abs() == CloseClient(old(Abs()), e)
    {
      if core != null && !closed {
        CloseKeeps(core.State(), e);
        core.Close(e);
        DrainSend();
      }
      Teardown(if closeReason != "" then closeReason else "closed by application");
    }

    /** connect() once the address is known: a new core replaces whatever core there was. */
    method MakeCore(kind: Kind, serverName: string) returns (made: GlueClient)
      modifies this
      ensures fresh(made) && core == made && transport == old(transport)
      ensures Abs() == Renew(old(Abs()), NewCore(kind, serverName))
    {
      made := new GlueClient(kind, serverName);
      drawnBefore := drawnBefore + Popped(Abs());
      core := made;
    }

    /** connect() from the moment the UDP endpoint exists to its first wait. `made` is the core this
        call created, which another call of connect() may have replaced since. */
    method BeginConnect(made: GlueClient, initialized: bool, attempting: bool, e: Effect) returns (r: Py<()>)
      requires ClientOk(Abs()) && core != null && CoreOk(made.State()) && StartEffectOk(made.State(), e)
      modifies this, core, made, loop
      ensures core == old(core) && transport != null && fresh(transport)
      ensures var (c, started) := PyStart(old(made.State()), initialized, attempting, e);
        && r == started
        && (made != core ==> made.State() == c)
        && Abs() == Begun(if made == core then old(Abs()).(core := Some(c)) else old(Abs()), !r.Raise?)
    {
      ghost var d := Abs();
      if made == core { StartLands(d, initialized, attempting, e); }
      ghost var d1 := if made == core then d.(core := Some(PyStart(made.State(), initialized, attempting, e).0)) else d;
      AttachKeeps(d1);
      StoreTransport();
      r := PyObject.StartCore(made, initialized, attempting, e);
      assert Abs() == Attach(d1);
      AfterStart(!r.Raise?);
    }

    method StoreTransport()
      modifies this
      ensures core == old(core) && transport != null && fresh(transport) && Abs() == Attach(old(Abs()))
    {
      handedBefore := handedBefore + Handed(Abs());
      transport := new UdpTransport(!closed);
    }

    method AfterStart(started: bool)
      requires ClientOk(Abs())
      modifies this, core, transport, loop
      ensures core == old(core) && transport == old(transport)
      ensures Abs() == if started then Driver.Process(old(Abs())) else Driver.Teardown(old(Abs()), "connect failed")
    {
      if started { Process(); } else { Teardown("connect failed"); }
    }

    /** One trip through the loop of `_wait`: give up, return, raise, or park on a fresh future. `target`
        is the core that the caller's closure holds, which need not be the client's present one. */
    method Wait(target: GlueClient, op: Op, deadline: Option<int>, a: Answer, e: Effect) returns (r: WaitResult)
      requires RegionFits(target.State(), op, a)
      modifies this`waiters, target, loop
      ensures var (c, d, result) := Pass(old(target.State()), old(Abs()), op, deadline, a, e);
        && r == result && target.State() == c
        && Abs() == (if target == core then d.(core := Some(c)) else d)
    {
      if closed {
        return Throws(ConnectionError, if closeReason != "" then closeReason else "connection closed");
      }
      var result := PyObject.Try(target, op, a, e);
      ghost var c := target.State();
      if target == core { AfterTrySwaps(old(Abs()), Some(c), target.kind, deadline, result); }
      assert Abs() == if target == core then old(Abs()).(core := Some(c)) else old(Abs());
      r := Conclude(target.kind, deadline, result);
      assert target.State() == c;
    }

    method Conclude(kind: Kind, deadline: Option<int>, result: Py<Val>) returns (r: WaitResult)
      modifies this`waiters, loop
      ensures (Abs(), r) == AfterTry(old(Abs()), kind, deadline, result)
    {
      match result
      case Value(v) => return Gives(v);
      case Raise(exc, message) => return Throws(exc, message);
      case NoneYet => r := Park(kind, deadline);
    }

    /** After a fruitless attempt. */
    method Park(kind: Kind, deadline: Option<int>) returns (r: WaitResult)
      modifies this`waiters, loop
      ensures (Abs(), r) == Sleep(old(Abs()), kind, deadline)
    {
      var remaining := None;
      if deadline.Some? {
        remaining := Some(deadline.value - loop.now);
        if remaining.value <= 0 { return Throws(TimeoutError, TimeoutText(kind)); }
      }
      var future := loop.CreateFuture();
      waiters := waiters + [future];
      return Parks(future, remaining);
    }

    /** The `finally` of the await. */
    method Leave(future: nat)
      modifies this`waiters
      ensures Abs() == old(Abs()).(waiters := Remove(old(waiters), future))
    {
      waiters := ListRemove(waiters, future);
    }
  }

  /** list.remove, quiet when the element is missing. */
  method ListRemove(xs: seq<nat>, x: nat) returns (ys: seq<nat>)
    ensures ys == Remove(xs, x)
  {
    var i := 0;
    while i < |xs| && xs[i] != x
      invariant i <= |xs| && Remove(xs, x) == xs[..i] + Remove(xs[i..], x)
    {
      assert xs[i..][1..] == xs[i + 1..] && xs[..i + 1] == xs[..i] + [xs[i]];
      i := i + 1;
    }
    if i == |xs| { return xs; }
    assert xs[i..][1..] == xs[i + 1..];
    return xs[..i] + xs[i + 1..];
  }

  datatype WaitResult =
    | Gives(value: Val)
    | Throws(exc: Exc, message: string)
    | Parks(future: nat, remaining: Option<int>)

  predicate RegionFits(c: Core, op: Op, a: Answer)
  {
    op.Read? && op.id in c.engine.streams ==> RegionOk(c.engine.streams[op.id], a.region)
  }

  /** The client's own core field is left to the caller, who knows whether it is the core asked. */
  function Pass(c: Core, d: Client, op: Op, deadline: Option<int>, a: Answer, e: Effect): (Core, Client, WaitResult)
    requires RegionFits(c, op, a)
  {
    if d.closed then (c, d, Throws(ConnectionError, GivenReason(d)))
    else
      var (c', r) := Attempt(c, op, a, e);
      var (d', result) := AfterTry(d, c.kind, deadline, r);
      (c', d', result)
  }

  function AfterTry(d: Client, kind: Kind, deadline: Option<int>, r: Py<Val>): (Client, WaitResult)
  {
    match r
    case Value(v) => (d, Gives(v))
    case Raise(exc, message) => (d, Throws(exc, message))
    case NoneYet => Sleep(d, kind, deadline)
  }

  lemma AfterTrySwaps(d: Client, core: Option<Core>, kind: Kind, deadline: Option<int>, r: Py<Val>)
    ensures AfterTry(d.(core := core), kind, deadline, r) ==
      (AfterTry(d, kind, deadline, r).0.(core := core), AfterTry(d, kind, deadline, r).1)
  {}

  function Sleep(d: Client, kind: Kind, deadline: Option<int>): (Client, WaitResult)
  {
    if deadline.Some? && deadline.value - d.now <= 0 then (d, Throws(TimeoutError, TimeoutText(kind)))
    else
      (d.(waiters := d.waiters + [d.nextFuture], futures := d.futures[d.nextFuture := Pending],
          nextFuture := d.nextFuture + 1),
       Parks(d.nextFuture, if deadline.None? then None else Some(deadline.value - d.now)))
  }
}
