/** The callbacks and the public entry points of the client: what each one call
    guarantees about detection of closure, timers, and the last packets sent. */
module DriverEvents {
  import opened Prelude
  import opened Engine
  import opened Glue
  import opened GlueInvariant
  import opened Binding
  import opened Driver
  import opened DriverFacts

  /** What a driver step does to the core besides draining and rearming. */
  ghost predicate CoreAfter(c: Core, c': Core)
  {
    c'.kind == c.kind && Carried(c, c') && SameHistory(c, c')
  }

  /** The common outcome of a callback on an open, started client. */
  ghost predicate Evented(d: Client, d': Client)
    requires d.core.Some?
  {
    && ClientOk(d') && SameLoop(d, d') && AllAwake(d') && Agrees(d') && d'.core.Some?
    && CoreAfter(d.core.value, d'.core.value)
    && (!d'.closed ==> TimerFresh(d') && d'.core.value.lastError == "")
    && (d.transport.Some? ==> d'.core.value.queue == [])
    && (d'.transport.Some? <==> d.transport.Some?)
  }

  lemma ProcessEvents(d: Client, d1: Client)
    requires ClientOk(d) && d.core.Some? && !d.closed
    requires d1 == d.(core := d1.core, handles := d1.handles) && d1.core.Some? && ClientOk(d1)
    requires CoreAfter(d.core.value, d1.core.value)
    ensures Evented(d, Process(d1)) && Processed(d1, Process(d1))
  {
    ProcessKeeps(d1);
  }

  /** Exchanging the core for one with the same packets popped keeps the client's invariant. */
  lemma SwapCoreKeeps(d: Client, c: Core)
    requires ClientOk(d) && d.core.Some? && CoreOk(c) && c.past.popped == d.core.value.past.popped
    ensures ClientOk(d.(core := Some(c)))
  {}

  /** A packet on a started client, before `_process`: nothing raises. */
  lemma ReceiveLands(d: Client, data: Bytes, e: Effect)
    requires ClientOk(d) && d.core.Some? && |data| <= MAX_INPUT_BYTES && EffectOk(d.core.value, e)
    ensures var (c, r) := PyReceivePacket(d.core.value, data, e);
      && (r.Raise? <==> data != [] && !d.core.value.engine.session)
      && ClientOk(d.(core := Some(c)))
  {
    ReceiveKeeps(d.core.value, data, e);
    SwapCoreKeeps(d, PyReceivePacket(d.core.value, data, e).0);
  }

  /** A timeout, before `_process`. */
  lemma TimeoutLands(d: Client, e: Effect)
    requires ClientOk(d) && d.core.Some? && EffectOk(d.core.value, e)
    ensures var (c, r) := PyHandleTimeout(d.core.value, e); !r.Raise? && ClientOk(d.(core := Some(c)))
  {
    TimeoutKeeps(d.core.value, e);
    SwapCoreKeeps(d, PyHandleTimeout(d.core.value, e).0);
  }

  /** core.start() on the client's own core. */
  lemma StartLands(d: Client, initialized: bool, attempting: bool, e: Effect)
    requires ClientOk(d) && d.core.Some? && StartEffectOk(d.core.value, e)
    ensures ClientOk(d.(core := Some(PyStart(d.core.value, initialized, attempting, e).0)))
  {
    StartKeeps(d.core.value, initialized, attempting, e);
    SwapCoreKeeps(d, PyStart(d.core.value, initialized, attempting, e).0);
  }

  /** The handle that fired is no longer live. */
  lemma FiredKeeps(d: Client, handle: nat)
    requires ClientOk(d)
    ensures ClientOk(d.(handles := d.handles - {handle}))
  {}

  lemma ReceiveForm(d: Client, data: Bytes, e: Effect)
    requires d.core.Some? && !d.closed && |data| <= MAX_INPUT_BYTES && (d.core.value.engine.session || data == [])
    ensures OnReceive(d, data, e) == Process(d.(core := Some(ReceivePacket(d.core.value, data, e).0)))
  {}

  /** A packet on a started client never raises, so `_process` always runs; a client that was never
      connected is torn down exactly when the core reported CLOSED, with the text it recorded, and one
      that was connected exactly when it is no longer. */
  lemma ReceiveDetects(d: Client, data: Bytes, e: Effect)
    requires ClientOk(d) && d.core.Some? && !d.closed && |data| <= MAX_INPUT_BYTES
    requires (d.core.value.engine.session || data == []) && EffectOk(d.core.value, e)
    ensures var (c, st) := ReceivePacket(d.core.value, data, e);
      var d' := OnReceive(d, data, e);
      && Evented(d, d')
      && (!d.wasConnected ==> (d'.closed <==> st == CLOSED))
      && (d.wasConnected ==> (d'.closed <==> !IsConnected(c)))
      && (d'.closed && st == CLOSED ==>
            d'.closeReason == ClosedText(c, "connection closed while processing a packet"))
      && (d'.closed && st == OK ==> d'.closeReason == "connection closed")
  {
    var (c, st) := ReceivePacket(d.core.value, data, e);
    ReceiveKeeps(d.core.value, data, e);
    ReceiveForm(d, data, e);
    SwapCoreKeeps(d, c);
    ProcessEvents(d, d.(core := Some(c)));
  }

  /** The same for the timer callback, whatever handle ran it. */
  lemma TimeoutDetects(d: Client, handle: nat, e: Effect)
    requires ClientOk(d) && d.core.Some? && !d.closed && EffectOk(d.core.value, e)
    ensures var (c, st) := HandleTimeout(d.core.value, e);
      var d' := OnTimeout(d, handle, e);
      && Evented(d, d')
      && (!d.wasConnected ==> (d'.closed <==> st == CLOSED))
      && (d.wasConnected ==> (d'.closed <==> !IsConnected(c)))
      && (d'.closed && st == CLOSED ==>
            d'.closeReason == ClosedText(c, "connection closed while handling a timeout"))
      && (d'.closed && st == OK ==> d'.closeReason == "connection closed")
      && d'.core.value.engine.alarms == e.alarms
  {
    var (c, st) := HandleTimeout(d.core.value, e);
    TimeoutKeeps(d.core.value, e);
    var d1 := d.(handles := d.handles - {handle}, core := Some(c));
    FiredKeeps(d, handle);
    SwapCoreKeeps(d.(handles := d.handles - {handle}), c);
    ProcessEvents(d, d1);
    assert OnTimeout(d, handle, e) == Process(d1);
  }

  /** No spinning: a timer fires no earlier than the earliest alarm it was set for. If the core's alarms
      are still those, that alarm is due and the callback consumes it; and whatever they are by now, the
      next timer is at least a millisecond away. */
  lemma TimerMakesProgress(d: Client, handle: nat, e: Effect)
    requires ClientOk(d) && d.core.Some? && TimeoutEffectOk(d.core.value, e, d.now)
    requires handle in d.handles && d.handles[handle] <= d.now
    ensures var d' := OnTimeout(d, handle, e);
      && !d.closed && d.timer == Some(handle) && d.armed.alarms != {} && d'.core.Some?
      && d.armed.at <= d.now && Earliest(d.armed.alarms) <= d.now
      && (d.core.value.engine.alarms == d.armed.alarms ==>
            Earliest(d.armed.alarms) in d.core.value.engine.alarms
            && Earliest(d.armed.alarms) !in d'.core.value.engine.alarms)
      && (!d'.closed && d'.timer.Some? ==>
            d'.timer.value in d'.handles && d'.handles[d'.timer.value] >= d.now + 1000)
  {
    RoundUpBounds(Earliest(d.armed.alarms), d.armed.at);
    TimeoutDetects(d, handle, e);
    var d' := OnTimeout(d, handle, e);
    if !d'.closed && d'.timer.Some? {
      FreshDelay(d');
    }
  }

  lemma FreshDelay(d: Client)
    requires d.core.Some? && TimerFresh(d) && d.timer.Some?
    requires forall a :: a in d.core.value.engine.alarms ==> a > d.now
    ensures d.handles[d.timer.value] >= d.now + 1000
  {
    RoundUpBounds(Earliest(d.core.value.engine.alarms), d.now);
  }

  /** A packet that overtakes core.start(): the callback raises and the client is left as it was. */
  lemma ReceiveBeforeStart(d: Client, data: Bytes, e: Effect)
    requires ClientOk(d) && d.core.Some? && !d.closed && 0 < |data| <= MAX_INPUT_BYTES
    requires !d.core.value.engine.session && EffectOk(d.core.value, e)
    ensures OnReceive(d, data, e) ==
      d.(core := Some(SetError(d.core.value, "handshake has not been started")))
    ensures ClientOk(OnReceive(d, data, e))
  {
    ReceiveKeeps(d.core.value, data, e);
    var d' := d.(core := Some(SetError(d.core.value, "handshake has not been started")));
    assert ClientOk(d');
  }

  /** Storing a transport, whatever transport there was. */
  lemma AttachKeeps(d: Client)
    requires ClientOk(d) && d.core.Some?
    ensures ClientOk(Attach(d)) && SameLoop(d.(handedBefore := Attach(d).handedBefore), Attach(d))
  {
    assert Attach(d).handedBefore + [] == Attach(d).handedBefore;
    assert Sends([]) + [] == [];
  }

  /** Storing a core, whatever core there was. */
  lemma RenewKeeps(d: Client, c: Core)
    requires ClientOk(d) && CoreOk(c) && c.past.popped == []
    ensures ClientOk(Renew(d, c)) && SameLoop(d.(drawnBefore := Renew(d, c).drawnBefore), Renew(d, c))
  {
    assert d.drawnBefore + Popped(d) + [] == d.drawnBefore + Popped(d);
  }

  /** connect() once the endpoint exists and core.start() was tried: a start that raised closes the
      client, and either way every waiter of a client that was open is awake. */
  lemma BegunKeeps(d: Client, started: bool)
    requires ClientOk(d) && d.core.Some?
    ensures var d' := Begun(d, started);
      && ClientOk(d') && Agrees(d') && SameLoop(d.(handedBefore := d.handedBefore + Handed(d)), d')
      && (!d.closed ==> AllAwake(d')) && d'.core.Some? && SameCore(d.core.value, d'.core.value)
  {
    AttachKeeps(d);
    if started { ProcessKeeps(Attach(d)); } else { TeardownKeeps(Attach(d), "connect failed"); }
  }

  /** Why, if at all, the client is closed then, and what it made of the transport. */
  lemma BegunVerdict(d: Client, started: bool)
    requires d.core.Some?
    ensures var d' := Begun(d, started);
      && (d.closed ==> d'.closed && d'.closeReason == d.closeReason)
      && (!d.closed && !started ==> d'.closed && d'.closeReason == "connect failed")
      && (!d.closed && started ==> (d'.closed <==> Verdict(d).Some?))
      && (!d.closed && started && d'.closed ==> d'.closeReason == Verdict(d).value)
      && d'.transport.Some? && (d'.transport.value.storedOpen <==> !d.closed)
  {
    if started && !d.closed { ProcessVerdict(Attach(d)); }
  }

  lemma ProcessVerdict(d: Client)
    requires d.core.Some? && !d.closed && d.transport.Some?
    ensures var d' := Process(d);
      && (d'.closed <==> Verdict(d).Some?) && (d'.closed ==> d'.closeReason == Verdict(d).value)
      && d'.transport.Some? && d'.transport.value.storedOpen == d.transport.value.storedOpen
  {
    if Verdict(d).Some? { assert Process(d) == Teardown(DrainSend(d), Verdict(d).value); }
  }

  /** A start that succeeds on a client that was never connected is not mistaken for a failure. */
  lemma StartNotMistaken(c: Core, initialized: bool, attempting: bool, e: Effect)
    requires CoreOk(c) && StartEffectOk(c, e)
    ensures var (c', r) := PyStart(c, initialized, attempting, e);
      && (r.Raise? ==> r.exc == RuntimeError && c'.lastError != "")
      && (!r.Raise? ==> c'.lastError == "" && !r.NoneYet?)
      && forall d: Client :: d.core == Some(c') && !r.Raise? && !d.wasConnected ==> Verdict(d).None?
  {
    StartKeeps(c, initialized, attempting, e);
  }

  /** close() on an open client with a transport: everything queued, then everything that closing
      queued, is handed over before the transport is closed, and nothing is left behind. */
  lemma CloseSendsEverything(d: Client, e: Effect)
    requires ClientOk(d) && d.core.Some? && !d.closed && EffectOk(d.core.value, e)
    ensures var d' := CloseClient(d, e);
      && ClientOk(d') && SameLoop(d, d') && AllAwake(d') && d'.closed
      && d'.closeReason == "closed by application"
      && d'.core.Some? && CoreAfter(d.core.value, d'.core.value)
      && (d'.transport.Some? <==> d.transport.Some?)
      && (d.transport.Some? ==>
            && d'.transport.value.storedOpen == d.transport.value.storedOpen
            && d'.core.value.queue == []
            && d'.transport.value.log ==
                 d.transport.value.log + Sends(d.core.value.queue)
                 + Sends(if d.core.value.kind.Raw? && !d.core.value.engine.session then [] else e.packets)
                 + [CloseTransport])
  {
    var c := Close(d.core.value, e);
    CloseKeeps(d.core.value, e);
    var d1 := d.(core := Some(c));
    SwapCoreKeeps(d, c);
    CloseShape(d, e);
    DrainThenTeardown(d1, "closed by application");
    SameCoreAfter(d.core.value, c, CloseClient(d, e).core.value);
    if d.transport.Some? {
      ClosingPackets(d, c, if d.core.value.kind.Raw? && !d.core.value.engine.session then [] else e.packets);
    }
  }

  lemma CloseShape(d: Client, e: Effect)
    requires d.core.Some? && !d.closed && d.closeReason == ""
    ensures CloseClient(d, e)
      == Teardown(DrainSend(d.(core := Some(Close(d.core.value, e)))), "closed by application")
  {}

  lemma ClosingPackets(d: Client, c: Core, more: seq<Bytes>)
    requires d.core.Some? && !d.closed && d.transport.Some? && c.queue == d.core.value.queue + more
    ensures var d' := Teardown(DrainSend(d.(core := Some(c))), "closed by application");
      && d'.transport.Some? && d'.transport.value.storedOpen == d.transport.value.storedOpen
      && d'.transport.value.log == d.transport.value.log + Sends(d.core.value.queue) + Sends(more) + [CloseTransport]
  {
    LastPackets(d.(core := Some(c)), "closed by application");
    SendsAppend(d.core.value.queue, more);
  }

  lemma SameCoreAfter(c: Core, c1: Core, c2: Core)
    requires CoreAfter(c, c1) && SameCore(c1, c2)
    ensures CoreAfter(c, c2)
  {}

  /** The end of an open client: drained, then torn down. */
  lemma DrainThenTeardown(d: Client, reason: string)
    requires ClientOk(d) && d.core.Some? && !d.closed
    ensures var d' := Teardown(DrainSend(d), reason);
      && ClientOk(d') && SameLoop(d, d') && AllAwake(d') && d'.closed && d'.closeReason == reason
      && d'.core.Some? && SameCore(d.core.value, d'.core.value)
      && (d.transport.Some? ==> d'.core.value.queue == [])
      && (d'.transport.Some? <==> d.transport.Some?)
  {
    DrainKeeps(d);
    TeardownKeeps(DrainSend(d), reason);
  }

  /** Drain then teardown appends the queue and one closing. */
  lemma LastPackets(d: Client, reason: string)
    requires d.core.Some? && !d.closed && d.transport.Some?
    ensures var d' := Teardown(DrainSend(d), reason);
      && d'.transport.Some? && d'.transport.value.storedOpen == d.transport.value.storedOpen
      && d'.transport.value.log == d.transport.value.log + Sends(d.core.value.queue) + [CloseTransport]
  {}
}
