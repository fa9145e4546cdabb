/** What every method of the client keeps, one call at a time. */
module DriverFacts {
  import opened Prelude
  import opened Engine
  import opened Glue
  import opened GlueInvariant
  import opened Driver

  /** Everything fetched from the cores was handed to the transports, in order. */
  predicate Forwarded(d: Client)
  {
    && d.handedBefore + Handed(d) == d.drawnBefore + Popped(d)
    && (d.transport.None? ==> d.handedBefore == [])
  }

  /** The transport saw what was handed to it, and, if it was stored while the client was open, is closed
      exactly when the client is, once, after the last packet. One that was stored too late saw nothing. */
  predicate TransportOk(d: Client)
  {
    d.transport.Some? ==>
      var t := d.transport.value;
      && d.core.Some? && !t.lost
      && (!t.storedOpen ==> d.closed && t.handed == [])
      && t.log == Sends(t.handed) + (if d.closed && t.storedOpen then [CloseTransport] else [])
  }

  /** The alarms a timer was set for can be rounded up. */
  predicate ArmedOk(armed: Armed) { armed.alarms != {} && TimesOk(armed.alarms) && 0 <= armed.at <= TIME_LIMIT }

  /** When a timer that was set for these alarms is due. */
  function DueAt(armed: Armed): int
    requires armed.alarms != {}
  {
    armed.at + RoundUpMs(Earliest(armed.alarms), armed.at) * 1000
  }

  /** The only live handle is the one in _timer, due for the alarms it was set for; a closed client has none. */
  predicate TimerOk(d: Client)
  {
    && (forall h :: h in d.handles ==> d.timer == Some(h) && h < d.nextHandle
                                       && ArmedOk(d.armed) && d.armed.at <= d.now && d.handles[h] == DueAt(d.armed))
    && (d.closed ==> d.handles == map[])
  }

  predicate FuturesKnown(d: Client)
  {
    && (forall f :: f in d.futures ==> f < d.nextFuture)
    && (forall f :: f in d.waiters ==> f in d.futures)
  }

  predicate FuturesOk(d: Client)
  {
    && FuturesKnown(d)
    && (d.closed ==> forall f :: f in d.waiters ==> !d.futures[f].Pending?)
  }

  predicate ClockOk(d: Client) { 0 <= d.now <= TIME_LIMIT }

  /** The invariant except that waiters of a closed client may not be awake yet. */
  ghost predicate AlmostOk(d: Client)
  {
    && (d.core.Some? ==> CoreOk(d.core.value))
    && Forwarded(d) && TransportOk(d) && TimerOk(d) && FuturesKnown(d) && ClockOk(d)
    && (!d.closed ==> d.closeReason == "")
  }

  ghost predicate ClientOk(d: Client) { AlmostOk(d) && FuturesOk(d) }

  /** While open, the cached flag is what the core says, once the core was asked to start. */
  predicate Agrees(d: Client)
  {
    !d.closed ==>
      if d.core.None? then !d.wasConnected
      else d.core.value.engine.session ==> (d.wasConnected <==> IsConnected(d.core.value))
  }

  /** Timer of an open client just processed: live iff an alarm is pending, due never before it
      and less than one millisecond after it (or after now, if it is overdue). */
  predicate TimerFresh(d: Client)
    requires d.core.Some?
  {
    var alarms := d.core.value.engine.alarms;
    && (d.timer.Some? <==> alarms != {})
    && (d.timer.Some? ==> d.armed == Armed(alarms, d.now))
    && (d.timer.Some? ==>
          var a := Earliest(alarms);
          var base := if a < d.now then d.now else a;
          && d.timer.value in d.handles && base <= d.handles[d.timer.value] < base + 1000
          && d.handles[d.timer.value] == d.now + RoundUpMs(a, d.now) * 1000)
  }

  /** The core after draining and rearming: same connection, streams and data. */
  predicate SameCore(c: Core, c': Core)
  {
    c' == c.(queue := c'.queue, lastError := c'.lastError, past := c.past.(popped := c'.past.popped))
  }

  /** What no internal method touches. */
  predicate SameLoop(d: Client, d': Client)
  {
    && d'.waiters == d.waiters && d'.now == d.now && d'.nextFuture == d.nextFuture
    && d'.drawnBefore == d.drawnBefore && d'.handedBefore == d.handedBefore
    && d'.futures.Keys == d.futures.Keys
    && (forall f :: f in d.futures && !d.futures[f].Pending? ==> d'.futures[f] == d.futures[f])
    && (forall f :: f in d.futures && f !in d.waiters ==> d'.futures[f] == d.futures[f])
    && (forall f :: f in d.futures && d'.futures[f].Pending? ==> d.futures[f].Pending?)
    && (forall f :: f in d.futures && d'.futures[f].Cancelled? ==> d.futures[f].Cancelled?)
  }

  predicate AllAwake(d: Client)
    requires FuturesOk(d)
  {
    forall f :: f in d.waiters ==> !d.futures[f].Pending?
  }

  lemma SendsAppend(a: seq<Bytes>, b: seq<Bytes>)
    ensures Sends(a + b) == Sends(a) + Sends(b)
  {}

  lemma DrainedKeeps(c: Core)
    requires CoreOk(c)
    ensures CoreOk(Drained(c)) && SameCore(c, Drained(c))
  {
    assert c.past.popped + c.queue + [] == c.past.popped + c.queue;
  }

  lemma DrainForwards(d: Client)
    requires Forwarded(d) && TransportOk(d) && d.core.Some? && !d.closed && d.transport.Some?
    ensures Forwarded(DrainSend(d)) && TransportOk(DrainSend(d))
  {
    var c, handed := d.core.value, d.transport.value.handed;
    SendsAppend(handed, c.queue);
    assert d.handedBefore + (handed + c.queue) == d.handedBefore + handed + c.queue;
    assert d.drawnBefore + (c.past.popped + c.queue) == d.drawnBefore + c.past.popped + c.queue;
  }

  lemma DrainKeeps(d: Client)
    requires ClientOk(d) && d.core.Some? && !d.closed
    ensures ClientOk(DrainSend(d)) && SameCore(d.core.value, DrainSend(d).core.value)
    ensures DrainSend(d) == d.(core := DrainSend(d).core, transport := DrainSend(d).transport)
    ensures DrainSend(d).core.value.lastError == d.core.value.lastError
    ensures d.transport.Some? ==>
      DrainSend(d).core.value.queue == []
      && DrainSend(d).core.value.past.popped == d.core.value.past.popped + d.core.value.queue
  {
    if d.transport.Some? {
      DrainedKeeps(d.core.value);
      DrainForwards(d);
    }
  }

  lemma WakeKeeps(d: Client)
    requires AlmostOk(d)
    ensures ClientOk(WakeWaiters(d)) && SameLoop(d, WakeWaiters(d)) && AllAwake(WakeWaiters(d))
  {}

  /** An open client at the end of `_teardown`, before the waiters are woken. */
  function Shut(d: Client, reason: string): Client
  {
    var d1 := CancelTimer(d.(closed := true, closeReason := reason));
    if d1.transport.None? then d1
    else d1.(transport := Some(d1.transport.value.(log := d1.transport.value.log + [CloseTransport])))
  }

  lemma ShutKeeps(d: Client, reason: string)
    requires ClientOk(d) && !d.closed
    ensures AlmostOk(Shut(d, reason))
  {
    assert TimerOk(CancelTimer(d.(closed := true, closeReason := reason)));
    if d.transport.Some? {
      var sent := Sends(d.transport.value.handed);
      assert sent + [] == sent;
    }
  }

  lemma ShutThenWake(d: Client, reason: string)
    requires !d.closed
    ensures Teardown(d, reason) == WakeWaiters(Shut(d, reason)) && SameLoop(d, Shut(d, reason))
  {}

  lemma SameLoopTrans(d: Client, d1: Client, d2: Client)
    requires SameLoop(d, d1) && SameLoop(d1, d2)
    ensures SameLoop(d, d2)
  {}

  lemma TeardownKeeps(d: Client, reason: string)
    requires ClientOk(d)
    ensures var d' := Teardown(d, reason);
      && ClientOk(d') && d'.closed && SameLoop(d, d') && AllAwake(d')
      && d'.core == d.core && d'.wasConnected == d.wasConnected
      && d'.closeReason == (if d.closed then d.closeReason else reason)
      && (d.closed ==> d' == d)
  {
    if !d.closed {
      ShutKeeps(d, reason);
      WakeKeeps(Shut(d, reason));
      ShutThenWake(d, reason);
      SameLoopTrans(d, Shut(d, reason), WakeWaiters(Shut(d, reason)));
    }
  }

  lemma CancelKeeps(d: Client)
    requires ClientOk(d)
    ensures ClientOk(CancelTimer(d)) && CancelTimer(d).handles == map[] && CancelTimer(d).timer.None?
    ensures CancelTimer(d) == d.(handles := map[], timer := None)
  {
    assert CancelTimer(d).handles == map[];
  }

  lemma ClearKeeps(d: Client)
    requires ClientOk(d) && d.core.Some?
    ensures ClientOk(d.(core := Some(Clear(d.core.value))))
  {
    ErrorTextIsFree(d.core.value, Clear(d.core.value));
  }

  /** Setting the timer for the earliest alarm. */
  lemma ArmKeeps(d: Client)
    requires ClientOk(d) && d.core.Some? && !d.closed && d.handles == map[] && d.core.value.engine.alarms != {}
    ensures var d' := CallLater(d, RoundUpMs(Earliest(d.core.value.engine.alarms), d.now));
      ClientOk(d') && TimerFresh(d')
  {
    RoundUpBounds(Earliest(d.core.value.engine.alarms), d.now);
    var d' := CallLater(d, RoundUpMs(Earliest(d.core.value.engine.alarms), d.now));
    assert TimerOk(d');
  }

  lemma RescheduleKeeps(d: Client)
    requires ClientOk(d) && d.core.Some? && !d.closed
    ensures var d' := RescheduleTimer(d);
      && ClientOk(d') && !d'.closed && d'.core == Some(Clear(d.core.value)) && TimerFresh(d')
      && d' == d.(core := d'.core, timer := d'.timer, handles := d'.handles, nextHandle := d'.nextHandle,
                  armed := d'.armed)
  {
    CancelKeeps(d);
    var d1 := CancelTimer(d);
    ClearKeeps(d1);
    var d2 := d1.(core := Some(Clear(d.core.value)));
    if d2.core.value.engine.alarms != {} {
      ArmKeeps(d2);
      assert RescheduleTimer(d) == CallLater(d2, RoundUpMs(Earliest(d2.core.value.engine.alarms), d2.now));
    } else {
      assert RescheduleTimer(d) == d2;
    }
  }

  /** Which closing, if any, `_process` performs. */
  function Verdict(d: Client): Option<string>
    requires d.core.Some?
  {
    var c := d.core.value;
    if IsConnected(c) then None
    else if d.wasConnected then Some(if c.lastError != "" then c.lastError else "connection closed")
    else if c.lastError != "" then Some(c.lastError)
    else None
  }

  /** What `_process` does to an open client: either it tears down for the stated reason, or it leaves
      a client that agrees with its core, with an accurate timer. Either way every waiter is awake. */
  ghost predicate Processed(d: Client, d': Client)
    requires d.core.Some?
  {
    && ClientOk(d') && SameLoop(d, d') && AllAwake(d') && Agrees(d')
    && d'.core.Some? && SameCore(d.core.value, d'.core.value)
    && (d'.closed <==> Verdict(d).Some?)
    && (d'.closed ==> d'.closeReason == Verdict(d).value && d'.core.value.lastError == d.core.value.lastError)
    && (!d'.closed ==> TimerFresh(d') && d'.core.value.lastError == "")
    && (d.transport.Some? ==> d'.core.value.queue == [])
    && (d'.transport.Some? <==> d.transport.Some?)
  }

  lemma ProcessTearsDown(d: Client)
    requires ClientOk(d) && d.core.Some? && !d.closed && Verdict(d).Some?
    ensures Processed(d, Process(d))
  {
    DrainKeeps(d);
    var d1 := DrainSend(d);
    assert Process(d) == Teardown(d1, Verdict(d).value);
    TeardownKeeps(d1, Verdict(d).value);
  }

  /** The end of `_process`: rearm, then wake. */
  lemma RearmAndWake(d: Client)
    requires ClientOk(d) && d.core.Some? && !d.closed
    ensures var d' := WakeWaiters(RescheduleTimer(d));
      && ClientOk(d') && SameLoop(d, d') && AllAwake(d') && !d'.closed && TimerFresh(d')
      && d'.core == Some(Clear(d.core.value)) && d'.wasConnected == d.wasConnected && d'.transport == d.transport
  {
    RescheduleKeeps(d);
    WakeKeeps(RescheduleTimer(d));
  }

  /** An open client when `_process` has drained and looked, and does not tear down. */
  function Looked(d: Client): Client
    requires d.core.Some?
  {
    DrainSend(d).(wasConnected := IsConnected(d.core.value))
  }

  lemma LookedKeeps(d: Client)
    requires ClientOk(d) && d.core.Some? && !d.closed
    ensures ClientOk(Looked(d)) && SameLoop(d, Looked(d)) && !Looked(d).closed && Looked(d).core.Some?
    ensures SameCore(d.core.value, Looked(d).core.value)
    ensures Looked(d).core.value.lastError == d.core.value.lastError
  {
    DrainKeeps(d);
  }

  lemma ProcessGoesOn(d: Client)
    requires ClientOk(d) && d.core.Some? && !d.closed && Verdict(d).None?
    ensures Process(d) == WakeWaiters(RescheduleTimer(Looked(d)))
    ensures IsConnected(Looked(d).core.value) == IsConnected(d.core.value)
    ensures Looked(d).transport.Some? <==> d.transport.Some?
    ensures d.transport.Some? ==> Looked(d).core.value.queue == []
  {}

  lemma ProcessGoesOnWell(d: Client)
    requires ClientOk(d) && d.core.Some? && !d.closed && Verdict(d).None?
    ensures Processed(d, Process(d))
  {
    LookedKeeps(d);
    RearmAndWake(Looked(d));
    ProcessGoesOn(d);
  }

  lemma ProcessKeeps(d: Client)
    requires ClientOk(d)
    ensures d.core.None? || d.closed ==> Process(d) == d
    ensures d.core.Some? && !d.closed ==> Processed(d, Process(d))
  {
    if d.core.Some? && !d.closed {
      if Verdict(d).Some? { ProcessTearsDown(d); } else { ProcessGoesOnWell(d); }
    }
  }
}
