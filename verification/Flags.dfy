/** When the cached connection flag goes up, step by step: only for a core that is
    connected; and no step but the making of a new core takes back that a handshake
    was started. */
module Flags {
  import opened Prelude
  import opened Engine
  import opened Glue
  import opened GlueInvariant
  import opened Binding
  import opened AttemptFacts
  import opened Driver
  import opened DriverFacts
  import opened Machine
  import opened Waiting
  import opened Steps

  /** The flag is what the core says. */
  predicate FlagAgrees(d: Client) { d.wasConnected <==> d.core.Some? && IsConnected(d.core.value) }

  /** Whether there is a core stays, and a started handshake stays started. */
  predicate StaysStarted(d: Client, d': Client)
  {
    && (d'.core.Some? <==> d.core.Some?)
    && (d.core.Some? && d.core.value.engine.session ==> d'.core.value.engine.session)
  }

  predicate Looks(d: Client, d': Client)
  {
    && StaysStarted(d, d')
    && (d'.wasConnected ==> d.wasConnected || (d'.core.Some? && IsConnected(d'.core.value)))
  }

  lemma AgreementStays(d: Client, d': Client)
    requires Looks(d, d') && FlagAgrees(d) && Agrees(d')
    requires d.core.Some? ==> SessionOk(d.core.value) && SessionOk(d'.core.value)
    ensures d'.closed || FlagAgrees(d')
  {}

  /** On a client that was never connected `_process` tears down exactly for a text. */
  lemma TextDecides(d: Client)
    requires d.core.Some? && SessionOk(d.core.value) && Agrees(d) && !d.closed && !d.wasConnected
    ensures Verdict(d) == if d.core.value.lastError != "" then Some(d.core.value.lastError) else None
  {}

  lemma TeardownLooks(d: Client, reason: string)
    ensures Teardown(d, reason).core == d.core && Teardown(d, reason).wasConnected == d.wasConnected
  {}

  lemma ProcessLooks(d: Client)
    ensures Looks(d, Process(d))
  {
    if d.core.Some? && !d.closed {
      if Verdict(d).Some? {
        assert Process(d) == Teardown(DrainSend(d), Verdict(d).value);
        TeardownLooks(DrainSend(d), Verdict(d).value);
      } else {
        assert Process(d) == WakeWaiters(RescheduleTimer(Looked(d)));
        RearmLooks(Looked(d));
      }
    }
  }

  lemma RearmLooks(d: Client)
    requires d.core.Some?
    ensures var d' := WakeWaiters(RescheduleTimer(d));
      d'.wasConnected == d.wasConnected && d'.core == Some(Clear(d.core.value))
  {}

  /** First the core moves, then the driver looks. */
  lemma MoveThenLook(d: Client, d1: Client, d2: Client)
    requires StaysStarted(d, d1) && d1.wasConnected == d.wasConnected && Looks(d1, d2)
    ensures Looks(d, d2)
  {}

  lemma SetCoreStarted(s: Sys, g: nat, c: Core)
    requires g < Cores(s) && (CoreAt(s, g).engine.session ==> c.engine.session)
    ensures StaysStarted(s.d, SetCore(s, g, c).d) && SetCore(s, g, c).d.wasConnected == s.d.wasConnected
  {}

  lemma FailLooks(s: Sys, t: nat, exc: Exc, message: string)
    requires t < |s.tasks|
    ensures Looks(s.d, Fail(s, t, exc, message).d)
  {
    TeardownLooks(s.d, "connect failed");
  }

  lemma ValueLooks(s: Sys, t: nat, c: Core, v: Val)
    requires Equipped(s, t) && (CoreOf(s, t).engine.session ==> c.engine.session)
    ensures Looks(s.d, AfterAttempt(s, t, c, Value(v)).d)
  {
    SetCoreStarted(s, s.tasks[t].on.value, c);
    ProcessLooks(Grant(s, t, c, v).d);
    MoveThenLook(s.d, Grant(s, t, c, v).d, Process(Grant(s, t, c, v).d));
  }

  lemma LingerLooks(s: Sys, t: nat)
    requires t < |s.tasks|
    ensures Looks(s.d, Linger(s, t).d)
  {
    FailLooks(s, t, TimeoutError, TimeoutText(s.kind));
  }

  lemma AfterAttemptLooks(s: Sys, t: nat, c: Core, r: Py<Val>)
    requires Equipped(s, t) && (CoreOf(s, t).engine.session ==> c.engine.session)
    ensures Looks(s.d, AfterAttempt(s, t, c, r).d)
  {
    var s1 := Tried(s, t, c);
    SetCoreStarted(s, s.tasks[t].on.value, c);
    match r
    case Raise(exc, message) =>
      FailLooks(s1, t, exc, message);
      MoveThenLook(s.d, s1.d, Fail(s1, t, exc, message).d);
    case Value(v) => ValueLooks(s, t, c, v);
    case NoneYet =>
      LingerLooks(s1, t);
      MoveThenLook(s.d, s1.d, Linger(s1, t).d);
  }

  lemma TurnLooks(s: Sys, t: nat, a: Answer, e: Effect)
    requires CoresOk(s) && TurnOk(s, t, a, e)
    ensures Looks(s.d, Turn(s, t, a, e).d)
  {
    if s.d.closed {
      FailLooks(s, t, ConnectionError, GivenReason(s.d));
    } else {
      var (c, r) := Attempt(CoreOf(s, t), OpOf(s.tasks[t]), a, e);
      AttemptMoves(CoreOf(s, t), OpOf(s.tasks[t]), a, e);
      AfterAttemptLooks(s, t, c, r);
    }
  }

  lemma ResumeLooks(s: Sys, t: nat, a: Answer, e: Effect)
    requires CoresOk(s) && Resumable(s, t) && (s.tasks[t].interrupt.Calm? ==> TurnOk(Unpark(s, t), t, a, e))
    ensures Looks(s.d, DoResume(s, t, a, e).d)
  {
    var s1 := Unpark(s, t);
    assert forall g :: 0 <= g < Cores(s) ==> CoreAt(s1, g) == CoreAt(s, g);
    match s.tasks[t].interrupt
    case CancelRequested => FailLooks(s1, t, CancelledError, "");
    case Expired => FailLooks(s1, t, TimeoutError, TimeoutText(s.kind));
    case Calm => TurnLooks(s1, t, a, e);
  }

  lemma SignalLooks(s: Sys, id: StreamId, on: nat, e: Effect)
    requires CoresOk(s) && on < Cores(s) && AppEffectOk(CoreAt(s, on), e)
    ensures Looks(s.d, DoSignal(s, id, on, e).d)
  {
    var (c, st) := SignalStream(CoreAt(s, on), id, e);
    SignalKeeps(CoreAt(s, on), id, e);
    SetCoreStarted(s, on, c);
    ProcessLooks(SetCore(s, on, c).d);
    MoveThenLook(s.d, SetCore(s, on, c).d, Process(SetCore(s, on, c).d));
  }

  lemma EventKeepsSession(c: Core, data: Bytes, e: Effect)
    requires CoreOk(c) && EffectOk(c, e)
    ensures PyReceivePacket(c, data, e).0.engine.session == c.engine.session
    ensures PyHandleTimeout(c, e).0.engine.session == c.engine.session
    ensures Close(c, e).engine.session == c.engine.session
  {
    ReceiveKeeps(c, data, e);
    TimeoutKeeps(c, e);
    CloseKeeps(c, e);
  }

  /** A callback: the core moves, and unless it raised the driver looks. */
  lemma CallbackForm(d: Client, d1: Client, raised: bool)
    requires StaysStarted(d, d1) && d1.wasConnected == d.wasConnected
    ensures Looks(d, if raised then d1 else Process(d1))
  {
    ProcessLooks(d1);
    MoveThenLook(d, d1, Process(d1));
  }

  lemma PacketLooks(d: Client, data: Bytes, e: Effect)
    requires d.core.Some? && CoreOk(d.core.value) && EffectOk(d.core.value, e)
    ensures Looks(d, OnReceive(d, data, e))
  {
    if !d.closed {
      var (c, r) := PyReceivePacket(d.core.value, data, e);
      EventKeepsSession(d.core.value, data, e);
      CallbackForm(d, d.(core := Some(c)), r.Raise?);
    }
  }

  lemma TimerLooks(d: Client, handle: nat, e: Effect)
    requires d.core.Some? && CoreOk(d.core.value) && EffectOk(d.core.value, e)
    ensures Looks(d, OnTimeout(d, handle, e))
  {
    if !d.closed {
      var (c, r) := PyHandleTimeout(d.core.value, e);
      EventKeepsSession(d.core.value, [], e);
      CallbackForm(d, d.(handles := d.handles - {handle}, core := Some(c)), r.Raise?);
    }
  }

  lemma CloseLooks(d: Client, e: Effect)
    requires d.core.Some? ==> CoreOk(d.core.value) && EffectOk(d.core.value, e)
    ensures Looks(d, CloseClient(d, e))
  {
    if d.core.Some? && !d.closed {
      EventKeepsSession(d.core.value, [], e);
      var d1 := d.(core := Some(Close(d.core.value, e)));
      TeardownLooks(DrainSend(d1), GivenText(DrainSend(d1)));
      assert CloseClient(d, e) == Teardown(DrainSend(d1), GivenText(DrainSend(d1)));
    }
  }

  lemma CallbackLooks(s: Sys, act: Action)
    requires ClientOk(s.d) && Legal(s, act) && IsCallback(act)
    ensures Looks(s.d, Step(s, act).d)
  {
    match act
    case Packet(data, e) => if s.d.core.Some? { PacketLooks(s.d, data, e); }
    case TimerFires(handle, e) => if s.d.core.Some? { TimerLooks(s.d, handle, e); }
    case ConnectionLost(cause) => TeardownLooks(s.d, if cause.None? then "connection lost" else cause.value);
    case CloseCall(e) => CloseLooks(s.d, e);
  }

  lemma EndpointLooks(s: Sys, t: nat, initialized: bool, attempting: bool, e: Effect)
    requires CoresOk(s) && Equipped(s, t) && StartEffectOk(CoreOf(s, t), e)
    ensures Looks(s.d, DoEndpoint(s, t, None, initialized, attempting, e).d)
  {
    var (c, r) := PyStart(CoreOf(s, t), initialized, attempting, e);
    StartKeeps(CoreOf(s, t), initialized, attempting, e);
    BegunShape(s, t, initialized, attempting, e);
    var d1 := SetCore(s, s.tasks[t].on.value, c).d;
    SetCoreStarted(s, s.tasks[t].on.value, c);
    BegunLooks(d1, !r.Raise?);
    MoveThenLook(s.d, d1, Begun(d1, !r.Raise?));
  }

  lemma BegunLooks(d: Client, started: bool)
    ensures Looks(d, Begun(d, started))
  {
    ProcessLooks(Attach(d));
    TeardownLooks(Attach(d), "connect failed");
  }

  lemma QuietLooks(s: Sys, act: Action)
    requires Legal(s, act) && (act.Tick? || act.Invoke? || act.Expire? || act.Cancel?)
    ensures Looks(s.d, Step(s, act).d)
  {
    QuietShape(s, act);
  }

  lemma SetupLooks(s: Sys, act: Action)
    requires CoresOk(s) && Legal(s, act) && (act.Endpoint? || (act.Lookup? && act.failure.Some?))
    ensures Looks(s.d, Step(s, act).d)
  {
    if act.failure.Some? {
      assert Step(s, act) == Finish(s, act.t, Failed(act.failure.value, "set-up failed"));
    } else {
      EndpointLooks(s, act.t, act.initialized, act.attempting, act.e);
      assert Step(s, act) == DoEndpoint(s, act.t, None, act.initialized, act.attempting, act.e);
    }
  }

  lemma TaskLooks(s: Sys, act: Action)
    requires CoresOk(s) && Legal(s, act) && (act.Continue? || act.Resume? || act.Signal?)
    ensures Looks(s.d, Step(s, act).d)
  {
    match act
    case Continue(t, a, e) => TurnLooks(s, t, a, e);
    case Resume(t, a, e) => ResumeLooks(s, t, a, e);
    case Signal(id, on, e) => SignalLooks(s, id, on, e);
  }

  /** Every step but the one in which connect() makes a core. */
  lemma StepLooks(s: Sys, act: Action)
    requires Base(s) && Legal(s, act) && !(act.Lookup? && act.failure.None?)
    ensures Looks(s.d, Step(s, act).d)
  {
    if IsCallback(act) {
      CallbackLooks(s, act);
    } else if act.Tick? || act.Invoke? || act.Expire? || act.Cancel? {
      QuietLooks(s, act);
    } else if act.Lookup? || act.Endpoint? {
      SetupLooks(s, act);
    } else {
      TaskLooks(s, act);
    }
  }
}
