/** Every transport and every core the client ever had, over whole runs: packets are
    handed over in order whatever is replaced, and which transports are ever closed. */
module Transports {
  import opened Prelude
  import opened Engine
  import opened Glue
  import opened GlueInvariant
  import opened Binding
  import opened AttemptFacts
  import opened Driver
  import opened DriverFacts
  import opened Machine
  import opened Waiting
  import opened Steps

  /** All packets fetched from some cores, in the order of the cores. */
  function DrawnFrom(cores: seq<Core>): seq<Bytes>
  {
    if cores == [] then [] else DrawnFrom(cores[..|cores| - 1]) + cores[|cores| - 1].past.popped
  }

  /** All packets handed to some transports, in the order of the transports. */
  function HandedTo(transports: seq<Transport>): seq<Bytes>
  {
    if transports == [] then [] else HandedTo(transports[..|transports| - 1]) + transports[|transports| - 1].handed
  }

  /** A transport that the client replaced: closed if and only if it was stored while the client was open
      and not replaced before the client was closed. */
  predicate ReplacedOk(t: Transport, closed: bool)
  {
    && (t.lost ==> t.storedOpen) && (!t.lost ==> closed) && (!t.storedOpen ==> t.handed == [])
    && t.log == Sends(t.handed) + (if t.storedOpen && !t.lost then [CloseTransport] else [])
  }

  ghost predicate StoredOk(s: Sys)
  {
    && s.d.drawnBefore == DrawnFrom(s.retired) && s.d.handedBefore == HandedTo(s.replaced)
    && (s.replaced != [] ==> s.d.transport.Some?)
    && forall i :: 0 <= i < |s.replaced| ==> ReplacedOk(s.replaced[i], s.d.closed)
  }

  // ----- what nothing but set-up changes

  predicate KeepsTransports(d: Client, d': Client)
  {
    && d'.drawnBefore == d.drawnBefore && d'.handedBefore == d.handedBefore
    && (d.closed ==> d'.closed) && (d.transport.Some? ==> d'.transport.Some?)
  }

  lemma TeardownKeepsTransports(d: Client, reason: string)
    ensures KeepsTransports(d, Teardown(d, reason))
  {}

  lemma RescheduleKeepsTransports(d: Client)
    requires d.core.Some?
    ensures KeepsTransports(d, WakeWaiters(RescheduleTimer(d)))
  {}

  lemma DriverKeepsTransports(d: Client)
    ensures KeepsTransports(d, Process(d))
  {
    if d.core.Some? && !d.closed {
      var d1 := DrainSend(d);
      if Verdict(d).Some? {
        assert Process(d) == Teardown(d1, Verdict(d).value);
        TeardownKeepsTransports(d1, Verdict(d).value);
      } else {
        assert Process(d) == WakeWaiters(RescheduleTimer(Looked(d)));
        RescheduleKeepsTransports(Looked(d));
      }
    }
  }

  ghost predicate Carries(s: Sys, s': Sys)
  {
    && KeepsTransports(s.d, s'.d) && s'.replaced == s.replaced && DrawnFrom(s'.retired) == DrawnFrom(s.retired)
  }

  lemma {:induction false} OneCoreMoves(cores: seq<Core>, g: nat, c: Core)
    requires g < |cores| && c.past.popped == cores[g].past.popped
    ensures DrawnFrom(cores[g := c]) == DrawnFrom(cores)
  {
    var n := |cores| - 1;
    if g < n {
      OneCoreMoves(cores[..n], g, c);
      assert cores[g := c][..n] == cores[..n][g := c];
    } else {
      assert cores[g := c][..n] == cores[..n];
    }
  }

  lemma SetCoreCarries(s: Sys, g: nat, c: Core)
    requires g < Cores(s) && c.past.popped == CoreAt(s, g).past.popped
    ensures Carries(s, SetCore(s, g, c))
  {
    if g < |s.retired| { OneCoreMoves(s.retired, g, c); }
  }

  lemma FailCarries(s: Sys, t: nat, exc: Exc, message: string)
    requires t < |s.tasks|
    ensures Carries(s, Fail(s, t, exc, message))
  {
    TeardownKeepsTransports(s.d, "connect failed");
  }

  lemma AfterAttemptCarries(s: Sys, t: nat, c: Core, r: Py<Val>)
    requires Equipped(s, t) && c.past.popped == CoreOf(s, t).past.popped
    ensures Carries(s, AfterAttempt(s, t, c, r))
  {
    SetCoreCarries(s, s.tasks[t].on.value, c);
    match r
    case Raise(exc, message) => FailCarries(Tried(s, t, c), t, exc, message);
    case Value(v) => DriverKeepsTransports(Grant(s, t, c, v).d);
    case NoneYet => FailCarries(Tried(s, t, c), t, TimeoutError, TimeoutText(s.kind));
  }

  lemma TurnCarries(s: Sys, t: nat, a: Answer, e: Effect)
    requires Base(s) && TurnOk(s, t, a, e)
    ensures Carries(s, Turn(s, t, a, e))
  {
    if s.d.closed {
      FailCarries(s, t, ConnectionError, GivenReason(s.d));
    } else {
      var (c, r) := Attempt(CoreOf(s, t), OpOf(s.tasks[t]), a, e);
      AttemptMoves(CoreOf(s, t), OpOf(s.tasks[t]), a, e);
      AfterAttemptCarries(s, t, c, r);
    }
  }

  lemma ResumeCarries(s: Sys, t: nat, a: Answer, e: Effect)
    requires Base(s) && Legal(s, Resume(t, a, e))
    ensures Carries(s, DoResume(s, t, a, e))
  {
    UnparkKeeps(s, t);
    match s.tasks[t].interrupt
    case CancelRequested => FailCarries(Unpark(s, t), t, CancelledError, "");
    case Expired => FailCarries(Unpark(s, t), t, TimeoutError, TimeoutText(s.kind));
    case Calm => TurnCarries(Unpark(s, t), t, a, e);
  }

  lemma SignalCarries(s: Sys, id: StreamId, on: nat, e: Effect)
    requires Base(s) && on < Cores(s) && AppEffectOk(CoreAt(s, on), e)
    ensures Carries(s, DoSignal(s, id, on, e))
  {
    var (c, st) := SignalStream(CoreAt(s, on), id, e);
    SignalKeeps(CoreAt(s, on), id, e);
    SetCoreCarries(s, on, c);
    DriverKeepsTransports(SetCore(s, on, c).d);
  }

  lemma CallbackCarries(s: Sys, act: Action)
    requires Legal(s, act) && IsCallback(act)
    ensures Carries(s, Step(s, act))
  {
    CallbackShape(s, act);
    match act
    case Packet(data, e) =>
      if s.d.core.Some? { DriverKeepsTransports(s.d.(core := Some(PyReceivePacket(s.d.core.value, data, e).0))); }
    case TimerFires(handle, e) =>
      if s.d.core.Some? {
        DriverKeepsTransports(
          s.d.(handles := s.d.handles - {handle}, core := Some(PyHandleTimeout(s.d.core.value, e).0)));
      }
    case ConnectionLost(cause) => TeardownKeepsTransports(s.d, if cause.None? then "connection lost" else cause.value);
    case CloseCall(e) => CloseCarries(s.d, e);
  }

  lemma CloseCarries(d: Client, e: Effect)
    ensures KeepsTransports(d, CloseClient(d, e))
  {}

  /** Set-up is the only thing that replaces cores or transports. */
  predicate SetsUp(act: Action)
  {
    (act.Lookup? || act.Endpoint?) && act.failure.None?
  }

  lemma StepCarries(s: Sys, act: Action)
    requires Base(s) && Legal(s, act) && !SetsUp(act)
    ensures Carries(s, Step(s, act))
  {
    if IsCallback(act) {
      CallbackCarries(s, act);
    } else if act.Continue? || act.Resume? || act.Signal? {
      TaskCarries(s, act);
    } else {
      QuietCarries(s, act);
    }
  }

  lemma TaskCarries(s: Sys, act: Action)
    requires Base(s) && Legal(s, act) && (act.Continue? || act.Resume? || act.Signal?)
    ensures Carries(s, Step(s, act))
  {
    match act
    case Continue(t, a, e) => TurnCarries(s, t, a, e);
    case Resume(t, a, e) => ResumeCarries(s, t, a, e);
    case Signal(id, on, e) => SignalCarries(s, id, on, e);
  }

  lemma QuietCarries(s: Sys, act: Action)
    requires Legal(s, act) && !SetsUp(act) && !IsCallback(act)
    requires !act.Continue? && !act.Resume? && !act.Signal?
    ensures Carries(s, Step(s, act))
  {
    if act.Lookup? || act.Endpoint? {
      assert Step(s, act) == Finish(s, act.t, Failed(act.failure.value, "set-up failed"));
    } else {
      QuietShape(s, act);
    }
  }

  // ----- set-up

  lemma EnlistStores(s: Sys, t: nat, c: Core)
    requires Base(s) && StoredOk(s) && t < |s.tasks|
    ensures StoredOk(Enlist(s, t, c))
  {
    var retired := Enlist(s, t, c).retired;
    if s.d.core.Some? {
      assert retired[..|retired| - 1] == s.retired;
    } else {
      assert s.d.drawnBefore + [] == s.d.drawnBefore;
    }
  }

  /** What attaching a transport makes of the one before. */
  lemma AttachReplaces(s: Sys, started: bool)
    ensures var s' := AttachTo(s, started);
      && KeepsTransports(Attach(s.d), s'.d) && s'.retired == s.retired && s'.d.transport.Some?
      && s'.replaced == (if s.d.transport.None? then s.replaced
                         else s.replaced + [s.d.transport.value.(lost := !s.d.closed)])
  {
    if started {
      DriverKeepsTransports(Attach(s.d));
    } else {
      TeardownKeepsTransports(Attach(s.d), "connect failed");
    }
  }

  lemma AttachStores(s: Sys, started: bool)
    requires ClientOk(s.d) && StoredOk(s)
    ensures StoredOk(AttachTo(s, started))
  {
    var s' := AttachTo(s, started);
    AttachReplaces(s, started);
    if s.d.transport.Some? {
      assert s'.replaced[..|s'.replaced| - 1] == s.replaced;
      assert ReplacedOk(s.d.transport.value.(lost := !s.d.closed), s.d.closed);
    } else {
      assert s.d.handedBefore + [] == s.d.handedBefore;
    }
  }

  /** The system once the transport is stored and the handshake of the call's own core was started. */
  function Underway(s: Sys, t: nat, initialized: bool, attempting: bool, e: Effect): Sys
    requires Equipped(s, t)
  {
    var (c, r) := PyStart(CoreOf(s, t), initialized, attempting, e);
    AttachTo(SetCore(s, s.tasks[t].on.value, c), !r.Raise?)
  }

  lemma EndpointParts(s: Sys, t: nat, initialized: bool, attempting: bool, e: Effect)
    requires Equipped(s, t)
    ensures var s1 := Underway(s, t, initialized, attempting, e);
      var s' := DoEndpoint(s, t, None, initialized, attempting, e);
      && s'.d == s1.d && s'.retired == s1.retired && s'.replaced == s1.replaced && s'.starters == s1.starters
  {}

  lemma UnderwayStores(s: Sys, t: nat, initialized: bool, attempting: bool, e: Effect)
    requires Base(s) && StoredOk(s) && Equipped(s, t) && StartEffectOk(CoreOf(s, t), e)
    ensures StoredOk(Underway(s, t, initialized, attempting, e))
  {
    var (c, r) := PyStart(CoreOf(s, t), initialized, attempting, e);
    StartKeeps(CoreOf(s, t), initialized, attempting, e);
    StartedClient(s, t, c, true);
    SetCoreCarries(s, s.tasks[t].on.value, c);
    AttachStores(SetCore(s, s.tasks[t].on.value, c), !r.Raise?);
  }

  lemma EndpointStores(s: Sys, t: nat, initialized: bool, attempting: bool, e: Effect)
    requires Base(s) && StoredOk(s) && Equipped(s, t) && StartEffectOk(CoreOf(s, t), e)
    ensures StoredOk(DoEndpoint(s, t, None, initialized, attempting, e))
  {
    UnderwayStores(s, t, initialized, attempting, e);
    EndpointParts(s, t, initialized, attempting, e);
  }

  lemma StepKeepsStored(s: Sys, act: Action)
    requires Base(s) && StoredOk(s) && Legal(s, act)
    ensures StoredOk(Step(s, act))
  {
    if !SetsUp(act) {
      StepCarries(s, act);
    } else if act.Lookup? {
      EnlistStores(s, act.t, NewCore(s.kind, act.serverName));
    } else {
      EndpointStores(s, act.t, act.initialized, act.attempting, act.e);
    }
  }

  lemma {:induction false} RunKeepsStored(s: Sys, acts: seq<Action>)
    requires Base(s) && StoredOk(s) && LegalRun(s, acts)
    ensures Base(Run(s, acts)) && StoredOk(Run(s, acts))
    decreases |acts|
  {
    if acts != [] {
      StepKeepsBase(s, acts[0]);
      StepKeepsStored(s, acts[0]);
      RunKeepsStored(Step(s, acts[0]), acts[1..]);
    }
  }
}
