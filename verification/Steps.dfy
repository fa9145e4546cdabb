/** Every step of every task, callback and timer keeps the base invariant; hence
    it holds in every reachable state of every run. */
module Steps {
  import opened Prelude
  import opened Engine
  import opened Glue
  import opened GlueInvariant
  import opened Binding
  import opened AttemptFacts
  import opened Driver
  import opened DriverFacts
  import opened DriverEvents
  import opened Machine
  import opened Waiting

  /** What a task has to be when it joins the table. */
  ghost predicate MayJoin(s: Sys, k: Task, running: Option<nat>)
  {
    && s.running.None? && TaskOk(s.kind, s.d.now, k) && CallFits(s.kind, k.call)
    && (k.phase.Ready? || k.phase.Resolving? || k.phase.Finished?)
    && running == (if k.phase.Ready? then Some(|s.tasks|) else None)
    && (k.on.Some? ==> k.on.value < Cores(s) && !k.call.Connect?)
    && (k.phase.Ready? ==> k.on.Some?) && (k.phase.Resolving? ==> k.on.None?)
  }

  lemma AddTaskTable(s: Sys, k: Task, running: Option<nat>)
    requires CoresOk(s) && PhasesOk(s) && TasksOk(s) && MayJoin(s, k, running)
    ensures var s' := s.(tasks := s.tasks + [k], running := running); CoresOk(s') && PhasesOk(s') && TasksOk(s')
  {
    var s' := s.(tasks := s.tasks + [k], running := running);
    assert forall g :: 0 <= g < Cores(s) ==> CoreAt(s', g) == CoreAt(s, g);
    forall u | 0 <= u < |s'.tasks| ensures PhaseOk(s', u) {
      if u < |s.tasks| { assert PhaseOk(s, u); }
    }
  }

  lemma AddTaskWaits(s: Sys, k: Task, running: Option<nat>)
    requires WaitersOk(s) && FuturesOk(s.d) && SleepOk(s) && !k.phase.Parked?
    ensures var s' := s.(tasks := s.tasks + [k], running := running); WaitersOk(s') && SleepOk(s')
  {
    OthersSleep(s, s.(tasks := s.tasks + [k], running := running));
  }

  lemma AddTaskKeeps(s: Sys, k: Task, running: Option<nat>)
    requires Base(s) && MayJoin(s, k, running)
    ensures Base(s.(tasks := s.tasks + [k], running := running))
  {
    AddTaskTable(s, k, running);
    AddTaskWaits(s, k, running);
  }

  lemma InvokeJoins(s: Sys, call: Call, timeout: Option<int>, on: nat)
    requires s.running.None? && CallFits(s.kind, call) && (OnStream(call) ==> on < Cores(s))
    ensures var s' := DoInvoke(s, call, timeout, on);
      && |s'.tasks| == |s.tasks| + 1 && MayJoin(s, s'.tasks[|s.tasks|], s'.running)
      && s' == s.(tasks := s.tasks + [s'.tasks[|s.tasks|]], running := s'.running)
  {
    StagesPositive();
    InvokeShape(s, call, timeout, on);
  }

  lemma InvokeShape(s: Sys, call: Call, timeout: Option<int>, on: nat)
    ensures var s' := DoInvoke(s, call, timeout, on);
      && |s'.tasks| == |s.tasks| + 1 && s'.tasks == s.tasks + [s'.tasks[|s.tasks|]]
      && s' == s.(tasks := s'.tasks, running := s'.running)
  {}

  lemma InvokeKeeps(s: Sys, call: Call, timeout: Option<int>, on: nat)
    requires Base(s) && Legal(s, Invoke(call, timeout, on))
    ensures Base(DoInvoke(s, call, timeout, on))
  {
    var s' := DoInvoke(s, call, timeout, on);
    InvokeJoins(s, call, timeout, on);
    AddTaskKeeps(s, s'.tasks[|s.tasks|], s'.running);
  }

  lemma NoCoreNoWaiters(s: Sys)
    requires Base(s) && s.d.core.None?
    ensures s.d.waiters == []
    ensures forall t :: 0 <= t < |s.tasks| ==> !s.tasks[t].phase.Parked? && !s.tasks[t].phase.Ready?
  {
    forall t | 0 <= t < |s.tasks| ensures !s.tasks[t].phase.Parked? && !s.tasks[t].phase.Ready? {
      assert PhaseOk(s, t);
    }
    HeadIsMember(s.d.waiters);
  }

  /** A core is added and made the client's own: nobody else's core changes. */
  lemma EnlistCores(s: Sys, t: nat, c: Core)
    requires (s.retired != [] ==> s.d.core.Some?) && t < |s.tasks|
    ensures var s' := Enlist(s, t, c);
      && Cores(s') == Cores(s) + 1 && (forall g :: 0 <= g < Cores(s) ==> CoreAt(s', g) == CoreAt(s, g))
      && CoreAt(s', Cores(s)) == c
  {}

  lemma EnlistTable(s: Sys, t: nat, c: Core)
    requires CoresOk(s) && PhasesOk(s) && TasksOk(s) && t < |s.tasks| && s.running.None?
    requires s.tasks[t].phase.Resolving? && CoreOk(c) && c.kind == s.kind && !c.engine.session
    ensures var s' := Enlist(s, t, c); CoresOk(s') && PhasesOk(s') && TasksOk(s')
  {
    var s' := Enlist(s, t, c);
    EnlistCores(s, t, c);
    assert PhaseOk(s, t) && TaskOk(s.kind, s.d.now, s.tasks[t]);
    forall u | 0 <= u < |s'.tasks| ensures PhaseOk(s', u) { assert PhaseOk(s, u); }
  }

  lemma EnlistKeeps(s: Sys, t: nat, c: Core)
    requires Base(s) && t < |s.tasks| && s.running.None? && s.tasks[t].phase.Resolving?
    requires CoreOk(c) && c.kind == s.kind && !c.engine.session && c.past.popped == []
    ensures Base(Enlist(s, t, c))
  {
    EnlistTable(s, t, c);
    EnlistCores(s, t, c);
    RenewKeeps(s.d, c);
    OthersSleep(s, Enlist(s, t, c));
  }

  lemma LookupKeeps(s: Sys, t: nat, failure: Option<Exc>, serverName: string)
    requires Base(s) && t < |s.tasks| && s.running.None? && s.tasks[t].phase.Resolving?
    requires failure.Some? ==> failure.value != TimeoutError
    ensures Base(DoLookup(s, t, failure, serverName))
  {
    if failure.Some? {
      FinishKeeps(s, t, Failed(failure.value, "set-up failed"));
    } else {
      NewCoreOk(s.kind, serverName);
      EnlistKeeps(s, t, NewCore(s.kind, serverName));
    }
  }

  /** The handshake of one core starts, and every waiter of an open client is woken: seen as the task
      moving on first, the core second and the driver third. */
  lemma BegunMoves(s: Sys, t: nat, k: Task, running: Option<nat>, c: Core, d: Client, replaced: seq<Transport>)
    requires Base(s) && Equipped(s, t) && s.running.None? && s.tasks[t].phase.Attaching?
    requires k.call == s.tasks[t].call && k.on == s.tasks[t].on && TaskOk(s.kind, s.d.now, k)
    requires k.phase.Ready? || k.phase.Finished?
    requires running == (if k.phase.Ready? then Some(t) else None)
    requires CoreOk(c) && c.kind == s.kind
    requires ClientOk(d) && Agrees(d) && SameLoop(s.d.(handedBefore := d.handedBefore), d) && d.core.Some?
    requires d.closed || AllAwake(d)
    requires SameCore(if s.tasks[t].on.value == |s.retired| then c else s.d.core.value, d.core.value)
    ensures var s1 := if s.tasks[t].on.value < |s.retired| then s.retired[s.tasks[t].on.value := c] else s.retired;
      Base(s.(tasks := s.tasks[t := k], running := running, retired := s1, d := d, events := s.events + 1,
              replaced := replaced))
  {
    var g := s.tasks[t].on.value;
    var retired := if g < |s.retired| then s.retired[g := c] else s.retired;
    var s' := s.(tasks := s.tasks[t := k], running := running, retired := retired, d := d, events := s.events + 1,
                 replaced := replaced);
    BegunTable(s, t, k, running, c, s');
    BegunWaits(s, t, k, s');
  }

  lemma BegunWaits(s: Sys, t: nat, k: Task, s': Sys)
    requires WaitersOk(s) && t < |s.tasks| && !s.tasks[t].phase.Parked? && !k.phase.Parked?
    requires s'.tasks == s.tasks[t := k] && s'.owners == s.owners && s'.d.waiters == s.d.waiters && FuturesOk(s'.d)
    requires s'.d.closed || AllAwake(s'.d)
    ensures WaitersOk(s') && SleepOk(s')
  {
    assert forall f :: f in s.d.waiters ==> s.owners[f] != t;
  }

  lemma BegunTable(s: Sys, t: nat, k: Task, running: Option<nat>, c: Core, s': Sys)
    requires CoresOk(s) && PhasesOk(s) && TasksOk(s) && Equipped(s, t) && s.running.None?
    requires k.call == s.tasks[t].call && k.on == s.tasks[t].on && TaskOk(s.kind, s.d.now, k)
    requires k.phase.Ready? || k.phase.Finished?
    requires running == (if k.phase.Ready? then Some(t) else None) && s.tasks[t].phase.Attaching?
    requires CoreOk(c) && c.kind == s.kind && s'.d.core.Some? && CoreOk(s'.d.core.value) && s'.d.now == s.d.now
    requires SameCore(if s.tasks[t].on.value == |s.retired| then c else s.d.core.value, s'.d.core.value)
    requires s'.retired ==
      (if s.tasks[t].on.value < |s.retired| then s.retired[s.tasks[t].on.value := c] else s.retired)
    requires s'.kind == s.kind && s'.starters == s.starters && s'.tasks == s.tasks[t := k] && s'.running == running
    ensures CoresOk(s') && PhasesOk(s') && TasksOk(s')
  {
    var g := s.tasks[t].on.value;
    assert Cores(s') == Cores(s) && PhaseOk(s, t);
    assert s.d.core.Some? && CoreAt(s, |s.retired|) == s.d.core.value;
    forall h | 0 <= h < |s.retired| ensures CoreOk(CoreAt(s', h)) && CoreAt(s', h).kind == s.kind {
      assert h != g ==> CoreAt(s', h) == CoreAt(s, h);
    }
    forall u | 0 <= u < |s'.tasks| ensures PhaseOk(s', u) {
      assert PhaseOk(s, u);
      if u != t && s.tasks[u].phase.Attaching? {
        assert TaskOk(s.kind, s.d.now, s.tasks[u]) && TaskOk(s.kind, s.d.now, s.tasks[t]);
        assert s.tasks[u].on != Some(g);
      }
    }
  }

  /** The started core in its place, the driver may go on from there. */
  lemma StartedClient(s: Sys, t: nat, c: Core, started: bool)
    requires ClientOk(s.d) && (s.retired != [] ==> s.d.core.Some?)
    requires Equipped(s, t) && CoreOk(c) && c.past.popped == CoreOf(s, t).past.popped
    ensures var d1 := SetCore(s, s.tasks[t].on.value, c).d;
      && ClientOk(d1) && SameLoop(s.d, d1) && d1.core.Some? && d1.closed == s.d.closed
      && d1.core.value == (if s.tasks[t].on.value == |s.retired| then c else s.d.core.value)
  {
    if s.tasks[t].on.value == |s.retired| { SwapCoreKeeps(s.d, c); }
  }

  lemma BegunKeepsBase(s: Sys, t: nat, k: Task, running: Option<nat>, c: Core, started: bool, replaced: seq<Transport>)
    requires Base(s) && Equipped(s, t) && s.running.None? && s.tasks[t].phase.Attaching?
    requires k.call == s.tasks[t].call && k.on == s.tasks[t].on && TaskOk(s.kind, s.d.now, k)
    requires k.phase.Ready? || k.phase.Finished?
    requires running == (if k.phase.Ready? then Some(t) else None)
    requires CoreOk(c) && c.kind == s.kind && c.past.popped == CoreOf(s, t).past.popped
    ensures var s1 := SetCore(s, s.tasks[t].on.value, c);
      Base(s.(tasks := s.tasks[t := k], running := running, retired := s1.retired, d := Begun(s1.d, started),
              events := s.events + 1, replaced := replaced))
  {
    BegunClient(s, t, c, started);
    BegunMoves(s, t, k, running, c, Begun(SetCore(s, s.tasks[t].on.value, c).d, started), replaced);
  }

  /** The driver, gone on from there, as the task table needs it. */
  lemma BegunClient(s: Sys, t: nat, c: Core, started: bool)
    requires ClientOk(s.d) && (s.retired != [] ==> s.d.core.Some?)
    requires Equipped(s, t) && CoreOk(c) && c.past.popped == CoreOf(s, t).past.popped
    ensures var d := Begun(SetCore(s, s.tasks[t].on.value, c).d, started);
      && ClientOk(d) && Agrees(d) && SameLoop(s.d.(handedBefore := d.handedBefore), d) && d.core.Some?
      && (d.closed || AllAwake(d))
      && SameCore(if s.tasks[t].on.value == |s.retired| then c else s.d.core.value, d.core.value)
  {
    StartedClient(s, t, c, started);
    BegunLoop(s.d, SetCore(s, s.tasks[t].on.value, c).d, started);
  }

  lemma BegunLoop(d: Client, d1: Client, started: bool)
    requires ClientOk(d1) && d1.core.Some? && SameLoop(d, d1)
    ensures var d' := Begun(d1, started);
      && ClientOk(d') && Agrees(d') && SameLoop(d.(handedBefore := d'.handedBefore), d') && d'.core.Some?
      && (d'.closed || AllAwake(d')) && SameCore(d1.core.value, d'.core.value)
  {
    BegunKeeps(d1, started);
    if d1.closed { ClosedBegun(d1, started); }
  }

  lemma ClosedBegun(d: Client, started: bool)
    requires d.closed
    ensures Begun(d, started) == Attach(d)
  {}

  function BegunTask(s: Sys, t: nat, r: Py<()>): Task
    requires t < |s.tasks|
  {
    if r.Raise? then s.tasks[t].(phase := Finished(Failed(r.exc, r.message), s.d.now))
    else s.tasks[t].(phase := Ready, since := s.d.now, began := Some(s.d.now))
  }

  lemma BegunShape(s: Sys, t: nat, initialized: bool, attempting: bool, e: Effect)
    requires Equipped(s, t)
    ensures var (c, r) := PyStart(CoreOf(s, t), initialized, attempting, e);
      var s1 := SetCore(s, s.tasks[t].on.value, c);
      var s' := DoEndpoint(s, t, None, initialized, attempting, e);
      s' == s.(tasks := s.tasks[t := BegunTask(s, t, r)], running := if r.Raise? then None else Some(t),
               retired := s1.retired, d := Begun(s1.d, !r.Raise?), events := s.events + 1, replaced := s'.replaced)
  {
    BegunNow(s.d, true);
    var (c, r) := PyStart(CoreOf(s, t), initialized, attempting, e);
    BegunNow(SetCore(s, s.tasks[t].on.value, c).d, !r.Raise?);
  }

  lemma BegunNow(d: Client, started: bool)
    ensures Begun(d, started).now == d.now
  {}

  lemma EndpointKeeps(s: Sys, t: nat, failure: Option<Exc>, initialized: bool, attempting: bool, e: Effect)
    requires Base(s) && s.running.None? && Equipped(s, t) && s.tasks[t].phase.Attaching?
    requires StartEffectOk(CoreOf(s, t), e) && (failure.Some? ==> failure.value != TimeoutError)
    ensures Base(DoEndpoint(s, t, failure, initialized, attempting, e))
  {
    if failure.Some? {
      FinishKeeps(s, t, Failed(failure.value, "set-up failed"));
    } else {
      var (c, r) := PyStart(CoreOf(s, t), initialized, attempting, e);
      StartKeeps(CoreOf(s, t), initialized, attempting, e);
      StartNotMistaken(CoreOf(s, t), initialized, attempting, e);
      StagesPositive();
      BegunKeepsBase(s, t, BegunTask(s, t, r), if r.Raise? then None else Some(t), c, !r.Raise?,
                     DoEndpoint(s, t, None, initialized, attempting, e).replaced);
      BegunShape(s, t, initialized, attempting, e);
    }
  }

  lemma ResumeKeeps(s: Sys, t: nat, a: Answer, e: Effect)
    requires Base(s) && Legal(s, Resume(t, a, e))
    ensures Base(DoResume(s, t, a, e))
  {
    UnparkKeeps(s, t);
    var s1 := Unpark(s, t);
    assert TaskOk(s.kind, s.d.now, s.tasks[t]);
    match s.tasks[t].interrupt
    case CancelRequested => FailKeeps(s1, t, CancelledError, "");
    case Expired => FailKeeps(s1, t, TimeoutError, TimeoutText(s.kind));
    case Calm => TurnKeeps(s1, t, a, e);
  }

  predicate IsCallback(act: Action)
  {
    act.Packet? || act.TimerFires? || act.ConnectionLost? || act.CloseCall?
  }

  /** Callbacks and close() run driver methods only. */
  lemma CallbackShape(s: Sys, act: Action)
    requires Legal(s, act) && IsCallback(act)
    ensures Step(s, act) == s.(d := Step(s, act).d, events := Step(s, act).events)
  {}

  /** Calls, interrupts and the clock leave the cores, the transports and the driver's own fields alone. */
  lemma QuietShape(s: Sys, act: Action)
    requires Legal(s, act) && (act.Tick? || act.Invoke? || act.Expire? || act.Cancel?)
    ensures var s' := Step(s, act);
      && s'.replaced == s.replaced && s'.retired == s.retired
      && s'.d == s.d.(now := s'.d.now, futures := s'.d.futures)
  {
    if act.Invoke? { InvokeShape(s, act.call, act.timeout, act.on); }
  }

  lemma PacketMoves(s: Sys, data: Bytes, e: Effect)
    requires Base(s) && s.d.core.Some? && !s.d.closed && |data| <= MAX_INPUT_BYTES && EffectOk(s.d.core.value, e)
    ensures MayMove(s, OnReceive(s.d, data, e), DoPacket(s, data, e).events)
  {
    if !s.d.core.value.engine.session && data != [] {
      ReceiveBeforeStart(s.d, data, e);
    } else {
      ReceiveDetects(s.d, data, e);
    }
  }

  lemma TimerMoves(s: Sys, handle: nat, e: Effect)
    requires Base(s) && handle in s.d.handles && (s.d.core.Some? ==> EffectOk(s.d.core.value, e))
    ensures MayMove(s, OnTimeout(s.d, handle, e), s.events + 1)
  {
    assert !s.d.closed;
    if s.d.core.Some? {
      TimeoutDetects(s.d, handle, e);
    } else {
      NoCoreNoWaiters(s);
    }
  }

  lemma TeardownMoves(s: Sys, reason: string)
    requires Base(s)
    ensures MayMove(s, Teardown(s.d, reason), s.events)
  {
    TeardownKeeps(s.d, reason);
  }

  lemma CloseMoves(s: Sys, e: Effect)
    requires Base(s) && (s.d.core.Some? ==> EffectOk(s.d.core.value, e))
    ensures MayMove(s, CloseClient(s.d, e), s.events)
  {
    if s.d.core.Some? && !s.d.closed {
      CloseSendsEverything(s.d, e);
    } else {
      TeardownMoves(s, GivenText(s.d));
    }
  }

  lemma SignalSettles(c: Core, id: StreamId, e: Effect)
    requires CoreOk(c) && AppEffectOk(c, e)
    ensures Settled(c, SignalStream(c, id, e).0)
  {
    SignalKeeps(c, id, e);
  }

  lemma SignalMoves(s: Sys, id: StreamId, on: nat, e: Effect)
    requires Base(s) && on < Cores(s) && AppEffectOk(CoreAt(s, on), e)
    ensures Base(DoSignal(s, id, on, e))
  {
    SignalSettles(CoreAt(s, on), id, e);
    var (c, st) := SignalStream(CoreAt(s, on), id, e);
    CoreMoves(s, on, c);
    ProcessMoves(SetCore(s, on, c));
  }

  lemma CallbackKeepsBase(s: Sys, act: Action)
    requires Base(s) && Legal(s, act) && IsCallback(act)
    ensures Base(Step(s, act))
  {
    var d, events := Step(s, act).d, Step(s, act).events;
    CallbackShape(s, act);
    assert Step(s, act) == s || MayMove(s, d, events) by {
      match act
      case Packet(data, e) => if s.d.core.Some? && !s.d.closed { PacketMoves(s, data, e); }
      case TimerFires(handle, e) => TimerMoves(s, handle, e);
      case ConnectionLost(cause) => TeardownMoves(s, if cause.None? then "connection lost" else cause.value);
      case CloseCall(e) => CloseMoves(s, e);
    }
    if Step(s, act) != s { DriverMoves(s, d, events); }
  }

  lemma TaskStepKeepsBase(s: Sys, act: Action)
    requires Base(s) && Legal(s, act) && (act.Continue? || act.Resume? || act.Signal? || act.Expire? || act.Cancel?)
    ensures Base(Step(s, act))
  {
    match act
    case Continue(t, a, e) => TurnKeeps(s, t, a, e);
    case Resume(t, a, e) => ResumeKeeps(s, t, a, e);
    case Signal(id, on, e) => SignalMoves(s, id, on, e);
    case Expire(t) => InterruptKeeps(s, t, Expired);
    case Cancel(t) =>
      if s.tasks[t].phase.Parked? { InterruptKeeps(s, t, CancelRequested); }
      else { FinishKeeps(s, t, Failed(CancelledError, "")); }
  }

  lemma SetupStepKeepsBase(s: Sys, act: Action)
    requires Base(s) && Legal(s, act) && (act.Tick? || act.Invoke? || act.Lookup? || act.Endpoint?)
    ensures Base(Step(s, act))
  {
    match act
    case Tick(delta) => TickKeeps(s, s.d.now + delta);
    case Invoke(call, timeout, on) => InvokeKeeps(s, call, timeout, on);
    case Lookup(t, failure, serverName) => LookupKeeps(s, t, failure, serverName);
    case Endpoint(t, failure, initialized, attempting, e) => EndpointKeeps(s, t, failure, initialized, attempting, e);
  }

  lemma StepKeepsBase(s: Sys, act: Action)
    requires Base(s) && Legal(s, act)
    ensures Base(Step(s, act))
  {
    if IsCallback(act) {
      CallbackKeepsBase(s, act);
    } else if act.Tick? || act.Invoke? || act.Lookup? || act.Endpoint? {
      SetupStepKeepsBase(s, act);
    } else {
      TaskStepKeepsBase(s, act);
    }
  }

  /** Every reachable state of every run. */
  lemma {:induction false} RunKeepsBase(s: Sys, acts: seq<Action>)
    requires Base(s) && LegalRun(s, acts)
    ensures Base(Run(s, acts))
    decreases |acts|
  {
    if acts != [] {
      StepKeepsBase(s, acts[0]);
      RunKeepsBase(Step(s, acts[0]), acts[1..]);
    }
  }
}
