/** Where the reason of a closed client comes from, over whole runs: the step that
    closed it, and a text that this step had at hand. */
module Reasons {
  import opened Prelude
  import opened Engine
  import opened Glue
  import opened GlueInvariant
  import opened Binding
  import opened Driver
  import opened DriverFacts
  import opened DriverEvents
  import opened Machine
  import opened Waiting
  import opened Steps
  import opened Finality

  /** What `_process` can give as a reason: the text that stands on the client's present core, whichever call
      left it there, or a generic one. */
  predicate FromProcess(d: Client)
  {
    d.closeReason == "connection closed"
    || (d.core.Some? && d.core.value.lastError != "" && d.closeReason == d.core.value.lastError)
  }

  /** A packet or a timeout clears the text first, so what stands afterwards is its own. */
  predicate FromEvent(d: Client, generic: string)
  {
    d.closeReason == "connection closed" || (d.core.Some? && d.closeReason == ClosedText(d.core.value, generic))
  }

  /** The reason that fits a step that closed the client; `d` is the client afterwards. A start, a turn of a
      task and a signal end in `_process`, or in the teardown of a connect() that failed. */
  predicate ReasonFits(act: Action, d: Client)
  {
    match act
    case Packet(_, _) => FromEvent(d, "connection closed while processing a packet")
    case TimerFires(_, _) => FromEvent(d, "connection closed while handling a timeout")
    case ConnectionLost(cause) => d.closeReason == (if cause.None? then "connection lost" else cause.value)
    case CloseCall(_) => d.closeReason == "closed by application"
    case Endpoint(_, _, _, _, _) => d.closeReason == "connect failed" || FromProcess(d)
    case Continue(_, _, _) => d.closeReason == "connect failed" || FromProcess(d)
    case Resume(_, _, _) => d.closeReason == "connect failed" || FromProcess(d)
    case Signal(_, _, _) => FromProcess(d)
    case _ => false
  }

  // ----- step by step

  lemma SameText(c: Core, c': Core, generic: string)
    requires SameCore(c, c')
    ensures ClosedText(c', generic) == ClosedText(c, generic)
  {}

  lemma PacketCloses(d: Client, data: Bytes, e: Effect)
    requires ClientOk(d) && d.core.Some? && !d.closed && |data| <= MAX_INPUT_BYTES && EffectOk(d.core.value, e)
    ensures var d' := OnReceive(d, data, e);
      d'.closed ==> FromEvent(d', "connection closed while processing a packet")
  {
    if !d.core.value.engine.session && data != [] {
      ReceiveBeforeStart(d, data, e);
    } else {
      ReceiveDetects(d, data, e);
      ReceiveForm(d, data, e);
      var c := ReceivePacket(d.core.value, data, e).0;
      ReceiveKeeps(d.core.value, data, e);
      SwapCoreKeeps(d, c);
      ProcessKeeps(d.(core := Some(c)));
      SameText(c, OnReceive(d, data, e).core.value, "connection closed while processing a packet");
    }
  }

  lemma TimerCloses(d: Client, handle: nat, e: Effect)
    requires ClientOk(d) && d.core.Some? && !d.closed && EffectOk(d.core.value, e)
    ensures var d' := OnTimeout(d, handle, e);
      d'.closed ==> FromEvent(d', "connection closed while handling a timeout")
  {
    TimeoutDetects(d, handle, e);
    var c := HandleTimeout(d.core.value, e).0;
    FiredKeeps(d, handle);
    TimeoutLands(d.(handles := d.handles - {handle}), e);
    ProcessKeeps(d.(handles := d.handles - {handle}, core := Some(c)));
    SameText(c, OnTimeout(d, handle, e).core.value, "connection closed while handling a timeout");
  }

  lemma PacketStepCloses(s: Sys, data: Bytes, e: Effect)
    requires ClientOk(s.d) && !s.d.closed && |data| <= MAX_INPUT_BYTES && DoPacket(s, data, e).d.closed
    requires s.d.core.Some? ==> EffectOk(s.d.core.value, e)
    ensures FromEvent(DoPacket(s, data, e).d, "connection closed while processing a packet")
  {
    PacketCloses(s.d, data, e);
  }

  lemma TimerStepCloses(d: Client, handle: nat, e: Effect)
    requires ClientOk(d) && !d.closed && OnTimeout(d, handle, e).closed && (d.core.Some? ==> EffectOk(d.core.value, e))
    ensures FromEvent(OnTimeout(d, handle, e), "connection closed while handling a timeout")
  {
    TimerCloses(d, handle, e);
  }

  lemma CallbackCloses(s: Sys, act: Action)
    requires ClientOk(s.d) && !s.d.closed && Legal(s, act) && IsCallback(act) && Step(s, act).d.closed
    ensures ReasonFits(act, Step(s, act).d)
  {
    if act.Packet? || act.TimerFires? { EventCloses(s, act); } else { EndCloses(s, act); }
  }

  lemma EventCloses(s: Sys, act: Action)
    requires ClientOk(s.d) && !s.d.closed && Legal(s, act) && (act.Packet? || act.TimerFires?) && Step(s, act).d.closed
    ensures ReasonFits(act, Step(s, act).d)
  {
    if act.Packet? { PacketStepCloses(s, act.data, act.e); } else { TimerStepCloses(s.d, act.handle, act.e); }
  }

  lemma EndCloses(s: Sys, act: Action)
    requires ClientOk(s.d) && !s.d.closed && Legal(s, act) && (act.ConnectionLost? || act.CloseCall?)
    ensures ReasonFits(act, Step(s, act).d)
  {
    match act
    case ConnectionLost(cause) => TeardownKeepsText(s.d, if cause.None? then "connection lost" else cause.value);
    case CloseCall(e) => CloseCloses(s.d, e);
  }

  lemma CloseCloses(d: Client, e: Effect)
    requires ClientOk(d) && !d.closed
    ensures CloseClient(d, e).closeReason == "closed by application"
  {}

  lemma ProcessCloses(d: Client)
    requires !d.closed && Process(d).closed
    ensures FromProcess(Process(d))
  {
    if d.core.Some? && Verdict(d).Some? {
      assert Process(d) == Teardown(DrainSend(d), Verdict(d).value);
      TeardownKeepsText(DrainSend(d), Verdict(d).value);
    } else if d.core.Some? {
      assert Process(d) == WakeWaiters(RescheduleTimer(Looked(d)));
      RearmStaysOpen(Looked(d));
    }
  }

  lemma TeardownKeepsText(d: Client, reason: string)
    requires !d.closed
    ensures var d' := Teardown(d, reason); d'.closeReason == reason && d'.core == d.core
  {}

  lemma RearmStaysOpen(d: Client)
    requires d.core.Some?
    ensures WakeWaiters(RescheduleTimer(d)).closed == d.closed
  {}

  lemma FailCloses(s: Sys, t: nat, exc: Exc, message: string)
    requires t < |s.tasks| && !s.d.closed && Fail(s, t, exc, message).d.closed
    ensures Fail(s, t, exc, message).d.closeReason == "connect failed"
  {}

  /** A turn closes the client when connect() fails, or by the `_process` that follows it. */
  lemma AttemptCloses(s: Sys, t: nat, c: Core, r: Py<Val>)
    requires Equipped(s, t) && !s.d.closed && AfterAttempt(s, t, c, r).d.closed
    ensures var d := AfterAttempt(s, t, c, r).d; d.closeReason == "connect failed" || FromProcess(d)
  {
    match r
    case Raise(exc, message) => FailCloses(Tried(s, t, c), t, exc, message);
    case Value(v) => if ProcessesAfter(s.tasks[t].call, s.tasks[t].stage) { ProcessCloses(Grant(s, t, c, v).d); }
    case NoneYet => LingerCloses(Tried(s, t, c), t);
  }

  lemma LingerCloses(s: Sys, t: nat)
    requires t < |s.tasks| && !s.d.closed && Linger(s, t).d.closed
    ensures Linger(s, t).d.closeReason == "connect failed"
  {
    if Linger(s, t) != Park(s, t) { FailCloses(s, t, TimeoutError, TimeoutText(s.kind)); }
  }

  lemma TurnCloses(s: Sys, t: nat, a: Answer, e: Effect)
    requires TurnOk(s, t, a, e) && !s.d.closed && Turn(s, t, a, e).d.closed
    ensures var d := Turn(s, t, a, e).d; d.closeReason == "connect failed" || FromProcess(d)
  {
    var (c, r) := Attempt(CoreOf(s, t), OpOf(s.tasks[t]), a, e);
    AttemptCloses(s, t, c, r);
  }

  lemma ResumeCloses(s: Sys, t: nat, a: Answer, e: Effect)
    requires Legal(s, Resume(t, a, e)) && !s.d.closed && DoResume(s, t, a, e).d.closed
    ensures var d := DoResume(s, t, a, e).d; d.closeReason == "connect failed" || FromProcess(d)
  {
    match s.tasks[t].interrupt
    case CancelRequested => FailCloses(Unpark(s, t), t, CancelledError, "");
    case Expired => FailCloses(Unpark(s, t), t, TimeoutError, TimeoutText(s.kind));
    case Calm => TurnCloses(Unpark(s, t), t, a, e);
  }

  lemma EndpointCloses(s: Sys, t: nat, initialized: bool, attempting: bool, e: Effect)
    requires Equipped(s, t) && !s.d.closed && DoEndpoint(s, t, None, initialized, attempting, e).d.closed
    ensures var d := DoEndpoint(s, t, None, initialized, attempting, e).d;
      d.closeReason == "connect failed" || FromProcess(d)
  {
    var (c, r) := PyStart(CoreOf(s, t), initialized, attempting, e);
    BegunShape(s, t, initialized, attempting, e);
    BegunCloses(SetCore(s, s.tasks[t].on.value, c).d, !r.Raise?);
  }

  lemma BegunCloses(d: Client, started: bool)
    requires !d.closed && Begun(d, started).closed
    ensures var d' := Begun(d, started); d'.closeReason == "connect failed" || FromProcess(d')
  {
    if started { ProcessCloses(Attach(d)); }
  }

  lemma SignalCloses(s: Sys, id: StreamId, on: nat, e: Effect)
    requires on < Cores(s) && !s.d.closed && DoSignal(s, id, on, e).d.closed
    ensures FromProcess(DoSignal(s, id, on, e).d)
  {
    var (c, st) := SignalStream(CoreAt(s, on), id, e);
    if st == OK { ProcessCloses(SetCore(s, on, c).d); }
  }

  /** No other kind of step closes the client. */
  lemma QuietNeverCloses(s: Sys, act: Action)
    requires Legal(s, act) && !s.d.closed && (act.Tick? || act.Invoke? || act.Lookup? || act.Expire? || act.Cancel?)
    ensures !Step(s, act).d.closed
  {}

  lemma TaskStepCloses(s: Sys, act: Action)
    requires !s.d.closed && Legal(s, act) && Step(s, act).d.closed
    requires act.Continue? || act.Resume? || act.Endpoint? || act.Signal?
    ensures ReasonFits(act, Step(s, act).d)
  {
    match act
    case Continue(t, a, e) => TurnCloses(s, t, a, e);
    case Resume(t, a, e) => ResumeCloses(s, t, a, e);
    case Endpoint(t, failure, initialized, attempting, e) =>
      if failure.None? { EndpointCloses(s, t, initialized, attempting, e); }
    case Signal(id, on, e) => SignalCloses(s, id, on, e);
  }

  /** Each way of closing has its own reason. */
  lemma StepCloses(s: Sys, act: Action)
    requires Base(s) && !s.d.closed && Legal(s, act) && Step(s, act).d.closed
    ensures ReasonFits(act, Step(s, act).d)
  {
    if IsCallback(act) {
      CallbackCloses(s, act);
    } else if act.Continue? || act.Resume? || act.Endpoint? || act.Signal? {
      TaskStepCloses(s, act);
    } else {
      QuietNeverCloses(s, act);
    }
  }

  // ----- whole runs

  /** Some step of the run closes the client, with a fitting reason, and that reason is this one. */
  ghost predicate ClosedFor(s: Sys, acts: seq<Action>, reason: string)
    requires LegalRun(s, acts)
    decreases |acts|
  {
    acts != []
    && if Step(s, acts[0]).d.closed
       then ReasonFits(acts[0], Step(s, acts[0]).d) && Step(s, acts[0]).d.closeReason == reason
       else ClosedFor(Step(s, acts[0]), acts[1..], reason)
  }

  lemma {:induction false} RunCloses(s: Sys, acts: seq<Action>)
    requires Base(s) && !s.d.closed && LegalRun(s, acts) && Run(s, acts).d.closed
    ensures ClosedFor(s, acts, Run(s, acts).d.closeReason)
    decreases |acts|
  {
    if acts != [] {
      var s1 := Step(s, acts[0]);
      StepKeepsBase(s, acts[0]);
      if s1.d.closed {
        StepCloses(s, acts[0]);
        RunStaysClosed(s1, acts[1..]);
      } else {
        RunCloses(s1, acts[1..]);
      }
    }
  }
}
