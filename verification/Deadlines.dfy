/** Timeouts. When nothing that could run is kept waiting, a call with a timeout
    of T ends within T of the start of its first wait, a request within 2T and a
    WebTransport connect() within 3T. */
module Deadlines {
  import opened Prelude
  import opened Engine
  import opened Glue
  import opened Binding
  import opened Driver
  import opened DriverFacts
  import opened Machine
  import opened Waiting
  import opened Steps

  /** Time passes only when no task could run, and never past a wake-up that wait_for has armed. */
  ghost predicate Prompt(s: Sys, act: Action)
  {
    act.Tick? ==>
      forall t :: 0 <= t < |s.tasks| && s.tasks[t].phase.Parked? ==>
        !Resumable(s, t)
        && (s.tasks[t].phase.wakeAt.Some? ==> s.d.now + act.delta <= s.tasks[t].phase.wakeAt.value)
  }

  function Allowance(k: Task): nat
    requires k.timeout.Some?
  {
    if k.timeout.value < 0 then 0 else k.timeout.value
  }

  /** stage times the allowance; no call has more than three stages. */
  function Budget(stage: nat, allowance: nat): nat
  {
    if stage == 0 then 0 else if stage == 1 then allowance else if stage == 2 then 2 * allowance else 3 * allowance
  }

  ghost predicate OnTime(now: int, k: Task)
  {
    k.timeout.Some? ==>
      match k.phase
      case Resolving => k.began.None?
      case Attaching => k.began.None?
      case Ready =>
        && k.began.Some? && k.since == now && k.stage < 3
        && now <= k.began.value + Budget(k.stage, Allowance(k))
      case Parked(_, _) =>
        && k.began.Some? && k.stage < 3
        && k.since <= k.began.value + Budget(k.stage, Allowance(k)) && now <= k.since + Allowance(k)
      case Finished(outcome, at) =>
        if k.began.Some?
        then at <= k.began.value + Budget(if outcome.Returned? then k.stage else k.stage + 1, Allowance(k))
        else outcome.Failed? && k.stage == 0 && k.tries == 0
  }

  ghost predicate AllOnTime(s: Sys)
  {
    forall t :: 0 <= t < |s.tasks| ==> OnTime(s.d.now, s.tasks[t])
  }

  /** How a turn changes the task that takes it. */
  ghost predicate Turned(kind: Kind, now: int, k: Task, k': Task)
  {
    && k'.call == k.call && k'.timeout == k.timeout && k'.began == k.began
    && match k'.phase
       case Ready => k'.stage == k.stage + 1 && k'.since == now && k'.stage < Stages(kind, k.call)
       case Parked(_, wakeAt) => k'.stage == k.stage && k'.since == k.since && wakeAt == Deadline(k)
                                 && (Deadline(k).Some? ==> now < Deadline(k).value)
       case Finished(Returned(_), at) => at == now && k'.stage == k.stage + 1 == Stages(kind, k.call)
       case Finished(Failed(_, _), at) => at == now && k'.stage == k.stage
       case _ => false
  }

  /** What a turn does to the table of tasks and to the clock. */
  ghost predicate TurnedAt(s: Sys, s': Sys, t: nat, k: Task)
    requires t < |s.tasks|
  {
    && |s'.tasks| == |s.tasks| && s'.tasks == s.tasks[t := s'.tasks[t]]
    && s'.d.now == s.d.now && Turned(s.kind, s.d.now, k, s'.tasks[t])
  }

  lemma TurnTurns(s: Sys, t: nat, a: Answer, e: Effect)
    requires TurnOk(s, t, a, e) && s.tasks[t].stage < Stages(s.kind, s.tasks[t].call)
    ensures TurnedAt(s, Turn(s, t, a, e), t, s.tasks[t])
  {
    var k := s.tasks[t];
    if s.d.closed {
      FailTurns(s, t, k, ConnectionError, GivenReason(s.d));
    } else {
      var (c, r) := Attempt(CoreOf(s, t), OpOf(k), a, e);
      AttemptTurns(s, t, c, r);
    }
  }

  lemma AttemptTurns(s: Sys, t: nat, c: Core, r: Py<Val>)
    requires Equipped(s, t) && s.tasks[t].stage < Stages(s.kind, s.tasks[t].call)
    ensures TurnedAt(s, AfterAttempt(s, t, c, r), t, s.tasks[t])
  {
    var k := s.tasks[t];
    match r
    case Raise(exc, message) => FailTurns(Tried(s, t, c), t, k, exc, message);
    case NoneYet =>
      FailTurns(Tried(s, t, c), t, k, TimeoutError, TimeoutText(s.kind));
      if !(Deadline(k).Some? && Deadline(k).value - s.d.now <= 0) { ParkTurns(Tried(s, t, c), t, k); }
    case Value(v) =>
      NowIsFixed(Grant(s, t, c, v).d);
      GrantTurns(s, t, c, v);
  }

  lemma FailTurns(s: Sys, t: nat, k: Task, exc: Exc, message: string)
    requires t < |s.tasks| && s.tasks[t] == k.(tries := s.tasks[t].tries, triedAt := s.tasks[t].triedAt)
    ensures TurnedAt(s, Fail(s, t, exc, message), t, k)
  {}

  lemma ParkTurns(s: Sys, t: nat, k: Task)
    requires t < |s.tasks| && s.tasks[t] == k.(tries := s.tasks[t].tries, triedAt := s.tasks[t].triedAt)
    requires Deadline(k).Some? ==> s.d.now < Deadline(k).value
    ensures TurnedAt(s, Park(s, t), t, k)
  {}

  lemma GrantTurns(s: Sys, t: nat, c: Core, v: Val)
    requires Equipped(s, t) && s.tasks[t].stage < Stages(s.kind, s.tasks[t].call)
    ensures TurnedAt(s, Grant(s, t, c, v), t, s.tasks[t])
  {}

  lemma NowIsFixed(d: Client)
    ensures Process(d).now == d.now
    ensures forall reason :: Teardown(d, reason).now == d.now
  {
    forall reason ensures Teardown(d, reason).now == d.now { TeardownNow(d, reason); }
    if d.core.Some? && !d.closed { ProcessNow(d); }
  }

  lemma TeardownNow(d: Client, reason: string)
    ensures Teardown(d, reason).now == d.now
  {}

  lemma ProcessNow(d: Client)
    requires d.core.Some? && !d.closed
    ensures Process(d).now == d.now
  {
    if Verdict(d).Some? {
      TeardownNow(DrainSend(d), Verdict(d).value);
      assert Process(d) == Teardown(DrainSend(d), Verdict(d).value);
    } else {
      assert Process(d) == WakeWaiters(RescheduleTimer(Looked(d)));
    }
  }

  lemma ResumeTurns(s: Sys, t: nat, a: Answer, e: Effect)
    requires Base(s) && Resumable(s, t) && (s.tasks[t].interrupt.Calm? ==> TurnOk(Unpark(s, t), t, a, e))
    ensures TurnedAt(s, DoResume(s, t, a, e), t, s.tasks[t])
  {
    assert TaskOk(s.kind, s.d.now, s.tasks[t]);
    var s1 := Unpark(s, t);
    match s.tasks[t].interrupt
    case Calm => CalmTurns(s, t, a, e);
    case Expired => InterruptTurns(s, t, TimeoutError, TimeoutText(s.kind));
    case CancelRequested => InterruptTurns(s, t, CancelledError, "");
  }

  lemma InterruptTurns(s: Sys, t: nat, exc: Exc, message: string)
    requires t < |s.tasks| && s.tasks[t].phase.Parked?
    ensures TurnedAt(s, Fail(Unpark(s, t), t, exc, message), t, s.tasks[t])
  {
    TeardownNow(Unpark(s, t).d, "connect failed");
  }

  lemma CalmTurns(s: Sys, t: nat, a: Answer, e: Effect)
    requires t < |s.tasks| && s.tasks[t].phase.Parked? && TurnOk(Unpark(s, t), t, a, e)
    requires s.tasks[t].stage < Stages(s.kind, s.tasks[t].call)
    ensures TurnedAt(s, Turn(Unpark(s, t), t, a, e), t, s.tasks[t])
  {
    TurnTurns(Unpark(s, t), t, a, e);
    UnparkedTurns(s, Turn(Unpark(s, t), t, a, e), t);
  }

  /** Turned from ready is turned from parked. */
  lemma UnparkedTurns(s: Sys, s': Sys, t: nat)
    requires t < |s.tasks| && s.tasks[t].phase.Parked?
    requires TurnedAt(Unpark(s, t), s', t, Unpark(s, t).tasks[t])
    ensures TurnedAt(s, s', t, s.tasks[t])
  {
    assert Unpark(s, t).tasks[t := s'.tasks[t]] == s.tasks[t := s'.tasks[t]];
  }

  /** Exactly one more allowance is used up per stage. */
  lemma TurnedOnTime(kind: Kind, now: int, k: Task, k': Task)
    requires Turned(kind, now, k, k') && OnTime(now, k) && (k.phase.Ready? || k.phase.Parked?)
    ensures OnTime(now, k')
  {}

  lemma CallbackKeepsTime(s: Sys, act: Action)
    requires Legal(s, act) && IsCallback(act)
    ensures Step(s, act).tasks == s.tasks && Step(s, act).d.now == s.d.now
  {
    CallbackShape(s, act);
    match act
    case Packet(data, e) =>
      if s.d.core.Some? { NowIsFixed(s.d.(core := Some(PyReceivePacket(s.d.core.value, data, e).0))); }
    case TimerFires(handle, e) =>
      if s.d.core.Some? {
        NowIsFixed(s.d.(handles := s.d.handles - {handle}, core := Some(PyHandleTimeout(s.d.core.value, e).0)));
      }
    case ConnectionLost(_) => NowIsFixed(s.d);
    case CloseCall(e) => CloseNow(s.d, e);
  }

  lemma CloseNow(d: Client, e: Effect)
    ensures CloseClient(d, e).now == d.now
  {}

  lemma EndpointOnTime(s: Sys, t: nat, failure: Option<Exc>, initialized: bool, attempting: bool, e: Effect)
    requires AllOnTime(s) && Equipped(s, t) && s.tasks[t].phase.Attaching?
    requires s.tasks[t].tries == 0 && s.tasks[t].stage == 0
    ensures AllOnTime(DoEndpoint(s, t, failure, initialized, attempting, e))
  {
    var s' := DoEndpoint(s, t, failure, initialized, attempting, e);
    if failure.None? {
      var (c, r) := PyStart(CoreOf(s, t), initialized, attempting, e);
      BegunNow(SetCore(s, s.tasks[t].on.value, c).d, !r.Raise?);
    }
    assert s'.d.now == s.d.now && s'.tasks == s.tasks[t := s'.tasks[t]];
    assert OnTime(s.d.now, s.tasks[t]);
    assert OnTime(s.d.now, s'.tasks[t]);
  }

  lemma LookupOnTime(s: Sys, t: nat, failure: Option<Exc>, serverName: string)
    requires AllOnTime(s) && t < |s.tasks| && s.tasks[t].phase.Resolving?
    requires s.tasks[t].tries == 0 && s.tasks[t].stage == 0
    ensures AllOnTime(DoLookup(s, t, failure, serverName))
  {
    assert OnTime(s.d.now, s.tasks[t]);
    assert OnTime(s.d.now, DoLookup(s, t, failure, serverName).tasks[t]);
  }

  lemma InvokeOnTime(s: Sys, call: Call, timeout: Option<int>, on: nat)
    requires AllOnTime(s)
    ensures AllOnTime(DoInvoke(s, call, timeout, on))
  {}

  lemma InterruptOnTime(s: Sys, act: Action)
    requires Base(s) && AllOnTime(s) && Legal(s, act) && (act.Expire? || act.Cancel?)
    ensures AllOnTime(Step(s, act))
  {
    var t := act.t;
    assert TaskOk(s.kind, s.d.now, s.tasks[t]) && OnTime(s.d.now, s.tasks[t]);
    if s.tasks[t].phase.Parked? {
      MarkedOnTime(s, t, if act.Expire? then Expired else CancelRequested);
    } else {
      CancelledOnTime(s, t);
    }
  }

  lemma MarkedOnTime(s: Sys, t: nat, why: Interrupt)
    requires AllOnTime(s) && t < |s.tasks| && s.tasks[t].phase.Parked? && s.tasks[t].phase.future in s.d.futures
    ensures AllOnTime(InterruptTask(s, t, why))
  {
    assert OnTime(s.d.now, s.tasks[t]);
  }

  lemma CancelledOnTime(s: Sys, t: nat)
    requires AllOnTime(s) && t < |s.tasks| && SetupPhase(s.tasks[t].phase)
    requires s.tasks[t].tries == 0 && s.tasks[t].stage == 0
    ensures AllOnTime(Finish(s, t, Failed(CancelledError, "")))
  {
    assert OnTime(s.d.now, s.tasks[t]);
  }

  lemma SignalKeepsTime(s: Sys, id: StreamId, on: nat, e: Effect)
    requires on < Cores(s)
    ensures DoSignal(s, id, on, e).tasks == s.tasks && DoSignal(s, id, on, e).d.now == s.d.now
  {
    NowIsFixed(SetCore(s, on, SignalStream(CoreAt(s, on), id, e).0).d);
  }

  lemma TickKeepsTime(s: Sys, delta: int)
    requires Base(s) && AllOnTime(s) && Legal(s, Tick(delta)) && Prompt(s, Tick(delta))
    ensures AllOnTime(s.(d := s.d.(now := s.d.now + delta)))
  {
    forall t | 0 <= t < |s.tasks| ensures OnTime(s.d.now + delta, s.tasks[t]) {
      assert PhaseOk(s, t) && TaskOk(s.kind, s.d.now, s.tasks[t]) && OnTime(s.d.now, s.tasks[t]);
    }
  }

  lemma TurnKeepsTime(s: Sys, act: Action)
    requires Base(s) && AllOnTime(s) && Legal(s, act) && (act.Continue? || act.Resume?)
    ensures AllOnTime(Step(s, act))
  {
    var t := act.t;
    assert TaskOk(s.kind, s.d.now, s.tasks[t]) && OnTime(s.d.now, s.tasks[t]);
    if act.Continue? { TurnTurns(s, t, act.a, act.e); } else { ResumeTurns(s, t, act.a, act.e); }
    TurnedOnTime(s.kind, s.d.now, s.tasks[t], Step(s, act).tasks[t]);
  }

  lemma StepKeepsTime(s: Sys, act: Action)
    requires Base(s) && AllOnTime(s) && Legal(s, act) && Prompt(s, act)
    ensures AllOnTime(Step(s, act))
  {
    if IsCallback(act) {
      CallbackKeepsTime(s, act);
    } else if act.Continue? || act.Resume? {
      TurnKeepsTime(s, act);
    } else if act.Expire? || act.Cancel? {
      InterruptOnTime(s, act);
    } else if act.Tick? || act.Signal? {
      CalmKeepsTime(s, act);
    } else {
      SetupKeepsTime(s, act);
    }
  }

  lemma CalmKeepsTime(s: Sys, act: Action)
    requires Base(s) && AllOnTime(s) && Legal(s, act) && Prompt(s, act) && (act.Tick? || act.Signal?)
    ensures AllOnTime(Step(s, act))
  {
    match act
    case Tick(delta) => TickKeepsTime(s, delta);
    case Signal(id, on, e) => SignalKeepsTime(s, id, on, e);
  }

  lemma SetupKeepsTime(s: Sys, act: Action)
    requires Base(s) && AllOnTime(s) && Legal(s, act) && (act.Invoke? || act.Lookup? || act.Endpoint?)
    ensures AllOnTime(Step(s, act))
  {
    match act
    case Invoke(call, timeout, on) => InvokeOnTime(s, call, timeout, on);
    case Lookup(t, failure, serverName) =>
      assert TaskOk(s.kind, s.d.now, s.tasks[t]);
      LookupOnTime(s, t, failure, serverName);
    case Endpoint(t, failure, initialized, attempting, e) =>
      assert TaskOk(s.kind, s.d.now, s.tasks[t]);
      EndpointOnTime(s, t, failure, initialized, attempting, e);
  }

  ghost predicate PromptRun(s: Sys, acts: seq<Action>)
    requires LegalRun(s, acts)
    decreases |acts|
  {
    acts == [] || (Prompt(s, acts[0]) && PromptRun(Step(s, acts[0]), acts[1..]))
  }

  lemma {:induction false} RunKeepsTime(s: Sys, acts: seq<Action>)
    requires Base(s) && AllOnTime(s) && LegalRun(s, acts) && PromptRun(s, acts)
    ensures AllOnTime(Run(s, acts))
    decreases |acts|
  {
    if acts != [] {
      StepKeepsBase(s, acts[0]);
      StepKeepsTime(s, acts[0]);
      RunKeepsTime(Step(s, acts[0]), acts[1..]);
    }
  }
}
