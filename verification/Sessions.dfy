/** WebTransport set-up over whole runs: however connect() is interleaved with other
    calls of it, other tasks, packets and timeouts, each core sends at most one
    CONNECT, it is the right one, and connect() returns only after it was sent. */
module Sessions {
  import opened Prelude
  import opened Engine
  import opened Glue
  import opened GlueInvariant
  import opened Binding
  import opened AttemptFacts
  import opened Driver
  import opened DriverFacts
  import opened Machine
  import opened Waiting
  import opened Steps
  import opened Records

  /** The requests a core has sent so far, against the progress of the connect() task that made it. */
  ghost predicate ProgressOk(c: Core, k: Task)
  {
    && k.call.Connect?
    && |c.past.requests| <= 1
    && (c.connectRequested ==> |c.past.requests| == 1)
    && (k.stage >= 2 ==> c.connectRequested)
    && (k.stage < 2 && !k.phase.Finished? ==> c.past.requests == [])
    && forall i :: 0 <= i < |c.past.requests| ==> IsConnect(c.past.requests[i], c.serverName, k.call.path)
  }

  ghost predicate OneConnect(s: Sys)
  {
    s.kind.Wt? ==>
      |s.starters| == Cores(s)
      && forall g :: 0 <= g < Cores(s) ==>
           s.starters[g] < |s.tasks| && ProgressOk(CoreAt(s, g), s.tasks[s.starters[g]])
  }

  lemma SteadyProgress(c: Core, c': Core, k: Task, k': Task)
    requires ProgressOk(c, k) && Steady(c, c')
    requires k'.call == k.call && k'.stage == k.stage && (k.phase.Finished? ==> k'.phase.Finished?)
    ensures ProgressOk(c', k')
  {}

  /** Only an attempt to open a session can send a request in a WebTransport client. */
  lemma OthersAreSteady(c: Core, c': Core, op: Op, r: Py<Val>)
    requires Moved(c, c', op, r) && !op.OpenSession? && !op.Submit?
    ensures Steady(c, c')
  {}

  /** How an attempt of the connect() task may move its requests. */
  ghost predicate Progressed(c: Core, c': Core, k: Task, r: Py<Val>)
  {
    && k.call.Connect?
    && |c'.past.requests| <= 1 && (c'.connectRequested ==> |c'.past.requests| == 1)
    && (r.NoneYet? ==> Steady(c, c'))
    && (r.Value? && k.stage >= 1 ==> c'.connectRequested)
    && (r.Value? && k.stage == 0 ==> c'.past.requests == [])
    && (k.stage >= 2 ==> c'.connectRequested)
    && forall i :: 0 <= i < |c'.past.requests| ==> IsConnect(c'.past.requests[i], c'.serverName, k.call.path)
  }

  lemma AttemptProgress(c: Core, k: Task, a: Answer, e: Effect)
    requires CoreOk(c) && c.kind.Wt? && ProgressOk(c, k) && !k.phase.Finished? && k.stage < 3
    requires AttemptOk(c, OpOf(k), a, e)
    ensures var (c', r) := Attempt(c, OpOf(k), a, e); Progressed(c, c', k, r)
  {
    AttemptMoves(c, OpOf(k), a, e);
    var (c', r) := Attempt(c, OpOf(k), a, e);
    if k.stage == 1 {
      ConnectOnce(c, OpOf(k), a, e);
    } else {
      OthersAreSteady(c, c', OpOf(k), r);
    }
  }

  /** What an attempt makes of its task: one stage further exactly when it returned a value. */
  predicate Advanced(k: Task, k': Task, r: Py<Val>)
  {
    && k'.call == k.call && k'.on == k.on
    && k'.stage == k.stage + (if r.Value? then 1 else 0) && (r.Raise? ==> k'.phase.Finished?)
  }

  lemma ProgressAfter(c: Core, c': Core, k: Task, k': Task, r: Py<Val>)
    requires ProgressOk(c, k) && !k.phase.Finished? && Progressed(c, c', k, r) && Advanced(k, k', r)
    ensures ProgressOk(c', k')
  {}

  // ----- how steps move

  /** One task moved, and the core it asked; the others at most forwarded packets. */
  ghost predicate OneTaskMoves(s: Sys, s': Sys, t: nat, c: Core)
    requires Equipped(s, t)
  {
    && s'.kind == s.kind && s'.starters == s.starters && Cores(s') == Cores(s)
    && |s'.tasks| == |s.tasks| && s'.tasks == s.tasks[t := s'.tasks[t]]
    && forall g :: 0 <= g < Cores(s) ==>
         Steady(if g == s.tasks[t].on.value then c else CoreAt(s, g), CoreAt(s', g))
  }

  lemma OneTaskKeeps(s: Sys, s': Sys, t: nat, c: Core)
    requires CoresOk(s) && OneConnect(s) && Equipped(s, t) && s.kind.Wt? && OneTaskMoves(s, s', t, c)
    requires if s.tasks[t].call.Connect? then s.starters[s.tasks[t].on.value] == t && ProgressOk(c, s'.tasks[t])
             else Steady(CoreOf(s, t), c)
    ensures OneConnect(s')
  {
    forall g | 0 <= g < Cores(s) ensures ProgressOk(CoreAt(s', g), s'.tasks[s'.starters[g]]) {
      var u := s.starters[g];
      if u == t {
        SteadyProgress(c, CoreAt(s', g), s'.tasks[t], s'.tasks[t]);
      } else {
        SteadyProgress(CoreAt(s, g), CoreAt(s', g), s.tasks[u], s.tasks[u]);
      }
    }
  }

  lemma SameCoreSteady(c: Core, c': Core)
    requires SameCore(c, c')
    ensures Steady(c, c')
  {}

  lemma ProcessSteady(d: Client)
    requires ClientOk(d) && d.core.Some?
    ensures Process(d).core.Some? && Steady(d.core.value, Process(d).core.value)
  {
    ProcessKeeps(d);
  }

  lemma RaiseAdvances(s: Sys, t: nat, c: Core, exc: Exc, message: string)
    requires Equipped(s, t)
    ensures var s' := Fail(Tried(s, t, c), t, exc, message);
      OneTaskMoves(s, s', t, c) && Advanced(s.tasks[t], s'.tasks[t], Raise(exc, message))
      && Advanced(s.tasks[t], s'.tasks[t], NoneYet)
  {
    TeardownKeepsCore(Tried(s, t, c).d, "connect failed");
    SetCoreAt(s, s.tasks[t].on.value, c);
    var s' := Fail(Tried(s, t, c), t, exc, message);
    assert forall g :: 0 <= g < Cores(s) ==> CoreAt(s', g) == CoreAt(SetCore(s, s.tasks[t].on.value, c), g);
  }

  lemma ParkAdvances(s: Sys, t: nat, c: Core)
    requires Equipped(s, t)
    ensures var s' := Park(Tried(s, t, c), t);
      OneTaskMoves(s, s', t, c) && Advanced(s.tasks[t], s'.tasks[t], NoneYet)
  {
    SetCoreAt(s, s.tasks[t].on.value, c);
    var s' := Park(Tried(s, t, c), t);
    assert forall g :: 0 <= g < Cores(s) ==> CoreAt(s', g) == CoreAt(SetCore(s, s.tasks[t].on.value, c), g);
  }

  lemma GrantAdvances(s: Sys, t: nat, c: Core, v: Val)
    requires Equipped(s, t)
    ensures var s' := Grant(s, t, c, v);
      OneTaskMoves(s, s', t, c) && Advanced(s.tasks[t], s'.tasks[t], Value(v))
  {
    SetCoreAt(s, s.tasks[t].on.value, c);
    var s' := Grant(s, t, c, v);
    assert forall g :: 0 <= g < Cores(s) ==> CoreAt(s', g) == CoreAt(SetCore(s, s.tasks[t].on.value, c), g);
  }

  lemma ProcessAdvances(s: Sys, s1: Sys, t: nat, c: Core)
    requires Equipped(s, t) && OneTaskMoves(s, s1, t, c) && ClientOk(s1.d)
    ensures OneTaskMoves(s, s1.(d := Process(s1.d)), t, c)
  {
    if s1.d.core.Some? { ProcessSteady(s1.d); } else { assert Process(s1.d) == s1.d; }
    var s' := s1.(d := Process(s1.d));
    forall g | 0 <= g < Cores(s)
      ensures Steady(if g == s.tasks[t].on.value then c else CoreAt(s, g), CoreAt(s', g))
    {
      assert Steady(if g == s.tasks[t].on.value then c else CoreAt(s, g), CoreAt(s1, g));
      if g < |s1.retired| { assert CoreAt(s', g) == CoreAt(s1, g); }
    }
  }

  /** An attempt as a whole. */
  ghost predicate Advances(s: Sys, s': Sys, t: nat, c: Core, r: Py<Val>)
    requires Equipped(s, t)
  {
    OneTaskMoves(s, s', t, c) && Advanced(s.tasks[t], s'.tasks[t], r)
  }

  lemma ValueAdvances(s: Sys, t: nat, c: Core, v: Val)
    requires Base(s) && Equipped(s, t) && s.tasks[t].phase.Ready? && Settled(CoreOf(s, t), c)
    ensures Advances(s, AfterAttempt(s, t, c, Value(v)), t, c, Value(v))
  {
    GrantAdvances(s, t, c, v);
    GrantKeeps(s, t, c, v);
    ProcessAdvances(s, Grant(s, t, c, v), t, c);
  }

  lemma NoneYetAdvances(s: Sys, t: nat, c: Core)
    requires Equipped(s, t)
    ensures Advances(s, AfterAttempt(s, t, c, NoneYet), t, c, NoneYet)
  {
    RaiseAdvances(s, t, c, TimeoutError, TimeoutText(s.kind));
    ParkAdvances(s, t, c);
  }

  lemma AttemptAdvances(s: Sys, t: nat, c: Core, r: Py<Val>)
    requires Base(s) && Equipped(s, t) && s.tasks[t].phase.Ready? && Settled(CoreOf(s, t), c)
    ensures Advances(s, AfterAttempt(s, t, c, r), t, c, r)
  {
    match r
    case Raise(exc, message) => RaiseAdvances(s, t, c, exc, message);
    case NoneYet => NoneYetAdvances(s, t, c);
    case Value(v) => ValueAdvances(s, t, c, v);
  }

  lemma AttemptOnce(s: Sys, t: nat, a: Answer, e: Effect)
    requires Base(s) && OneConnect(s) && TurnOk(s, t, a, e) && !s.d.closed && s.kind.Wt?
    ensures var (c, r) := Attempt(CoreOf(s, t), OpOf(s.tasks[t]), a, e); OneConnect(AfterAttempt(s, t, c, r))
  {
    var k := s.tasks[t];
    var (c, r) := Attempt(CoreOf(s, t), OpOf(k), a, e);
    AttemptMoves(CoreOf(s, t), OpOf(k), a, e);
    AttemptAdvances(s, t, c, r);
    OneTaskProgress(s, t, a, e, AfterAttempt(s, t, c, r));
    OneTaskKeeps(s, AfterAttempt(s, t, c, r), t, c);
  }

  lemma OneTaskProgress(s: Sys, t: nat, a: Answer, e: Effect, s': Sys)
    requires Base(s) && OneConnect(s) && TurnOk(s, t, a, e) && !s.d.closed && s.kind.Wt? && t < |s'.tasks|
    requires Advanced(s.tasks[t], s'.tasks[t], Attempt(CoreOf(s, t), OpOf(s.tasks[t]), a, e).1)
    ensures var c := Attempt(CoreOf(s, t), OpOf(s.tasks[t]), a, e).0;
      if s.tasks[t].call.Connect? then s.starters[s.tasks[t].on.value] == t && ProgressOk(c, s'.tasks[t])
      else Steady(CoreOf(s, t), c)
  {
    var k := s.tasks[t];
    var (c, r) := Attempt(CoreOf(s, t), OpOf(k), a, e);
    assert PhaseOk(s, t) && TaskOk(s.kind, s.d.now, k);
    if k.call.Connect? {
      AttemptProgress(CoreOf(s, t), k, a, e);
      ProgressAfter(CoreOf(s, t), c, k, s'.tasks[t], r);
    } else {
      AttemptMoves(CoreOf(s, t), OpOf(k), a, e);
      OthersAreSteady(CoreOf(s, t), c, OpOf(k), r);
    }
  }

  /** Nobody asked a core for anything: cores forward packets at most, tasks end at most. */
  ghost predicate Unasked(s: Sys, s': Sys)
  {
    && s'.kind == s.kind && s'.starters == s.starters && Cores(s') == Cores(s) && |s.tasks| <= |s'.tasks|
    && (forall g :: 0 <= g < Cores(s) ==> Steady(CoreAt(s, g), CoreAt(s', g)))
    && forall t :: 0 <= t < |s.tasks| ==>
         s'.tasks[t].call == s.tasks[t].call && s'.tasks[t].stage == s.tasks[t].stage
         && (s.tasks[t].phase.Finished? ==> s'.tasks[t].phase.Finished?)
  }

  lemma UnaskedKeeps(s: Sys, s': Sys)
    requires OneConnect(s) && Unasked(s, s')
    ensures OneConnect(s')
  {
    if s.kind.Wt? {
      forall g | 0 <= g < Cores(s) ensures ProgressOk(CoreAt(s', g), s'.tasks[s'.starters[g]]) {
        var u := s.starters[g];
        SteadyProgress(CoreAt(s, g), CoreAt(s', g), s.tasks[u], s'.tasks[u]);
      }
    }
  }

  /** The client's own core is the only one that may have moved. */
  lemma OwnCoreUnasked(s: Sys, s': Sys)
    requires s'.kind == s.kind && s'.starters == s.starters && s'.retired == s.retired
    requires (s'.d.core.Some? <==> s.d.core.Some?)
    requires s.d.core.Some? ==> Steady(s.d.core.value, s'.d.core.value)
    requires |s.tasks| <= |s'.tasks|
    requires forall t :: 0 <= t < |s.tasks| ==>
      s'.tasks[t].call == s.tasks[t].call && s'.tasks[t].stage == s.tasks[t].stage
      && (s.tasks[t].phase.Finished? ==> s'.tasks[t].phase.Finished?)
    ensures Unasked(s, s')
  {}

  lemma FailOnce(s: Sys, t: nat, exc: Exc, message: string)
    requires OneConnect(s) && t < |s.tasks|
    ensures OneConnect(Fail(s, t, exc, message))
  {
    TeardownKeepsCore(s.d, "connect failed");
    OwnCoreUnasked(s, Fail(s, t, exc, message));
    UnaskedKeeps(s, Fail(s, t, exc, message));
  }

  lemma TurnOnce(s: Sys, t: nat, a: Answer, e: Effect)
    requires Base(s) && OneConnect(s) && TurnOk(s, t, a, e) && s.kind.Wt?
    ensures OneConnect(Turn(s, t, a, e))
  {
    if s.d.closed {
      FailOnce(s, t, ConnectionError, GivenReason(s.d));
    } else {
      AttemptOnce(s, t, a, e);
    }
  }

  lemma ResumeOnce(s: Sys, t: nat, a: Answer, e: Effect)
    requires Base(s) && OneConnect(s) && Legal(s, Resume(t, a, e)) && s.kind.Wt?
    ensures OneConnect(DoResume(s, t, a, e))
  {
    UnparkKeeps(s, t);
    var s1 := Unpark(s, t);
    OwnCoreUnasked(s, s1);
    UnaskedKeeps(s, s1);
    match s.tasks[t].interrupt
    case CancelRequested => FailOnce(s1, t, CancelledError, "");
    case Expired => FailOnce(s1, t, TimeoutError, TimeoutText(s.kind));
    case Calm => TurnOnce(s1, t, a, e);
  }

  lemma SignalOnce(s: Sys, id: StreamId, on: nat, e: Effect)
    requires Base(s) && OneConnect(s) && on < Cores(s) && AppEffectOk(CoreAt(s, on), e)
    ensures OneConnect(DoSignal(s, id, on, e))
  {
    var c := SignalStream(CoreAt(s, on), id, e).0;
    SignalIdle(CoreAt(s, on), id, e);
    SignalSettles(CoreAt(s, on), id, e);
    CoreMoves(s, on, c);
    SetCoreAt(s, on, c);
    UnaskedKeeps(s, SetCore(s, on, c));
    var s1 := SetCore(s, on, c);
    ProcessSteady(s1.d);
    OwnCoreUnasked(s1, s1.(d := Process(s1.d)));
    UnaskedKeeps(s1, s1.(d := Process(s1.d)));
  }

  lemma EnlistOnce(s: Sys, t: nat, c: Core)
    requires Base(s) && OneConnect(s) && t < |s.tasks| && s.tasks[t].phase.Resolving?
    requires Blank(c) && !c.connectRequested
    ensures OneConnect(Enlist(s, t, c))
  {
    var s' := Enlist(s, t, c);
    EnlistCores(s, t, c);
    assert PhaseOk(s, t) && TaskOk(s.kind, s.d.now, s.tasks[t]);
    if s.kind.Wt? {
      forall g | 0 <= g < Cores(s') ensures ProgressOk(CoreAt(s', g), s'.tasks[s'.starters[g]]) {
        if g < Cores(s) { assert s.starters[g] != t; }
      }
    }
  }

  lemma EndpointSteady(s: Sys, t: nat, initialized: bool, attempting: bool, e: Effect)
    requires Base(s) && Equipped(s, t) && s.tasks[t].phase.Attaching? && StartEffectOk(CoreOf(s, t), e)
    ensures var s' := DoEndpoint(s, t, None, initialized, attempting, e);
      Cores(s') == Cores(s) && forall g :: 0 <= g < Cores(s) ==> Steady(CoreAt(s, g), CoreAt(s', g))
  {
    var s' := DoEndpoint(s, t, None, initialized, attempting, e);
    var c := PyStart(CoreOf(s, t), initialized, attempting, e).0;
    assert PhaseOk(s, t);
    EndpointCores(s, t, initialized, attempting, e);
    StartIdle(CoreOf(s, t), initialized, attempting, e);
    forall g | 0 <= g < Cores(s) ensures Steady(CoreAt(s, g), CoreAt(s', g)) {
      SameCoreSteady(if g == s.tasks[t].on.value then c else CoreAt(s, g), CoreAt(s', g));
    }
  }

  lemma EndpointOnce(s: Sys, t: nat, initialized: bool, attempting: bool, e: Effect)
    requires Base(s) && OneConnect(s) && Equipped(s, t) && s.tasks[t].phase.Attaching?
    requires StartEffectOk(CoreOf(s, t), e)
    ensures OneConnect(DoEndpoint(s, t, None, initialized, attempting, e))
  {
    EndpointSteady(s, t, initialized, attempting, e);
    EndpointTable(s, t, initialized, attempting, e);
    UnaskedKeeps(s, DoEndpoint(s, t, None, initialized, attempting, e));
  }

  lemma EndpointTable(s: Sys, t: nat, initialized: bool, attempting: bool, e: Effect)
    requires Equipped(s, t) && s.tasks[t].phase.Attaching?
    ensures var s' := DoEndpoint(s, t, None, initialized, attempting, e);
      && s'.kind == s.kind && s'.starters == s.starters
      && |s'.tasks| == |s.tasks| && s'.tasks == s.tasks[t := s'.tasks[t]]
      && s'.tasks[t].call == s.tasks[t].call && s'.tasks[t].stage == s.tasks[t].stage
  {
    BegunShape(s, t, initialized, attempting, e);
  }

  lemma QuietOnce(s: Sys, act: Action)
    requires OneConnect(s) && Legal(s, act)
    requires act.Tick? || act.Invoke? || act.Expire? || act.Cancel?
    ensures OneConnect(Step(s, act))
  {
    if act.Invoke? {
      InvokeUnasked(s, act.call, act.timeout, act.on);
    } else {
      OwnCoreUnasked(s, Step(s, act));
    }
    UnaskedKeeps(s, Step(s, act));
  }

  lemma InvokeUnasked(s: Sys, call: Call, timeout: Option<int>, on: nat)
    ensures Unasked(s, DoInvoke(s, call, timeout, on))
  {
    OwnCoreUnasked(s, DoInvoke(s, call, timeout, on));
  }

  lemma FinishOnce(s: Sys, t: nat, outcome: Outcome)
    requires OneConnect(s) && t < |s.tasks|
    ensures OneConnect(Finish(s, t, outcome))
  {
    OwnCoreUnasked(s, Finish(s, t, outcome));
    UnaskedKeeps(s, Finish(s, t, outcome));
  }

  lemma SetupOnce(s: Sys, act: Action)
    requires Base(s) && OneConnect(s) && Legal(s, act) && (act.Lookup? || act.Endpoint?)
    ensures OneConnect(Step(s, act))
  {
    if act.failure.Some? {
      FinishOnce(s, act.t, Failed(act.failure.value, "set-up failed"));
      assert Step(s, act) == Finish(s, act.t, Failed(act.failure.value, "set-up failed"));
    } else if act.Lookup? {
      EnlistOnce(s, act.t, NewCore(s.kind, act.serverName));
    } else {
      EndpointOnce(s, act.t, act.initialized, act.attempting, act.e);
      assert Step(s, act) == DoEndpoint(s, act.t, None, act.initialized, act.attempting, act.e);
    }
  }

  lemma TaskOnce(s: Sys, act: Action)
    requires Base(s) && OneConnect(s) && Legal(s, act) && (act.Continue? || act.Resume? || act.Signal?) && s.kind.Wt?
    ensures OneConnect(Step(s, act))
  {
    match act
    case Continue(t, a, e) => TurnOnce(s, t, a, e);
    case Resume(t, a, e) => ResumeOnce(s, t, a, e);
    case Signal(id, on, e) => SignalOnce(s, id, on, e);
  }

  lemma StepKeepsKind(s: Sys, act: Action)
    requires Legal(s, act)
    ensures Step(s, act).kind == s.kind
  {
    if IsCallback(act) {
      CallbackShape(s, act);
    } else if act.Continue? || act.Resume? {
      TurnKeepsKind(s, act);
    }
  }

  lemma AttemptKeepsKind(s: Sys, t: nat, c: Core, r: Py<Val>)
    requires Equipped(s, t)
    ensures AfterAttempt(s, t, c, r).kind == s.kind
  {}

  lemma TurnKeepsKind(s: Sys, act: Action)
    requires Legal(s, act) && (act.Continue? || act.Resume?)
    ensures Step(s, act).kind == s.kind
  {
    var s1 := if act.Resume? then Unpark(s, act.t) else s;
    if (act.Continue? || s.tasks[act.t].interrupt.Calm?) && !s.d.closed {
      var (c, r) := Attempt(CoreOf(s1, act.t), OpOf(s1.tasks[act.t]), act.a, act.e);
      AttemptKeepsKind(s1, act.t, c, r);
    }
  }

  lemma StepKeepsOne(s: Sys, act: Action)
    requires Base(s) && OneConnect(s) && Legal(s, act)
    ensures OneConnect(Step(s, act))
  {
    if !s.kind.Wt? {
      StepKeepsKind(s, act);
    } else if IsCallback(act) {
      var d, events := CallbackEffect(s, act);
      OwnCoreUnasked(s, s.(d := d, events := events));
      UnaskedKeeps(s, s.(d := d, events := events));
    } else if act.Tick? || act.Invoke? || act.Expire? || act.Cancel? {
      QuietOnce(s, act);
    } else if act.Lookup? || act.Endpoint? {
      SetupOnce(s, act);
    } else {
      TaskOnce(s, act);
    }
  }

  lemma {:induction false} RunKeepsOne(s: Sys, acts: seq<Action>)
    requires Base(s) && OneConnect(s) && LegalRun(s, acts)
    ensures Base(Run(s, acts)) && OneConnect(Run(s, acts))
    decreases |acts|
  {
    if acts != [] {
      StepKeepsBase(s, acts[0]);
      StepKeepsOne(s, acts[0]);
      RunKeepsOne(Step(s, acts[0]), acts[1..]);
    }
  }
}
