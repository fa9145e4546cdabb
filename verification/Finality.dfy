/** Teardown is one-way, and it releases every parked task. */
module Finality {
  import opened Prelude
  import opened Engine
  import opened Glue
  import opened Binding
  import opened Driver
  import opened DriverFacts
  import opened Machine
  import opened Waiting
  import opened Steps
  import opened Transports

  /** What a closed client keeps for ever. */
  ghost predicate StaysClosed(d: Client, d': Client)
  {
    d'.closed && d'.closeReason == d.closeReason && d'.handles == map[] && d'.wasConnected == d.wasConnected
  }

  /** Transports that turn up only now are stored too late and see nothing; the others stay as they are. */
  ghost predicate LateOnly(s: Sys, s': Sys)
  {
    && Stored(s) <= Stored(s')
    && forall i :: |Stored(s)| <= i < |Stored(s')| ==> Stored(s')[i] == Transport([], [], false, false)
  }

  /** On a closed client only the transport, or rather the list of them, changes. */
  lemma AttachToClosed(s: Sys, started: bool)
    requires s.d.closed && (s.d.transport.Some? ==> !s.d.transport.value.lost)
    ensures var s' := AttachTo(s, started);
      && s'.d == Attach(s.d) && LateOnly(s, s')
  {
    assert Begun(s.d, started) == Attach(s.d);
    if s.d.transport.Some? {
      assert s.d.transport.value.(lost := false) == s.d.transport.value;
    }
  }

  lemma EndpointStaysClosed(s: Sys, t: nat, initialized: bool, attempting: bool, e: Effect)
    requires Base(s) && s.d.closed && Equipped(s, t)
    ensures var s' := DoEndpoint(s, t, None, initialized, attempting, e);
      StaysClosed(s.d, s'.d) && LateOnly(s, s')
  {
    StartedStaysClosed(s, t, initialized, attempting, e);
    EndpointParts(s, t, initialized, attempting, e);
  }

  lemma StartedStaysClosed(s: Sys, t: nat, initialized: bool, attempting: bool, e: Effect)
    requires s.d.closed && s.d.handles == map[] && Equipped(s, t)
    requires s.d.transport.Some? ==> !s.d.transport.value.lost
    ensures var s' := Underway(s, t, initialized, attempting, e); StaysClosed(s.d, s'.d) && LateOnly(s, s')
  {
    var (c, r) := PyStart(CoreOf(s, t), initialized, attempting, e);
    var s1 := SetCore(s, s.tasks[t].on.value, c);
    AttachToClosed(s1, !r.Raise?);
    assert Stored(s1) == Stored(s);
  }

  /** On a closed client a turn ends the task with the frozen reason and touches nothing else. */
  lemma ClosedTurn(s: Sys, t: nat, a: Answer, e: Effect)
    requires s.d.closed && TurnOk(s, t, a, e)
    ensures Turn(s, t, a, e) ==
      Finish(s, t, Failed(ConnectionError, GivenReason(s.d)))
  {
    assert Teardown(s.d, "connect failed") == s.d;
  }

  /** The next resumption of a task parked on a closed client is its last: ConnectionError with the
      frozen reason, or its own timeout or cancellation; the core is not consulted. */
  lemma ClosedResume(s: Sys, t: nat, a: Answer, e: Effect)
    requires s.d.closed && Legal(s, Resume(t, a, e))
    ensures var s' := DoResume(s, t, a, e);
      && s'.d == s.d.(waiters := Remove(s.d.waiters, s.tasks[t].phase.future))
      && s'.retired == s.retired && s'.replaced == s.replaced
      && s'.running.None?
      && s'.tasks == s.tasks[t := s'.tasks[t]] && |s'.tasks| == |s.tasks|
      && s'.tasks[t].phase.Finished? && s'.tasks[t].phase.outcome.Failed?
      && (match s.tasks[t].interrupt
          case CancelRequested => s'.tasks[t].phase.outcome.exc == CancelledError
          case Expired => s'.tasks[t].phase.outcome.exc == TimeoutError
          case Calm => s'.tasks[t].phase.outcome ==
                         Failed(ConnectionError, GivenReason(s.d)))
  {
    var s1 := Unpark(s, t);
    assert Teardown(s1.d, "connect failed") == s1.d;
    if s.tasks[t].interrupt.Calm? {
      ClosedTurn(s1, t, a, e);
    }
  }

  lemma ClosedCallback(s: Sys, act: Action)
    requires Base(s) && s.d.closed && Legal(s, act) && IsCallback(act)
    ensures Step(s, act).d == s.d && Step(s, act).replaced == s.replaced
  {
    CallbackShape(s, act);
  }

  /** What a step of a closed client leaves alone. */
  ghost predicate Closing(s: Sys, s': Sys) { StaysClosed(s.d, s'.d) && LateOnly(s, s') }

  /** Nothing of what a closed client keeps, and none of its transports, is different. */
  lemma SameIsQuiet(s: Sys, s': Sys)
    requires s.d.closed && s.d.handles == map[] && s'.replaced == s.replaced
    requires s'.d == s.d.(now := s'.d.now, futures := s'.d.futures)
    ensures Closing(s, s')
  {}

  lemma ClosedQuiet(s: Sys, act: Action)
    requires ClientOk(s.d) && s.d.closed && Legal(s, act)
    requires act.Tick? || act.Invoke? || act.Expire? || act.Cancel?
    ensures Closing(s, Step(s, act))
  {
    QuietShape(s, act);
    SameIsQuiet(s, Step(s, act));
  }

  lemma ClosedLookup(s: Sys, t: nat, failure: Option<Exc>, serverName: string)
    requires Base(s) && s.d.closed && t < |s.tasks|
    ensures Closing(s, DoLookup(s, t, failure, serverName))
  {}

  /** Whatever happens, no core is touched by tasks, and only set-up can add a transport, too late. */
  lemma StepStaysClosed(s: Sys, act: Action)
    requires Base(s) && s.d.closed && Legal(s, act)
    ensures Closing(s, Step(s, act))
  {
    if act.Tick? || act.Invoke? || act.Expire? || act.Cancel? {
      ClosedQuiet(s, act);
    } else if act.Lookup? {
      ClosedLookup(s, act.t, act.failure, act.serverName);
    } else if act.Continue? || act.Resume? {
      ClosedTask(s, act);
    } else if act.Endpoint? {
      ClosedEndpoint(s, act.t, act.failure, act.initialized, act.attempting, act.e);
    } else if act.Signal? {
      ClosedSignal(s, act.id, act.on, act.e);
    } else {
      ClosedCallback(s, act);
    }
  }

  lemma ClosedTask(s: Sys, act: Action)
    requires Base(s) && s.d.closed && Legal(s, act) && (act.Continue? || act.Resume?)
    ensures Closing(s, Step(s, act)) && Step(s, act).d.core == s.d.core && Step(s, act).retired == s.retired
  {
    if act.Continue? { ClosedTurn(s, act.t, act.a, act.e); } else { ClosedResume(s, act.t, act.a, act.e); }
  }

  lemma ClosedEndpoint(s: Sys, t: nat, failure: Option<Exc>, initialized: bool, attempting: bool, e: Effect)
    requires Base(s) && s.d.closed && Equipped(s, t)
    ensures Closing(s, DoEndpoint(s, t, failure, initialized, attempting, e))
  {
    if failure.None? { EndpointStaysClosed(s, t, initialized, attempting, e); }
  }

  lemma ClosedSignal(s: Sys, id: StreamId, on: nat, e: Effect)
    requires s.d.closed && s.d.handles == map[] && on < Cores(s)
    ensures Closing(s, DoSignal(s, id, on, e))
  {
    var (c, st) := SignalStream(CoreAt(s, on), id, e);
    assert DoSignal(s, id, on, e) == SetCore(s, on, c);
  }

  /** Over any continuation of any run: nothing of the closing is ever undone or repeated. */
  lemma {:induction false} RunStaysClosed(s: Sys, acts: seq<Action>)
    requires Base(s) && s.d.closed && LegalRun(s, acts)
    ensures StaysClosed(s.d, Run(s, acts).d) && LateOnly(s, Run(s, acts))
    decreases |acts|
  {
    if acts != [] {
      var s1 := Step(s, acts[0]);
      StepKeepsBase(s, acts[0]);
      StepStaysClosed(s, acts[0]);
      RunStaysClosed(s1, acts[1..]);
      LateOnlyTrans(s, s1, Run(s1, acts[1..]));
    }
  }

  lemma LateOnlyTrans(s: Sys, s1: Sys, s2: Sys)
    requires LateOnly(s, s1) && LateOnly(s1, s2)
    ensures LateOnly(s, s2)
  {
    forall i | |Stored(s)| <= i < |Stored(s2)| ensures Stored(s2)[i] == Transport([], [], false, false) {
      if i < |Stored(s1)| { assert Stored(s2)[i] == Stored(s1)[i]; }
    }
  }

  /** A transport that was replaced stays as it is for ever, whether the client is open or not. */
  lemma StepKeepsReplaced(s: Sys, act: Action)
    requires Base(s) && Legal(s, act)
    ensures s.replaced <= Step(s, act).replaced
  {
    if !SetsUp(act) {
      StepCarries(s, act);
    } else if act.Endpoint? {
      EndpointKeepsReplaced(s, act.t, act.initialized, act.attempting, act.e);
    }
  }

  lemma EndpointKeepsReplaced(s: Sys, t: nat, initialized: bool, attempting: bool, e: Effect)
    requires Equipped(s, t)
    ensures s.replaced <= DoEndpoint(s, t, None, initialized, attempting, e).replaced
  {
    var (c, r) := PyStart(CoreOf(s, t), initialized, attempting, e);
    AttachReplaces(SetCore(s, s.tasks[t].on.value, c), !r.Raise?);
    EndpointParts(s, t, initialized, attempting, e);
  }

  lemma {:induction false} RunKeepsReplaced(s: Sys, acts: seq<Action>)
    requires Base(s) && LegalRun(s, acts)
    ensures s.replaced <= Run(s, acts).replaced
    decreases |acts|
  {
    if acts != [] {
      StepKeepsBase(s, acts[0]);
      StepKeepsReplaced(s, acts[0]);
      RunKeepsReplaced(Step(s, acts[0]), acts[1..]);
    }
  }

  // ----- the parked tasks drain

  function Parkeds(tasks: seq<Task>): nat
  {
    if tasks == [] then 0
    else Parkeds(tasks[..|tasks| - 1]) + (if tasks[|tasks| - 1].phase.Parked? then 1 else 0)
  }

  function Resumptions(acts: seq<Action>): nat
  {
    if acts == [] then 0 else (if acts[0].Resume? then 1 else 0) + Resumptions(acts[1..])
  }

  lemma {:induction false} ParkedsUpdate(tasks: seq<Task>, t: nat, k: Task)
    requires t < |tasks|
    ensures Parkeds(tasks[t := k]) + (if tasks[t].phase.Parked? then 1 else 0)
            == Parkeds(tasks) + (if k.phase.Parked? then 1 else 0)
  {
    var n := |tasks| - 1;
    if t < n {
      ParkedsUpdate(tasks[..n], t, k);
      assert tasks[t := k][..n] == tasks[..n][t := k];
    } else {
      assert tasks[t := k][..n] == tasks[..n];
    }
  }

  lemma TurnDrains(s: Sys, act: Action)
    requires Base(s) && s.d.closed && Legal(s, act) && (act.Continue? || act.Resume?)
    ensures Parkeds(Step(s, act).tasks) + (if act.Resume? then 1 else 0) == Parkeds(s.tasks)
  {
    var s' := Step(s, act);
    if act.Continue? {
      ClosedTurn(s, act.t, act.a, act.e);
    } else {
      ClosedResume(s, act.t, act.a, act.e);
    }
    ParkedsUpdate(s.tasks, act.t, s'.tasks[act.t]);
  }

  lemma EndpointDrains(s: Sys, t: nat, failure: Option<Exc>, initialized: bool, attempting: bool, e: Effect)
    requires Equipped(s, t) && s.tasks[t].phase.Attaching?
    ensures Parkeds(DoEndpoint(s, t, failure, initialized, attempting, e).tasks) == Parkeds(s.tasks)
  {
    ParkedsUpdate(s.tasks, t, DoEndpoint(s, t, failure, initialized, attempting, e).tasks[t]);
  }

  lemma LookupDrains(s: Sys, t: nat, failure: Option<Exc>, serverName: string)
    requires t < |s.tasks| && s.tasks[t].phase.Resolving?
    ensures Parkeds(DoLookup(s, t, failure, serverName).tasks) == Parkeds(s.tasks)
  {
    ParkedsUpdate(s.tasks, t, DoLookup(s, t, failure, serverName).tasks[t]);
  }

  lemma InterruptDrains(s: Sys, act: Action)
    requires Legal(s, act) && (act.Expire? || act.Cancel?)
    ensures Parkeds(Step(s, act).tasks) == Parkeds(s.tasks)
  {
    ParkedsUpdate(s.tasks, act.t, Step(s, act).tasks[act.t]);
  }

  lemma CalmDrains(s: Sys, act: Action)
    requires Legal(s, act) && (act.Tick? || act.Signal? || IsCallback(act))
    ensures Step(s, act).tasks == s.tasks
  {
    if IsCallback(act) { CallbackShape(s, act); }
  }

  lemma SetupDrains(s: Sys, act: Action)
    requires Legal(s, act) && (act.Invoke? || act.Lookup? || act.Endpoint?)
    ensures Parkeds(Step(s, act).tasks) == Parkeds(s.tasks)
  {
    match act
    case Invoke(_, _, _) => assert Step(s, act).tasks[..|s.tasks|] == s.tasks;
    case Lookup(t, failure, serverName) => LookupDrains(s, t, failure, serverName);
    case Endpoint(t, failure, initialized, attempting, e) =>
      EndpointDrains(s, t, failure, initialized, attempting, e);
  }

  lemma StepDrains(s: Sys, act: Action)
    requires Base(s) && s.d.closed && Legal(s, act)
    ensures Parkeds(Step(s, act).tasks) + (if act.Resume? then 1 else 0) == Parkeds(s.tasks)
  {
    if act.Tick? || act.Signal? || IsCallback(act) {
      CalmDrains(s, act);
    } else if act.Invoke? || act.Lookup? || act.Endpoint? {
      SetupDrains(s, act);
    } else if act.Expire? || act.Cancel? {
      InterruptDrains(s, act);
    } else {
      TurnDrains(s, act);
    }
  }

  /** Once the client is closed every parked task can run, and each resumption removes one for good:
      after as many resumptions as there were parked tasks none is left. */
  lemma {:induction false} RunDrains(s: Sys, acts: seq<Action>)
    requires Base(s) && s.d.closed && LegalRun(s, acts)
    ensures Parkeds(Run(s, acts).tasks) + Resumptions(acts) == Parkeds(s.tasks)
    ensures forall t :: 0 <= t < |s.tasks| && s.tasks[t].phase.Parked? ==> Resumable(s, t)
    decreases |acts|
  {
    if acts != [] {
      StepKeepsBase(s, acts[0]);
      StepStaysClosed(s, acts[0]);
      StepDrains(s, acts[0]);
      RunDrains(Step(s, acts[0]), acts[1..]);
    }
  }
}
